/**
 * The product-card download (src/content/utils_content.py): a first request
 * for up to 100 cards, then, while the last page was full, one more request
 * carrying the cursor (`updatedAt`, `nmID`) of the last answer. Every card
 * becomes a row tagged with the account; a request that fails before any
 * page gives no rows, one that fails later ends the download with the pages
 * already fetched.
 */
module Content {
  import opened PyJson

  const CardsLimit := 100

  /** A reply of the cards endpoint. */
  datatype ContentReply =
    | Reply(status: int, body: Value)  // body: the decoded JSON
    | NetworkError                     // requests.post itself raised a RequestException

  /**
   * The request body: the `cursor` and `filter` dicts under `settings`. The
   * loop writes `updatedAt` and `nmID` into the cursor dict in place.
   */
  datatype Payload = Payload(cursor: map<string, Value>, filter: map<string, Value>)

  const InitialPayload := Payload(map["limit" := Int(CardsLimit)], map["withPhoto" := Int(-1)])

  /**
   * The request raised a `requests.exceptions.RequestException`: it could not
   * be sent, or `raise_for_status` rejected a 4xx or 5xx status.
   */
  predicate Failed(r: ContentReply) {
    r.NetworkError? || 400 <= r.status < 600
  }

  /**
   * `pd.DataFrame(result['cards'])` with `account` set: one row per card,
   * in order. A `cards` that is not a list of objects is a ValueError here.
   */
  function Page(body: Value, account: string): (r: Result<seq<Record>>)
    ensures r.Ok? <==> Field(body, "cards").Ok? && Cards(Field(body, "cards").value)
    ensures r.Ok? ==> var cards := Field(body, "cards").value.items;
      && |r.value| == |cards|
      && forall i | 0 <= i < |r.value| :: r.value[i] == cards[i].fields["account" := Str(account)]
    ensures r.Ok? ==> forall i | 0 <= i < |r.value| :: "account" in r.value[i] && r.value[i]["account"] == Str(account)
  {
    var cards :- Field(body, "cards");
    if !cards.List? then Err(ValueError)
    else
      var rows := FieldsOf(cards.items);
      if rows.Err? then Err(ValueError) else Ok(TagAll(rows.value, "account", Str(account)))
  }

  /** A `cards` field that makes a frame: a list of objects. */
  predicate Cards(cards: Value) {
    cards.List? && forall i | 0 <= i < |cards.items| :: cards.items[i].Map?
  }

  /** `len(result['cards']) == payload['settings']['cursor']['limit']`: the last page was full. */
  predicate Continues(payload: Payload, count: nat) {
    Int(count) == GetOr(payload.cursor, "limit", Null)
  }

  /**
   * The next request's payload: `updatedAt` and `nmID` of the last answer's
   * cursor written into the cursor dict; a missing key raises.
   */
  function SentAfter(payload: Payload, body: Value): Result<Payload> {
    var c :- Field(body, "cursor");
    var updatedAt :- Field(c, "updatedAt");
    var nmID :- Field(c, "nmID");
    Ok(payload.(cursor := payload.cursor["updatedAt" := updatedAt]["nmID" := nmID]))
  }

  /**
   * The `while` loop, entered with the payload of the last request, the body
   * of the last answer and how many cards it had: the rows of the later
   * pages, and the payloads of the requests it sent that got a reply.
   */
  function More(payload: Payload, last: Value, count: nat, replies: seq<ContentReply>, account: string)
    : (r: (Run<seq<Record>>, seq<Payload>))
    ensures |r.1| <= |replies|
    decreases |replies|
  {
    if !Continues(payload, count) then (Finished([]), [])
    else match SentAfter(payload, last)
      case Err(e) => (Raised(e), [])
      case Ok(next) =>
        if replies == [] then (Starved, [])
        else if Failed(replies[0]) then (Finished([]), [next])
        else match Page(replies[0].body, account)
          case Err(e) => (Raised(e), [next])
          case Ok(rows) =>
            var (rest, sent) := More(next, replies[0].body, |rows|, replies[1..], account);
            (Prepend(rows, rest), [next] + sent)
  }

  /** The ways the loop's next iteration ends it: what the rest of the loop then returns. */
  lemma MoreStops(payload: Payload, last: Value, count: nat, rs: seq<ContentReply>, account: string)
    requires Continues(payload, count)
    ensures var (next, more) := (SentAfter(payload, last), More(payload, last, count, rs, account));
      && (next.Err? ==> more == (Raised(next.error), []))
      && (next.Ok? && rs == [] ==> more == (Starved, []))
      && (next.Ok? && rs != [] && Failed(rs[0]) ==> more == (Finished([]), [next.value]))
      && (next.Ok? && rs != [] && !Failed(rs[0]) && Page(rs[0].body, account).Err? ==>
            more == (Raised(Page(rs[0].body, account).error), [next.value]))
  {
  }

  /**
   * The loop's next request got reply `k`, a page of `rows`: the loop goes
   * on from there, with the rows and the request added to what it holds.
   */
  lemma MoreGoesOn(goal: (Run<seq<Record>>, seq<Payload>), contentDf: seq<Record>, sent: seq<Payload>,
                   payload: Payload, last: Value, count: nat, replies: seq<ContentReply>, account: string, rows: seq<Record>)
    requires |sent| < |replies| && Continues(payload, count) && SentAfter(payload, last).Ok?
    requires !Failed(replies[|sent|]) && Page(replies[|sent|].body, account) == Ok(rows)
    requires goal.0 == Prepend(contentDf, More(payload, last, count, replies[|sent|..], account).0)
    requires goal.1 == sent + More(payload, last, count, replies[|sent|..], account).1
    ensures var (next, k) := (SentAfter(payload, last).value, |sent| + 1);
      var more := More(next, replies[k - 1].body, |rows|, replies[k..], account);
      goal.0 == Prepend(contentDf + rows, more.0) && goal.1 == (sent + [next]) + more.1
  {
    var (next, k) := (SentAfter(payload, last).value, |sent| + 1);
    var rs := replies[|sent|..];
    assert rs[0] == replies[k - 1] && rs[1..] == replies[k..];
    var more := More(next, replies[k - 1].body, |rows|, replies[k..], account);
    assert More(payload, last, count, rs, account) == (Prepend(rows, more.0), [next] + more.1);
    PrependAssoc(contentDf, rows, more.0);
    AppendAssoc(sent, [next], more.1);
  }

  /** The spec of get_content_data: the rows, and the payloads of the requests that got a reply. */
  function ContentData(account: string, replies: seq<ContentReply>): (r: (Run<seq<Record>>, seq<Payload>))
    ensures |r.1| <= |replies|
  {
    if replies == [] then (Starved, [])
    else if Failed(replies[0]) then (Finished([]), [InitialPayload])
    else match Page(replies[0].body, account)
      case Err(e) => (Raised(e), [InitialPayload])
      case Ok(rows) =>
        var (rest, sent) := More(InitialPayload, replies[0].body, |rows|, replies[1..], account);
        (Prepend(rows, rest), [InitialPayload] + sent)
  }

  /**
   * get_content_data: the first page, then the cursor loop. Returns the rows
   * and the payloads of the requests sent.
   */
  method GetContentData(account: string, replies: seq<ContentReply>) returns (result: Run<seq<Record>>, sent: seq<Payload>)
    ensures (result, sent) == ContentData(account, replies)
  {
    var payload := InitialPayload;
    if replies == [] {
      return Starved, [];
    }
    sent := [payload];
    var res := replies[0];
    if Failed(res) {
      return Finished([]), sent;
    }
    var page := Page(res.body, account);
    if page.Err? {
      return Raised(page.error), sent;
    }
    var later := More(payload, res.body, |page.value|, replies[1..], account);
    PrependAssoc(page.value, [], later.0);
    result, sent := Paginate(account, replies, payload, res.body, |page.value|, page.value, sent);
  }

  /**
   * The cursor loop of get_content_data, entered after `sent` requests
   * have been answered and `contentDf` holds their rows.
   */
  method Paginate(account: string, replies: seq<ContentReply>, payload: Payload, last: Value, count: nat,
                  contentDf: seq<Record>, sent: seq<Payload>)
    returns (result: Run<seq<Record>>, sentAll: seq<Payload>)
    requires |sent| <= |replies|
    ensures var (rest, later) := More(payload, last, count, replies[|sent|..], account);
      (result, sentAll) == (Prepend(contentDf, rest), sent + later)
  {
    ghost var whole := More(payload, last, count, replies[|sent|..], account);
    ghost var goal := (Prepend(contentDf, whole.0), sent + whole.1);
    var payload, last, count: nat, contentDf := payload, last, count, contentDf;
    sentAll := sent;
    assert sentAll + whole.1 == goal.1;
    while Continues(payload, count)
      invariant |sent| <= |sentAll| <= |replies|
      invariant goal.0 == Prepend(contentDf, More(payload, last, count, replies[|sentAll|..], account).0)
      invariant goal.1 == sentAll + More(payload, last, count, replies[|sentAll|..], account).1
      decreases |replies| - |sentAll|
    {
      var stop;
      stop, payload, last, count, contentDf, sentAll := NextPage(account, replies, goal, payload, last, count, contentDf, sentAll);
      if stop.Some? {
        return stop.value, sentAll;
      }
    }
    assert contentDf + [] == contentDf && sentAll + [] == sentAll;
    result := Finished(contentDf);
  }

  /**
   * One iteration of the cursor loop: write the last answer's cursor into
   * the payload and send it. The loop stops (`stop` holds what
   * get_content_data returns) when reading the cursor raises, the request
   * fails, or the answer's cards cannot be read; otherwise it goes on with
   * the new page's rows added.
   */
  method NextPage(account: string, replies: seq<ContentReply>, ghost goal: (Run<seq<Record>>, seq<Payload>),
                  payload: Payload, last: Value, count: nat, contentDf: seq<Record>, sentAll: seq<Payload>)
    returns (stop: Option<Run<seq<Record>>>, payload': Payload, last': Value, count': nat,
             contentDf': seq<Record>, sentAll': seq<Payload>)
    requires |sentAll| <= |replies| && Continues(payload, count)
    requires goal.0 == Prepend(contentDf, More(payload, last, count, replies[|sentAll|..], account).0)
    requires goal.1 == sentAll + More(payload, last, count, replies[|sentAll|..], account).1
    ensures stop.Some? ==> goal == (stop.value, sentAll')
    ensures stop.None? ==> |sentAll| < |sentAll'| <= |replies|
    ensures stop.None? ==> goal.0 == Prepend(contentDf', More(payload', last', count', replies[|sentAll'|..], account).0)
    ensures stop.None? ==> goal.1 == sentAll' + More(payload', last', count', replies[|sentAll'|..], account).1
  {
    MoreStops(payload, last, count, replies[|sentAll|..], account);
    var next := SentAfter(payload, last);
    assert sentAll + [] == sentAll;
    if next.Err? {
      return Some(Raised(next.error)), payload, last, count, contentDf, sentAll;
    }
    if |sentAll| == |replies| {
      return Some(Starved), payload, last, count, contentDf, sentAll;
    }
    var res := replies[|sentAll|];
    if Failed(res) {
      assert contentDf + [] == contentDf;
      return Some(Finished(contentDf)), next.value, last, count, contentDf, sentAll + [next.value];
    }
    var page := Page(res.body, account);
    if page.Err? {
      return Some(Raised(page.error)), next.value, last, count, contentDf, sentAll + [next.value];
    }
    MoreGoesOn(goal, contentDf, sentAll, payload, last, count, replies, account, page.value);
    stop, payload', last', count', contentDf', sentAll' :=
      None, next.value, res.body, |page.value|, contentDf + page.value, sentAll + [next.value];
  }

  // ---------------------------------------------------------------------------
  // What get_content_data promises
  // ---------------------------------------------------------------------------

  /** The rows a reply contributes: its page, or nothing when the request failed. */
  function PageRows(r: ContentReply, account: string): seq<Record> {
    if Failed(r) then [] else match Page(r.body, account) case Ok(rows) => rows case Err(_) => []
  }

  /** The rows of the replies, in request order. */
  function Pages(rs: seq<ContentReply>, account: string): seq<Record> {
    if rs == [] then [] else PageRows(rs[0], account) + Pages(rs[1..], account)
  }

  lemma {:induction false} PagesSnoc(rs: seq<ContentReply>, r: ContentReply, account: string)
    ensures Pages(rs + [r], account) == Pages(rs, account) + PageRows(r, account)
    decreases |rs|
  {
    if rs == [] {
      assert [r][1..] == [];
    } else {
      assert (rs + [r])[1..] == rs[1..] + [r];
      PagesSnoc(rs[1..], r, account);
      AppendAssoc(PageRows(rs[0], account), Pages(rs[1..], account), PageRows(r, account));
    }
  }

  /** The reply to a request was a full page: the loop goes on. */
  predicate FullPage(r: ContentReply, payload: Payload, account: string) {
    !Failed(r) && Page(r.body, account).Ok? && Continues(payload, |Page(r.body, account).value|)
  }

  /**
   * The requests sent, each answered by the reply at the same place: every
   * request but the last follows a full page, and carries the cursor of
   * the answer before it.
   */
  ghost predicate Chained(replies: seq<ContentReply>, sent: seq<Payload>, account: string) {
    && |sent| <= |replies|
    && forall j | 0 <= j < |sent| - 1 ::
         FullPage(replies[j], sent[j], account) && SentAfter(sent[j], replies[j].body) == Ok(sent[j + 1])
  }

  /** A run over the replies ended as the loop ends: at a failed request or a short page, with every page's rows. */
  ghost predicate Ended(replies: seq<ContentReply>, account: string, run: Run<seq<Record>>, sent: seq<Payload>) {
    && Chained(replies, sent, account)
    && (0 < |sent| && Failed(replies[|sent| - 1]) ==> run.Finished?)
    && (run.Finished? ==>
          && run.value == Pages(replies[..|sent|], account)
          && (0 < |sent| ==> !FullPage(replies[|sent| - 1], sent[|sent| - 1], account))
          && (0 < |sent| ==> Failed(replies[|sent| - 1]) || Page(replies[|sent| - 1].body, account).Ok?))
  }

  /** What the pagination loop did, entered with the last request's payload and the last answer. */
  ghost predicate Paginated(payload: Payload, last: Value, count: nat, replies: seq<ContentReply>, account: string,
                            run: Run<seq<Record>>, sent: seq<Payload>) {
    && Ended(replies, account, run, sent)
    && (0 < |sent| ==> Continues(payload, count) && SentAfter(payload, last) == Ok(sent[0]))
    && (run.Finished? && sent == [] ==> !Continues(payload, count))
  }

  /** The loop sends a request only after a full page, carries the cursor forward, and returns the pages' rows. */
  lemma {:induction false} MoreTrace(payload: Payload, last: Value, count: nat, replies: seq<ContentReply>, account: string)
    ensures var (run, sent) := More(payload, last, count, replies, account);
      Paginated(payload, last, count, replies, account, run, sent)
    decreases |replies|
  {
    var (run, sent) := More(payload, last, count, replies, account);
    if Continues(payload, count) && SentAfter(payload, last).Ok? && replies != [] {
      var next := SentAfter(payload, last).value;
      if Failed(replies[0]) {
        assert replies[..1] == [replies[0]] && [replies[0]][1..] == [];
      } else if Page(replies[0].body, account).Ok? {
        var rows := Page(replies[0].body, account).value;
        MoreTrace(next, replies[0].body, |rows|, replies[1..], account);
        var (run', sent') := More(next, replies[0].body, |rows|, replies[1..], account);
        assert run == Prepend(rows, run') && sent == [next] + sent';
        PageThen(next, rows, replies, account, run', sent');
      }
    } else {
      assert replies[..0] == [];
    }
  }

  /**
   * A page answered the request `head`, and the loop went on from it: the
   * whole run ended as the loop ends.
   */
  lemma PageThen(head: Payload, rows: seq<Record>, replies: seq<ContentReply>, account: string,
                 run': Run<seq<Record>>, sent': seq<Payload>)
    requires replies != [] && !Failed(replies[0]) && Page(replies[0].body, account) == Ok(rows)
    requires Paginated(head, replies[0].body, |rows|, replies[1..], account, run', sent')
    ensures Ended(replies, account, Prepend(rows, run'), [head] + sent')
  {
    PageThenChained(head, rows, replies, account, sent');
    var (run, sent) := (Prepend(rows, run'), [head] + sent');
    if 0 < |sent'| {
      assert replies[|sent| - 1] == replies[1..][|sent'| - 1] && sent[|sent| - 1] == sent'[|sent'| - 1];
    }
    if run.Finished? {
      PageThenPages(rows, replies, account, run'.value, |sent'|);
    }
  }

  /** The request chain after a page, with the request that page answered put in front. */
  lemma PageThenChained(head: Payload, rows: seq<Record>, replies: seq<ContentReply>, account: string, sent': seq<Payload>)
    requires replies != [] && !Failed(replies[0]) && Page(replies[0].body, account) == Ok(rows)
    requires Chained(replies[1..], sent', account)
    requires 0 < |sent'| ==> Continues(head, |rows|) && SentAfter(head, replies[0].body) == Ok(sent'[0])
    ensures Chained(replies, [head] + sent', account)
  {
    var sent := [head] + sent';
    forall j | 0 <= j < |sent| - 1
      ensures FullPage(replies[j], sent[j], account) && SentAfter(sent[j], replies[j].body) == Ok(sent[j + 1])
    {
      if j > 0 {
        assert replies[j] == replies[1..][j - 1] && sent[j] == sent'[j - 1] && sent[j + 1] == sent'[j];
      }
    }
  }

  /** The rows after a page, with that page's rows put in front. */
  lemma PageThenPages(rows: seq<Record>, replies: seq<ContentReply>, account: string, later: seq<Record>, k: nat)
    requires k < |replies| && !Failed(replies[0]) && Page(replies[0].body, account) == Ok(rows)
    requires later == Pages(replies[1..][..k], account)
    ensures rows + later == Pages(replies[..k + 1], account)
  {
    assert PageRows(replies[0], account) == rows;
    assert replies[..k + 1][0] == replies[0] && replies[..k + 1][1..] == replies[1..][..k];
  }

  /**
   * get_content_data: the first request carries the initial payload; each
   * later one follows a full page and carries the cursor of the answer
   * before it; a download that ends returns the rows of every page in
   * request order, and stops at a failed request or a short page.
   */
  lemma ContentTrace(account: string, replies: seq<ContentReply>)
    ensures var (run, sent) := ContentData(account, replies);
      && (replies != [] ==> 0 < |sent| && sent[0] == InitialPayload)
      && Ended(replies, account, run, sent)
      && (run.Finished? ==> 0 < |sent|)
  {
    if replies != [] && !Failed(replies[0]) && Page(replies[0].body, account).Ok? {
      var rows := Page(replies[0].body, account).value;
      MoreTrace(InitialPayload, replies[0].body, |rows|, replies[1..], account);
      var (run', sent') := More(InitialPayload, replies[0].body, |rows|, replies[1..], account);
      PageThen(InitialPayload, rows, replies, account, run', sent');
    } else if replies != [] {
      assert replies[..1] == [replies[0]] && [replies[0]][1..] == [];
    }
  }

  /** Writing the cursor keeps the filter and every other cursor key, `limit` among them. */
  lemma SentAfterKeeps(payload: Payload, body: Value)
    requires SentAfter(payload, body).Ok?
    ensures var next := SentAfter(payload, body).value;
      && next.filter == payload.filter
      && GetOr(next.cursor, "limit", Null) == GetOr(payload.cursor, "limit", Null)
  {
    assert "limit" != "updatedAt" && "limit" != "nmID";
  }

  /** The request payloads from the first to request `j`: `limit` stays 100 and the filter stays `withPhoto = -1`. */
  lemma {:induction false} KeptUpTo(replies: seq<ContentReply>, sent: seq<Payload>, account: string, j: nat)
    requires Chained(replies, sent, account) && 0 < |sent| && sent[0] == InitialPayload && j < |sent|
    ensures GetOr(sent[j].cursor, "limit", Null) == Int(CardsLimit) && sent[j].filter == InitialPayload.filter
  {
    if j > 0 {
      KeptUpTo(replies, sent, account, j - 1);
      assert FullPage(replies[j - 1], sent[j - 1], account) && SentAfter(sent[j - 1], replies[j - 1].body) == Ok(sent[j]);
      SentAfterKeeps(sent[j - 1], replies[j - 1].body);
    }
  }

  /** Every request asks for 100 cards with the initial filter. */
  ghost predicate LimitKept(sent: seq<Payload>) {
    forall j | 0 <= j < |sent| :: GetOr(sent[j].cursor, "limit", Null) == Int(CardsLimit) && sent[j].filter == InitialPayload.filter
  }

  /** The request `next` carries `updatedAt` and `nmID` of the cursor of the answer `r`. */
  predicate Carries(r: ContentReply, next: Payload) {
    && "updatedAt" in next.cursor && "nmID" in next.cursor
    && r.Reply? && Field(r.body, "cursor").Ok?
    && Field(Field(r.body, "cursor").value, "updatedAt") == Ok(next.cursor["updatedAt"])
    && Field(Field(r.body, "cursor").value, "nmID") == Ok(next.cursor["nmID"])
  }

  /** Every request after the first carries the cursor of the previous answer. */
  ghost predicate CursorCarried(replies: seq<ContentReply>, sent: seq<Payload>) {
    && |sent| <= |replies|
    && forall j | 0 <= j < |sent| - 1 :: Carries(replies[j], sent[j + 1])
  }

  lemma ChainedKeepsLimit(replies: seq<ContentReply>, sent: seq<Payload>, account: string)
    requires Chained(replies, sent, account) && 0 < |sent| && sent[0] == InitialPayload
    ensures LimitKept(sent)
  {
    forall j | 0 <= j < |sent|
      ensures GetOr(sent[j].cursor, "limit", Null) == Int(CardsLimit) && sent[j].filter == InitialPayload.filter
    {
      KeptUpTo(replies, sent, account, j);
    }
  }

  lemma ChainedCarries(replies: seq<ContentReply>, sent: seq<Payload>, account: string)
    requires Chained(replies, sent, account)
    ensures CursorCarried(replies, sent)
  {
    forall j | 0 <= j < |sent| - 1
      ensures Carries(replies[j], sent[j + 1])
    {
      assert FullPage(replies[j], sent[j], account) && SentAfter(sent[j], replies[j].body) == Ok(sent[j + 1]);
      CursorWritten(replies[j], sent[j]);
    }
  }

  /** The next payload holds the cursor fields of the answer. */
  lemma CursorWritten(r: ContentReply, payload: Payload)
    requires r.Reply? && SentAfter(payload, r.body).Ok?
    ensures Carries(r, SentAfter(payload, r.body).value)
  {
  }

  /**
   * Every request of get_content_data asks for 100 cards with the same
   * filter; each request after the first carries `updatedAt` and `nmID` of
   * the previous answer's cursor.
   */
  lemma ContentRequests(account: string, replies: seq<ContentReply>)
    ensures LimitKept(ContentData(account, replies).1)
    ensures CursorCarried(replies, ContentData(account, replies).1)
  {
    ContentTrace(account, replies);
    var sent := ContentData(account, replies).1;
    if replies != [] {
      ChainedKeepsLimit(replies, sent, account);
    }
    ChainedCarries(replies, sent, account);
  }

  /**
   * Pagination goes on only after a page of exactly 100 cards: every reply
   * but the last was one, and a download that ends stopped at a failed
   * request or a page of another size.
   */
  lemma ContentStops(account: string, replies: seq<ContentReply>)
    ensures var (run, sent) := ContentData(account, replies);
      && (forall j | 0 <= j < |sent| - 1 ::
            !Failed(replies[j]) && Page(replies[j].body, account).Ok? && |Page(replies[j].body, account).value| == CardsLimit)
      && (run.Finished? ==>
            && 0 < |sent|
            && (Failed(replies[|sent| - 1])
                || (Page(replies[|sent| - 1].body, account).Ok? && |Page(replies[|sent| - 1].body, account).value| != CardsLimit)))
  {
    ContentTrace(account, replies);
    var (run, sent) := ContentData(account, replies);
    forall j | 0 <= j < |sent|
      ensures GetOr(sent[j].cursor, "limit", Null) == Int(CardsLimit)
    {
      KeptUpTo(replies, sent, account, j);
    }
    if run.Finished? {
      var k := |sent| - 1;
    }
  }

  /** A failed request adds no rows. */
  lemma FailedAddsNothing(replies: seq<ContentReply>, account: string, k: nat)
    requires k < |replies| && Failed(replies[k])
    ensures Pages(replies[..k + 1], account) == Pages(replies[..k], account)
  {
    assert replies[..k + 1] == replies[..k] + [replies[k]];
    PagesSnoc(replies[..k], replies[k], account);
    assert PageRows(replies[k], account) == [];
    assert Pages(replies[..k], account) + [] == Pages(replies[..k], account);
  }

  /**
   * A request that fails ends the download with the pages already fetched;
   * when the first one fails, with no rows and no further request.
   */
  lemma FailureKeepsPages(account: string, replies: seq<ContentReply>)
    ensures var (run, sent) := ContentData(account, replies);
      0 < |sent| && Failed(replies[|sent| - 1]) ==> run == Finished(Pages(replies[..|sent| - 1], account))
    ensures replies != [] && Failed(replies[0]) ==> ContentData(account, replies) == (Finished([]), [InitialPayload])
  {
    ContentTrace(account, replies);
    var (run, sent) := ContentData(account, replies);
    if 0 < |sent| && Failed(replies[|sent| - 1]) {
      FailedAddsNothing(replies, account, |sent| - 1);
    }
  }

  /** Every row of a download that ends carries the account. */
  lemma ContentTagged(account: string, replies: seq<ContentReply>)
    ensures var run := ContentData(account, replies).0;
      run.Finished? ==> forall i | 0 <= i < |run.value| :: "account" in run.value[i] && run.value[i]["account"] == Str(account)
  {
    ContentTrace(account, replies);
    var (run, sent) := ContentData(account, replies);
    if run.Finished? {
      PagesTagged(replies[..|sent|], account);
    }
  }

  /** Every row carries the account. */
  predicate Tagged(rows: seq<Record>, account: string) {
    forall i | 0 <= i < |rows| :: "account" in rows[i] && rows[i]["account"] == Str(account)
  }

  lemma {:induction false} PagesTagged(rs: seq<ContentReply>, account: string)
    ensures Tagged(Pages(rs, account), account)
    decreases |rs|
  {
    if rs != [] {
      PagesTagged(rs[1..], account);
      PageRowsTagged(rs[0], account);
      TaggedAppend(PageRows(rs[0], account), Pages(rs[1..], account), account);
    }
  }

  /** Every row of one reply carries the account. */
  lemma PageRowsTagged(r: ContentReply, account: string)
    ensures Tagged(PageRows(r, account), account)
  {
  }

  lemma TaggedAppend(a: seq<Record>, b: seq<Record>, account: string)
    requires Tagged(a, account) && Tagged(b, account)
    ensures Tagged(a + b, account)
  {
    forall i | 0 <= i < |a + b|
      ensures "account" in (a + b)[i] && (a + b)[i]["account"] == Str(account)
    {
      if i >= |a| {
        assert (a + b)[i] == b[i - |a|];
      }
    }
  }
}
