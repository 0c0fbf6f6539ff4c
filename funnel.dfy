/**
 * The sales-funnel job (src/funnel/utils_funnel.py): `get_funnel_v3` pages
 * through an account's products 1000 at a time, retrying throttled and
 * failed requests up to 30 times in a row; `process_funnel_daily` fetches
 * every (day, account) pair in batches of 28 days and flattens every product
 * into one 27-column row.
 */
module Funnel {
  import opened PyJson
  import opened Batching
  import opened Script

  const PageLimit := 1000
  const MaxAttempts := 30
  const DateBatchSize := 28

  /** A reply of the sales-funnel endpoint. */
  datatype FunnelReply =
    | Reply(status: int, body: Value)  // body: the decoded JSON
    | NetworkError                     // aiohttp.ClientError

  /** The loop's variables: `offset`, `attempt` and `products_list`. */
  datatype FunnelState = FunnelState(offset: nat, attempt: nat, products: seq<Record>)

  /** How one iteration ends: with another request, leaving the loop (`break`), or `return None`. */
  datatype FunnelStep = Next(state: FunnelState) | Leave(state: FunnelState) | Abort

  /** `data.get("data", {}).get("products", [])`; a non-dict raises AttributeError. */
  function PageProducts(body: Value): Result<Value> {
    var inner :- Get(body, "data", Map(map[]));
    Get(inner, "products", List([]))
  }

  /** A counted failure (429, an unexpected status, a network error): leave at the 30th in a row. */
  function Retry(st: FunnelState): FunnelStep {
    var st' := st.(attempt := st.attempt + 1);
    if st'.attempt >= MaxAttempts then Leave(st') else Next(st')
  }

  /**
   * One iteration of the `while True` loop. Every exception other than a
   * ClientError (a body of the wrong shape, a product that is not a dict) is
   * caught by `except Exception` and leaves the loop.
   */
  function Step(st: FunnelState, reply: FunnelReply, account: string): FunnelStep {
    match reply
    case NetworkError => Retry(st)
    case Reply(status, body) =>
      if status == 200 then
        match PageProducts(body)
        case Err(_) => Leave(st)
        case Ok(products) =>
          if !Truthy(products) then Leave(st)
          else match AsRecords(products)
            case Err(_) => Leave(st)
            case Ok(items) =>
              var collected := st.products + TagAll(items, "account", Str(account));
              if |items| < PageLimit then Leave(st.(products := collected))
              else Next(FunnelState(st.offset + |items|, 0, collected))
      else if status == 429 then Retry(st)
      // `err.get('detail', ...)` raises AttributeError on a non-dict, which leaves the loop
      else if status == 400 || status == 401 || status == 403 then (if body.Map? then Abort else Leave(st))
      else Retry(st)
  }

  /** What get_funnel_v3 returns after the loop: the products, or None when there are none. */
  function Final(products: seq<Record>): Option<seq<Record>> {
    if products != [] then Some(products) else None
  }

  /** The loop from state `st`: its outcome and the `offset` of every request it sends. */
  function Fetch(replies: seq<FunnelReply>, st: FunnelState, account: string): (r: (Run<Option<seq<Record>>>, seq<nat>))
    ensures |r.1| <= |replies| && !r.0.Raised?
    ensures r.0.Starved? ==> |r.1| == |replies|
    decreases |replies|
  {
    if replies == [] then (Starved, [])
    else match Step(st, replies[0], account)
      case Next(st') => var rest := Fetch(replies[1..], st', account); (rest.0, [st.offset] + rest.1)
      case Leave(st') => (Finished(Final(st'.products)), [st.offset])
      case Abort => (Finished(None), [st.offset])
  }

  const Initial := FunnelState(0, 0, [])

  /** The spec of get_funnel_v3 for one account and period. */
  function FunnelFetch(replies: seq<FunnelReply>, account: string): (Run<Option<seq<Record>>>, seq<nat>) {
    Fetch(replies, Initial, account)
  }

  /** The log of a loop that has already sent requests at `offsets`, continuing as `rest`. */
  function Then(offsets: seq<nat>, rest: (Run<Option<seq<Record>>>, seq<nat>)): (Run<Option<seq<Record>>>, seq<nat>) {
    (rest.0, offsets + rest.1)
  }

  /**
   * get_funnel_v3: the pagination loop over `offset`, with the retry counter
   * `attempt`. Returns the outcome and the `offset` of every request sent.
   */
  method GetFunnelV3(replies: seq<FunnelReply>, account: string)
    returns (result: Run<Option<seq<Record>>>, offsets: seq<nat>)
    ensures (result, offsets) == FunnelFetch(replies, account)
  {
    var productsList: seq<Record> := [];
    var offset: nat := 0;
    var attempt: nat := 0;
    offsets := [];
    var i := 0;
    assert replies[0..] == replies;
    assert [] + FunnelFetch(replies, account).1 == FunnelFetch(replies, account).1;
    while true
      invariant 0 <= i <= |replies| && |offsets| == i
      invariant offset == |productsList|
      invariant FunnelFetch(replies, account) == Then(offsets, Fetch(replies[i..], FunnelState(offset, attempt, productsList), account))
      decreases |replies| - i
    {
      if i == |replies| {
        assert offsets + [] == offsets;
        return Starved, offsets;
      }
      var st := FunnelState(offset, attempt, productsList);
      var reply := replies[i];
      assert replies[i..][1..] == replies[i + 1..];
      offsets := offsets + [offset];
      i := i + 1;
      match reply {
        case NetworkError =>
          attempt := attempt + 1;
          if attempt >= MaxAttempts { break; }
        case Reply(status, body) =>
          if status == 200 {
            var products := PageProducts(body);
            if products.Err? || !Truthy(products.value) { break; }
            var items := AsRecords(products.value);
            if items.Err? { break; }
            productsList := productsList + TagAll(items.value, "account", Str(account));
            if |items.value| < PageLimit { break; }
            offset := offset + |items.value|;
            attempt := 0;
          } else if status == 429 {
            attempt := attempt + 1;
            if attempt >= MaxAttempts { break; }
          } else if status == 400 || status == 401 || status == 403 {
            if body.Map? {
              assert Step(st, reply, account) == Abort;
              return Finished(None), offsets;
            }
            break;
          } else {
            attempt := attempt + 1;
            if attempt >= MaxAttempts { break; }
          }
      }
      assert Step(st, reply, account) == Next(FunnelState(offset, attempt, productsList));
      ThenAssoc(offsets[..i - 1], [st.offset], Fetch(replies[i..], FunnelState(offset, attempt, productsList), account));
      assert offsets == offsets[..i - 1] + [st.offset];
    }
    result := Finished(Final(productsList));
  }

  lemma ThenAssoc(a: seq<nat>, b: seq<nat>, r: (Run<Option<seq<Record>>>, seq<nat>))
    ensures Then(a, Then(b, r)) == Then(a + b, r)
  {
    assert a + (b + r.1) == (a + b) + r.1;
  }

  // ---------------------------------------------------------------------------
  // What the pagination loop promises
  // ---------------------------------------------------------------------------

  /** The tagged products a reply delivers: a 200 page of dicts, or nothing. */
  function PageItems(reply: FunnelReply, account: string): seq<Record> {
    if reply.Reply? && reply.status == 200 && PageProducts(reply.body).Ok?
       && Truthy(PageProducts(reply.body).value) && AsRecords(PageProducts(reply.body).value).Ok?
    then TagAll(AsRecords(PageProducts(reply.body).value).value, "account", Str(account))
    else []
  }

  /** Everything the replies deliver, in order. */
  function Delivered(replies: seq<FunnelReply>, account: string): seq<Record> {
    if replies == [] then [] else PageItems(replies[0], account) + Delivered(replies[1..], account)
  }

  /** A reply that makes get_funnel_v3 return None at once: 400, 401 or 403 with a JSON object. */
  predicate Aborts(reply: FunnelReply) {
    reply.Reply? && (reply.status == 400 || reply.status == 401 || reply.status == 403) && reply.body.Map?
  }

  /** A reply counted by `attempt`: 429, a status the loop does not expect, or a network error. */
  predicate CountedFailure(reply: FunnelReply) {
    reply.NetworkError? ||
    (reply.status != 200 && reply.status != 400 && reply.status != 401 && reply.status != 403)
  }

  /** A reply with status 200, whatever its body. */
  predicate Answered(reply: FunnelReply) {
    reply.Reply? && reply.status == 200
  }

  /**
   * One iteration appends exactly what the reply delivers; when it goes on,
   * `offset` grows by the same amount, and `attempt` restarts at 0 after a
   * page and grows by one after a counted failure.
   */
  lemma StepDelivers(st: FunnelState, reply: FunnelReply, account: string)
    ensures match Step(st, reply, account)
      case Next(st') =>
        && st'.products == st.products + PageItems(reply, account)
        && st'.offset == st.offset + |PageItems(reply, account)|
        && (if PageItems(reply, account) != [] then st'.attempt == 0 else CountedFailure(reply) && st'.attempt == st.attempt + 1)
      case Leave(st') => st'.products == st.products + PageItems(reply, account)
      case Abort => Aborts(reply)
  {
    assert [] + TagAll([], "account", Str(account)) == [];
    assert st.products + [] == st.products;
  }

  /**
   * After a 200 the loop asks for another page exactly when this one held
   * at least `PageLimit` products; otherwise it leaves.
   */
  lemma StepPageLimit(st: FunnelState, reply: FunnelReply, account: string)
    requires Answered(reply)
    ensures Step(st, reply, account).Next? <==> |PageItems(reply, account)| >= PageLimit
    ensures !Step(st, reply, account).Abort?
  {
  }

  lemma {:induction false} DeliveredAppend(a: seq<FunnelReply>, b: seq<FunnelReply>, account: string)
    ensures Delivered(a + b, account) == Delivered(a, account) + Delivered(b, account)
  {
    if a == [] {
      assert a + b == b;
    } else {
      assert (a + b)[1..] == a[1..] + b;
      DeliveredAppend(a[1..], b, account);
    }
  }

  /**
   * `offset` is the number of products collected: every request the loop
   * sends asks for the page that starts right after what it holds.
   */
  lemma {:induction false} FetchOffsets(replies: seq<FunnelReply>, st: FunnelState, account: string)
    requires st.offset == |st.products|
    ensures var log := Fetch(replies, st, account).1;
      forall k | 0 <= k < |log| :: log[k] == |st.products| + |Delivered(replies[..k], account)|
    decreases |replies|
  {
    if replies != [] {
      var log := Fetch(replies, st, account).1;
      StepDelivers(st, replies[0], account);
      assert replies[..0] == [];
      match Step(st, replies[0], account)
      case Next(st') =>
        FetchOffsets(replies[1..], st', account);
        var rest := Fetch(replies[1..], st', account).1;
        forall k | 0 < k < |log|
          ensures log[k] == |st.products| + |Delivered(replies[..k], account)|
        {
          assert log[k] == rest[k - 1];
          DeliveredCons(replies, k - 1, account);
        }
      case Leave(_) =>
      case Abort =>
    }
  }

  /**
   * The result of the loop from `st`, when it finishes: None right after an
   * auth error, however many pages came before it; otherwise every delivered
   * product in request order, or None when there is none.
   */
  ghost predicate ResultOfReplies(replies: seq<FunnelReply>, st: FunnelState, account: string) {
    var (run, log) := Fetch(replies, st, account);
    run.Finished? ==>
      && 0 < |log| <= |replies|
      && (if Aborts(replies[|log| - 1]) then run.value == None
          else run.value == Final(st.products + Delivered(replies[..|log|], account)))
  }

  lemma {:induction false} FetchResult(replies: seq<FunnelReply>, st: FunnelState, account: string)
    ensures ResultOfReplies(replies, st, account)
    decreases |replies|
  {
    if replies != [] {
      match Step(st, replies[0], account)
      case Next(st') =>
        FetchResult(replies[1..], st', account);
        ResultAfterNext(replies, st, st', account);
      case Leave(st') =>
        ResultAfterLeave(replies, st, st', account);
      case Abort =>
    }
  }

  /** A page that lets the loop go on: the result is that of the loop after it. */
  lemma ResultAfterNext(replies: seq<FunnelReply>, st: FunnelState, st': FunnelState, account: string)
    requires replies != [] && Step(st, replies[0], account) == Next(st')
    requires ResultOfReplies(replies[1..], st', account)
    ensures ResultOfReplies(replies, st, account)
  {
    var (run, log) := Fetch(replies, st, account);
    if run.Finished? {
      StepDelivers(st, replies[0], account);
      ResultAfterPage(replies, st.products, st'.products, account, run.value, |Fetch(replies[1..], st', account).1|);
    }
  }

  /** A reply that ends the loop: the result is what it collected. */
  lemma ResultAfterLeave(replies: seq<FunnelReply>, st: FunnelState, st': FunnelState, account: string)
    requires replies != [] && Step(st, replies[0], account) == Leave(st')
    ensures ResultOfReplies(replies, st, account)
  {
    StepDelivers(st, replies[0], account);
    assert replies[..1] == [replies[0]];
    assert Delivered([replies[0]], account) == PageItems(replies[0], account) by {
      assert [replies[0]][1..] == [];
    }
  }

  /**
   * The inductive step of FetchResult: what holds of the loop that goes on
   * after the first reply, with `k` requests sent, holds of the whole loop
   * with `k + 1`.
   */
  lemma ResultAfterPage(replies: seq<FunnelReply>, before: seq<Record>, after: seq<Record>, account: string,
                        value: Option<seq<Record>>, k: nat)
    requires 0 < k < |replies|
    requires after == before + PageItems(replies[0], account)
    requires if Aborts(replies[1..][k - 1]) then value == None
             else value == Final(after + Delivered(replies[1..][..k], account))
    ensures if Aborts(replies[k]) then value == None
            else value == Final(before + Delivered(replies[..k + 1], account))
  {
    assert replies[k] == replies[1..][k - 1];
    DeliveredCons(replies, k, account);
    AppendAssoc(before, PageItems(replies[0], account), Delivered(replies[1..][..k], account));
  }

  /** Delivered over the first `k + 1` replies: the first page, then the `k` after it. */
  lemma DeliveredCons(replies: seq<FunnelReply>, k: nat, account: string)
    requires k < |replies|
    ensures Delivered(replies[..k + 1], account)
         == PageItems(replies[0], account) + Delivered(replies[1..][..k], account)
  {
    var s := replies[..k + 1];
    assert s[0] == replies[0];
    assert s[1..] == replies[1..][..k];
  }

  /**
   * The loop pages on only through full pages: every 200 reply before the
   * last request (before any request, when the replies run out) delivered
   * at least `PageLimit` products, and a finished loop whose last reply was
   * a 200 ended on a page of fewer.
   */
  ghost predicate PagesOnlyWhileFull(replies: seq<FunnelReply>, st: FunnelState, account: string) {
    var (run, log) := Fetch(replies, st, account);
    && (forall k | 0 <= k < |log| - 1 && Answered(replies[k]) :: |PageItems(replies[k], account)| >= PageLimit)
    && (run.Starved? ==> forall k | 0 <= k < |log| && Answered(replies[k]) :: |PageItems(replies[k], account)| >= PageLimit)
    && (run.Finished? ==> 0 < |log| && (Answered(replies[|log| - 1]) ==> |PageItems(replies[|log| - 1], account)| < PageLimit))
  }

  lemma {:induction false} FetchStops(replies: seq<FunnelReply>, st: FunnelState, account: string)
    ensures PagesOnlyWhileFull(replies, st, account)
    decreases |replies|
  {
    if replies != [] {
      if Answered(replies[0]) {
        StepPageLimit(st, replies[0], account);
      }
      match Step(st, replies[0], account)
      case Next(st') =>
        FetchStops(replies[1..], st', account);
        StopsAfterNext(replies, st, st', account);
      case Leave(_) =>
      case Abort =>
    }
  }

  /** A reply that lets the loop go on: what holds of the loop after it holds of the whole loop. */
  lemma StopsAfterNext(replies: seq<FunnelReply>, st: FunnelState, st': FunnelState, account: string)
    requires replies != [] && Step(st, replies[0], account) == Next(st')
    requires Answered(replies[0]) ==> |PageItems(replies[0], account)| >= PageLimit
    requires PagesOnlyWhileFull(replies[1..], st', account)
    ensures PagesOnlyWhileFull(replies, st, account)
  {
    var (run, log) := Fetch(replies, st, account);
    forall k | 0 < k < |log|
      ensures replies[k] == replies[1..][k - 1]
    {
    }
  }

  /** Every product get_funnel_v3 returns carries the account. */
  lemma FunnelTagged(replies: seq<FunnelReply>, account: string)
    ensures var run := FunnelFetch(replies, account).0;
      run.Finished? && run.value.Some? ==> forall p | p in run.value.value :: "account" in p && p["account"] == Str(account)
  {
    var (run, log) := FunnelFetch(replies, account);
    FetchResult(replies, Initial, account);
    if run.Finished? && run.value.Some? {
      DeliveredTagged(replies[..|log|], account);
      assert [] + Delivered(replies[..|log|], account) == Delivered(replies[..|log|], account);
    }
  }

  lemma {:induction false} DeliveredTagged(replies: seq<FunnelReply>, account: string)
    ensures forall p | p in Delivered(replies, account) :: "account" in p && p["account"] == Str(account)
    decreases |replies|
  {
    if replies != [] {
      DeliveredTagged(replies[1..], account);
      var page := PageItems(replies[0], account);
      forall p | p in page
        ensures "account" in p && p["account"] == Str(account)
      {
        var i :| 0 <= i < |page| && page[i] == p;
      }
    }
  }

  /**
   * Counted failures in a row end the loop at the 30th, keeping the products
   * already collected: from `attempt` = a, after exactly 30 - a requests.
   */
  lemma {:induction false} FailuresLeave(replies: seq<FunnelReply>, st: FunnelState, account: string)
    requires st.attempt < MaxAttempts
    requires |replies| >= MaxAttempts - st.attempt
    requires forall i | 0 <= i < MaxAttempts - st.attempt :: CountedFailure(replies[i])
    ensures Fetch(replies, st, account).0 == Finished(Final(st.products))
    ensures |Fetch(replies, st, account).1| == MaxAttempts - st.attempt
    decreases MaxAttempts - st.attempt
  {
    assert CountedFailure(replies[0]);
    var st' := st.(attempt := st.attempt + 1);
    assert Step(st, replies[0], account) == Retry(st);
    if st'.attempt < MaxAttempts {
      FailuresLeave(replies[1..], st', account);
    }
  }

  // ---------------------------------------------------------------------------
  // process_funnel_daily: rows
  // ---------------------------------------------------------------------------

  /** `d.get(k)`: None when the key is missing, AttributeError on a non-dict. */
  function GetKey(d: Value, k: string): Result<Value> {
    Get(d, k, Null)
  }

  /** `t.get(k, 0)` when it is an int (or missing), in whole minutes, hours or days. */
  function IntOrZero(t: map<string, Value>, k: string): Option<int> {
    if k !in t then Some(0) else if t[k].Int? then Some(t[k].i) else None
  }

  /**
   * `days * 24 * 60 + hours * 60 + mins`, each read with `.get(k, 0)`, with
   * Python's operators: ints multiply, strings and lists repeat, and a
   * mismatch raises TypeError.
   */
  function TimeToReady(t: Value): (r: Result<Value>)
    ensures !t.Map? ==> r == Err(AttributeError)
  {
    var days :- Get(t, "days", Int(0));
    var perDay :- Mul(days, 24);
    var dayMinutes :- Mul(perDay, 60);
    var hours :- Get(t, "hours", Int(0));
    var hourMinutes :- Mul(hours, 60);
    var sum :- Add(dayMinutes, hourMinutes);
    var mins :- Get(t, "mins", Int(0));
    Add(sum, mins)
  }

  /** With int components, `time_to_ready` is the total in minutes, a missing component counting 0. */
  lemma TimeToReadyMinutes(t: map<string, Value>)
    requires IntOrZero(t, "days").Some? && IntOrZero(t, "hours").Some? && IntOrZero(t, "mins").Some?
    ensures TimeToReady(Map(t)) ==
      Ok(Int(IntOrZero(t, "days").value * 1440 + IntOrZero(t, "hours").value * 60 + IntOrZero(t, "mins").value))
  {
    var d, h, m := IntOrZero(t, "days").value, IntOrZero(t, "hours").value, IntOrZero(t, "mins").value;
    GetInt(t, "days");
    GetInt(t, "hours");
    GetInt(t, "mins");
    assert Mul(Int(d), 24) == Ok(Int(d * 24));
    assert Mul(Int(d * 24), 60) == Ok(Int(d * 1440));
    assert Mul(Int(h), 60) == Ok(Int(h * 60));
    assert Add(Int(d * 1440), Int(h * 60)) == Ok(Int(d * 1440 + h * 60));
    assert Add(Int(d * 1440 + h * 60), Int(m)) == Ok(Int(d * 1440 + h * 60 + m));
  }

  /** `t.get(k, 0)` of an int (or missing) component. */
  lemma GetInt(t: map<string, Value>, k: string)
    requires IntOrZero(t, k).Some?
    ensures Get(Map(t), k, Int(0)) == Ok(Int(IntOrZero(t, k).value))
  {
  }

  /** Columns read with `d.get(key)` from one dict: row column to source key. */
  const InfoColumns: map<string, string> := map[
    "nm_id" := "nmId", "vendor_code" := "vendorCode", "title" := "title", "subject_id" := "subjectId",
    "subject_name" := "subjectName", "brand_name" := "brandName", "product_rating" := "productRating",
    "feedback_rating" := "feedbackRating"]
  const StockColumns: map<string, string> := map["stocks_wb" := "wb", "stocks_mp" := "mp", "balance_sum" := "balanceSum"]
  const SelectedColumns: map<string, string> := map[
    "open_count" := "openCount", "cart_count" := "cartCount", "order_count" := "orderCount",
    "orders_sum" := "orderSum", "buyout_count" := "buyoutCount", "buyout_sum" := "buyoutSum",
    "cancel_count" := "cancelCount", "cancel_sum" := "cancelSum", "avg_price" := "avgPrice",
    "avg_orders_count_per_day" := "avgOrdersCountPerDay", "share_order_percent" := "shareOrderPercent",
    "add_to_wish_list" := "addToWishlist", "localization_percent" := "localizationPercent"]

  /**
   * `{col: d.get(key) for each column}`: every listed column holds the
   * source key's value or None; AttributeError on a non-dict.
   */
  function Pick(d: Value, cols: map<string, string>): (r: Result<Record>)
    ensures d.Map? <==> r.Ok?
    ensures r.Ok? ==> r.value.Keys == cols.Keys
    ensures r.Ok? ==> forall c | c in r.value :: c in cols && r.value[c] == GetOr(d.fields, cols[c], Null)
    ensures !d.Map? ==> r == Err(AttributeError)
  {
    if d.Map? then Ok(map c | c in cols :: GetOr(d.fields, cols[c], Null)) else Err(AttributeError)
  }

  /** The 27 columns of a funnel row. */
  function RowColumns(): set<string> {
    {"account"} + (InfoColumns.Keys + StockColumns.Keys) + (SelectedColumns.Keys + {"time_to_ready", "date"})
  }

  /** The columns read from the `product` section: its fields and its `stocks`. */
  function ProductColumns(info: Value): (r: Result<Record>)
    ensures r.Ok? ==> r.value.Keys == InfoColumns.Keys + StockColumns.Keys
  {
    var infoCols :- Pick(info, InfoColumns);
    var stocks :- Get(info, "stocks", Map(map[]));
    var stockCols :- Pick(stocks, StockColumns);
    Ok(infoCols + stockCols)
  }

  /** The columns read from `statistic.selected`: its metrics, `time_to_ready` and the period's end. */
  function SelectedColumnsOf(selected: Value, ttr: Value): (r: Result<Record>)
    ensures r.Ok? ==> r.value.Keys == SelectedColumns.Keys + {"time_to_ready", "date"}
  {
    var selectedCols :- Pick(selected, SelectedColumns);
    var minutes :- TimeToReady(ttr);
    var period :- Get(selected, "period", Map(map[]));
    var date :- GetKey(period, "end");
    Ok(selectedCols["time_to_ready" := minutes]["date" := date])
  }

  /**
   * The row built for one product. `product`, `statistic`, `selected`,
   * `timeToReady`, `stocks` and `period` default to `{}`, every other field to
   * None; reading through a non-dict raises AttributeError.
   */
  function FunnelRow(product: Record): (r: Result<Record>)
    ensures r.Ok? ==> "account" in r.value && r.value["account"] == GetOr(product, "account", Null)
  {
    var info := GetOr(product, "product", Map(map[]));
    var stat := GetOr(product, "statistic", Map(map[]));
    var selected :- Get(stat, "selected", Map(map[]));
    var ttr :- Get(selected, "timeToReady", Map(map[]));
    var productCols :- ProductColumns(info);
    var selectedCols :- SelectedColumnsOf(selected, ttr);
    Ok((productCols + selectedCols)["account" := GetOr(product, "account", Null)])
  }

  /** Each column of `cols` is in `row` and holds `d.get(key)` for its source key. */
  ghost predicate PicksFrom(row: Record, cols: map<string, string>, d: map<string, Value>) {
    forall c | c in cols :: c in row && row[c] == GetOr(d, cols[c], Null)
  }

  lemma PickPicks(d: Value, cols: map<string, string>)
    requires d.Map?
    ensures Pick(d, cols).Ok? && PicksFrom(Pick(d, cols).value, cols, d.fields)
  {
  }

  /** `(p + q)[k := v]` keeps the columns picked into `p` that `q` and `k` do not overwrite. */
  lemma PicksFromLeft(p: Record, q: Record, k: string, v: Value, cols: map<string, string>, d: map<string, Value>)
    requires PicksFrom(p, cols, d) && cols.Keys !! q.Keys && k !in cols
    ensures PicksFrom((p + q)[k := v], cols, d)
  {
  }

  /** `(p + q)[k := v]` keeps the columns picked into `q` that `k` does not overwrite. */
  lemma PicksFromRight(p: Record, q: Record, k: string, v: Value, cols: map<string, string>, d: map<string, Value>)
    requires PicksFrom(q, cols, d) && k !in cols
    ensures PicksFrom((p + q)[k := v], cols, d)
  {
  }

  lemma PicksFromSet(m: Record, k: string, v: Value, cols: map<string, string>, d: map<string, Value>)
    requires PicksFrom(m, cols, d) && k !in cols
    ensures PicksFrom(m[k := v], cols, d)
  {
  }

  lemma InfoStockApart()
    ensures InfoColumns.Keys !! StockColumns.Keys
  {
  }

  lemma InfoSelectedApart()
    ensures InfoColumns.Keys !! SelectedColumns.Keys
  {
  }

  lemma StockSelectedApart()
    ensures StockColumns.Keys !! SelectedColumns.Keys
  {
  }

  lemma AccountApart()
    ensures "account" !in InfoColumns && "account" !in StockColumns && "account" !in SelectedColumns
  {
  }

  /** The `product` columns are not among the `selected` columns of a row. */
  lemma ProductSelectedApart(q: Record)
    requires q.Keys == SelectedColumns.Keys + {"time_to_ready", "date"}
    ensures InfoColumns.Keys !! q.Keys && StockColumns.Keys !! q.Keys
  {
    InfoSelectedApart();
    StockSelectedApart();
    ExtrasApart();
  }

  lemma ExtrasApart()
    ensures "time_to_ready" !in SelectedColumns && "date" !in SelectedColumns
    ensures "time_to_ready" !in InfoColumns + StockColumns && "date" !in InfoColumns + StockColumns
  {
  }

  /**
   * The `product` section's columns: each info column holds `prod_info.get(key)`,
   * each stock column `prod_info.get('stocks', {}).get(key)`; AttributeError
   * exactly when `prod_info` or its `stocks` is not a dict.
   */
  lemma ProductColumnsValues(info: Value)
    ensures var r := ProductColumns(info);
      && (r.Ok? <==> info.Map? && GetOr(info.fields, "stocks", Map(map[])).Map?)
      && (!r.Ok? ==> r == Err(AttributeError))
      && (r.Ok? ==>
            && PicksFrom(r.value, InfoColumns, info.fields)
            && PicksFrom(r.value, StockColumns, GetOr(info.fields, "stocks", Map(map[])).fields))
  {
    if info.Map? {
      var stocks := GetOr(info.fields, "stocks", Map(map[]));
      assert Get(info, "stocks", Map(map[])) == Ok(stocks);
      if stocks.Map? {
        var p, q := Pick(info, InfoColumns).value, Pick(stocks, StockColumns).value;
        assert ProductColumns(info) == Ok(p + q);
        PickPicks(info, InfoColumns);
        PickPicks(stocks, StockColumns);
        InfoStockApart();
        assert PicksFrom(p + q, InfoColumns, info.fields);
      }
    }
  }

  /**
   * The `statistic.selected` columns: each metric holds `selected.get(key)`,
   * `time_to_ready` the minutes TimeToReady computes and `date` the period's
   * `end` or None; succeeds exactly when `selected` and its `period` are dicts
   * and TimeToReady succeeds.
   */
  lemma SelectedColumnsValues(selected: Value, ttr: Value)
    ensures var r := SelectedColumnsOf(selected, ttr);
      && (r.Ok? <==> selected.Map? && TimeToReady(ttr).Ok? && GetOr(selected.fields, "period", Map(map[])).Map?)
      && (r.Ok? ==>
            && PicksFrom(r.value, SelectedColumns, selected.fields)
            && r.value["time_to_ready"] == TimeToReady(ttr).value
            && r.value["date"] == GetOr(GetOr(selected.fields, "period", Map(map[])).fields, "end", Null))
  {
    if selected.Map? && TimeToReady(ttr).Ok? {
      var period := GetOr(selected.fields, "period", Map(map[]));
      assert Get(selected, "period", Map(map[])) == Ok(period);
      if period.Map? {
        var picked := Pick(selected, SelectedColumns).value;
        var minutes := TimeToReady(ttr).value;
        var date := GetOr(period.fields, "end", Null);
        assert GetKey(period, "end") == Ok(date);
        assert SelectedColumnsOf(selected, ttr) == Ok(picked["time_to_ready" := minutes]["date" := date]);
        PickPicks(selected, SelectedColumns);
        ExtrasApart();
        PicksFromSet(picked, "time_to_ready", minutes, SelectedColumns, selected.fields);
        PicksFromSet(picked["time_to_ready" := minutes], "date", date, SelectedColumns, selected.fields);
      }
    }
  }

  /**
   * The sections a row is read from: `product`, `statistic.selected` and
   * `selected.timeToReady`, each defaulting to `{}`; None when `statistic` or
   * `selected` is not a dict, so that `.get` on it raises AttributeError.
   */
  function Sections(product: Record): Option<(Value, Value, Value)> {
    var stat := GetOr(product, "statistic", Map(map[]));
    if !stat.Map? then None
    else
      var selected := GetOr(stat.fields, "selected", Map(map[]));
      if !selected.Map? then None
      else Some((GetOr(product, "product", Map(map[])), selected, GetOr(selected.fields, "timeToReady", Map(map[]))))
  }

  /** The row is the `product` columns and the `selected` columns, with `account` set. */
  lemma FunnelRowParts(product: Record)
    ensures var r := FunnelRow(product);
      && (r.Ok? <==> Sections(product).Some?
                     && ProductColumns(Sections(product).value.0).Ok?
                     && SelectedColumnsOf(Sections(product).value.1, Sections(product).value.2).Ok?)
      && (r.Ok? ==>
            var (info, selected, ttr) := Sections(product).value;
            r.value == (ProductColumns(info).value + SelectedColumnsOf(selected, ttr).value)
                         ["account" := GetOr(product, "account", Null)])
  {
    var stat := GetOr(product, "statistic", Map(map[]));
    if stat.Map? {
      var selected := GetOr(stat.fields, "selected", Map(map[]));
      assert Get(stat, "selected", Map(map[])) == Ok(selected);
      if selected.Map? {
        var ttr := GetOr(selected.fields, "timeToReady", Map(map[]));
        assert Get(selected, "timeToReady", Map(map[])) == Ok(ttr);
      }
    }
  }

  /**
   * The values of a row: `account` from the product, the info and stock
   * columns from its `product` section, the metrics, `time_to_ready` and
   * `date` from `statistic.selected`. Given the sections, a row is built
   * exactly when `product` and its `stocks` and `selected.period` are dicts
   * and TimeToReady succeeds.
   */
  lemma FunnelRowValues(product: Record, info: Value, selected: Value, ttr: Value)
    requires Sections(product) == Some((info, selected, ttr))
    ensures var r := FunnelRow(product);
      && (r.Ok? <==> info.Map? && GetOr(info.fields, "stocks", Map(map[])).Map?
                     && TimeToReady(ttr).Ok? && GetOr(selected.fields, "period", Map(map[])).Map?)
      && (r.Ok? ==>
            && "account" in r.value && r.value["account"] == GetOr(product, "account", Null)
            && PicksFrom(r.value, InfoColumns, info.fields)
            && PicksFrom(r.value, StockColumns, GetOr(info.fields, "stocks", Map(map[])).fields)
            && PicksFrom(r.value, SelectedColumns, selected.fields)
            && "time_to_ready" in r.value && r.value["time_to_ready"] == TimeToReady(ttr).value
            && "date" in r.value && r.value["date"] == GetOr(GetOr(selected.fields, "period", Map(map[])).fields, "end", Null))
  {
    FunnelRowParts(product);
    ProductColumnsValues(info);
    SelectedColumnsValues(selected, ttr);
    if FunnelRow(product).Ok? {
      AccountApart();
      ProductSelectedApart(SelectedColumnsOf(selected, ttr).value);
      AssembledRow(ProductColumns(info).value, SelectedColumnsOf(selected, ttr).value, GetOr(product, "account", Null),
                   InfoColumns, StockColumns, SelectedColumns, info.fields, GetOr(info.fields, "stocks", Map(map[])).fields,
                   selected.fields);
    }
  }

  /** A `statistic` or `selected` section that is not a dict raises AttributeError. */
  lemma SectionsNotDicts(product: Record)
    requires Sections(product).None?
    ensures FunnelRow(product) == Err(AttributeError)
  {
    FunnelRowParts(product);
  }

  /** `(p + q)[account := a]` keeps what `p` and `q` picked and `q`'s `time_to_ready` and `date`. */
  lemma AssembledRow(p: Record, q: Record, a: Value, infoCols: map<string, string>, stockCols: map<string, string>,
                     selectedCols: map<string, string>, info: map<string, Value>, stocks: map<string, Value>,
                     selected: map<string, Value>)
    requires PicksFrom(p, infoCols, info) && PicksFrom(p, stockCols, stocks) && PicksFrom(q, selectedCols, selected)
    requires infoCols.Keys !! q.Keys && stockCols.Keys !! q.Keys
    requires "account" !in infoCols && "account" !in stockCols && "account" !in selectedCols
    requires "time_to_ready" in q && "date" in q
    ensures var row := (p + q)["account" := a];
      && "account" in row && row["account"] == a
      && PicksFrom(row, infoCols, info) && PicksFrom(row, stockCols, stocks) && PicksFrom(row, selectedCols, selected)
      && "time_to_ready" in row && row["time_to_ready"] == q["time_to_ready"]
      && "date" in row && row["date"] == q["date"]
  {
    PicksFromLeft(p, q, "account", a, infoCols, info);
    PicksFromLeft(p, q, "account", a, stockCols, stocks);
    PicksFromRight(p, q, "account", a, selectedCols, selected);
  }

  /**
   * A product whose `statistic` has no `selected` section gets None in every
   * metric column and in `date`, and `time_to_ready` 0; its `product` columns
   * are read as usual.
   */
  lemma MissingSelectedGivesNone(product: Record)
    requires "statistic" in product && product["statistic"].Map? && "selected" !in product["statistic"].fields
    ensures var r := FunnelRow(product);
      && (r.Ok? <==> ProductColumns(GetOr(product, "product", Map(map[]))).Ok?)
      && (r.Ok? ==>
            && (forall c | c in SelectedColumns :: c in r.value && r.value[c] == Null)
            && r.value["time_to_ready"] == Int(0)
            && r.value["date"] == Null)
  {
    FunnelRowValues(product, GetOr(product, "product", Map(map[])), Map(map[]), Map(map[]));
    TimeToReadyMinutes(map[]);
    SelectedColumnsValues(Map(map[]), Map(map[]));
  }

  /**
   * With int (or missing) `days`, `hours` and `mins` under
   * `statistic.selected.timeToReady`, the row's `time_to_ready` is their total
   * in minutes.
   */
  lemma RowTimeToReady(product: Record, t: map<string, Value>)
    requires "statistic" in product && product["statistic"].Map?
    requires "selected" in product["statistic"].fields && product["statistic"].fields["selected"].Map?
    requires "timeToReady" in product["statistic"].fields["selected"].fields
    requires product["statistic"].fields["selected"].fields["timeToReady"] == Map(t)
    requires IntOrZero(t, "days").Some? && IntOrZero(t, "hours").Some? && IntOrZero(t, "mins").Some?
    ensures var r := FunnelRow(product);
      r.Ok? ==> "time_to_ready" in r.value && r.value["time_to_ready"] ==
                Int(IntOrZero(t, "days").value * 1440 + IntOrZero(t, "hours").value * 60 + IntOrZero(t, "mins").value)
  {
    FunnelRowValues(product, GetOr(product, "product", Map(map[])), product["statistic"].fields["selected"], Map(t));
    TimeToReadyMinutes(t);
  }

  /** Every row has exactly the 27 columns. */
  lemma RowShape(product: Record)
    ensures var r := FunnelRow(product); r.Ok? ==> r.value.Keys == RowColumns()
  {
    var r := FunnelRow(product);
    if r.Ok? {
      var info := GetOr(product, "product", Map(map[]));
      var stat := GetOr(product, "statistic", Map(map[]));
      var selected := Get(stat, "selected", Map(map[])).value;
      var ttr := Get(selected, "timeToReady", Map(map[])).value;
      var p := ProductColumns(info).value;
      var q := SelectedColumnsOf(selected, ttr).value;
      assert r.value == (p + q)["account" := GetOr(product, "account", Null)];
      UpdatedUnionKeys(p, q, "account", GetOr(product, "account", Null));
    }
  }

  /**
   * A product without `product` and `statistic` sections still gives a row:
   * every field None except the account, and `time_to_ready` 0.
   */
  lemma MissingSectionsGiveNone(product: Record)
    requires "product" !in product && "statistic" !in product
    ensures var r := FunnelRow(product);
      && r.Ok?
      && "time_to_ready" in r.value && r.value["time_to_ready"] == Int(0)
      && forall k | k in r.value && k != "account" && k != "time_to_ready" :: r.value[k] == Null
  {
    var empty := Map(map[]);
    EmptyProductSection();
    EmptySelectedSection();
    var p, q := ProductColumns(empty).value, SelectedColumnsOf(empty, empty).value;
    RowOfEmptySections(product);
    UpdatedUnionValues(p, q, "account", GetOr(product, "account", Null), "time_to_ready", Null, FunnelRow(product).value);
  }

  /** Without `product` and `statistic` sections, the row is built from two empty dicts. */
  lemma RowOfEmptySections(product: Record)
    requires "product" !in product && "statistic" !in product
    requires ProductColumns(Map(map[])).Ok? && SelectedColumnsOf(Map(map[]), Map(map[])).Ok?
    ensures FunnelRow(product) == Ok((ProductColumns(Map(map[])).value + SelectedColumnsOf(Map(map[]), Map(map[])).value)
                                      ["account" := GetOr(product, "account", Null)])
  {
    var empty := Map(map[]);
    assert GetOr(product, "product", empty) == empty && GetOr(product, "statistic", empty) == empty;
    assert Get(empty, "selected", empty) == Ok(empty) && Get(empty, "timeToReady", empty) == Ok(empty);
  }

  lemma UpdatedUnionKeys<K, V>(p: map<K, V>, q: map<K, V>, k: K, v: V)
    ensures ((p + q)[k := v]).Keys == {k} + p.Keys + q.Keys
  {
  }

  /** In `(p + q)[k := v]`, every key but `k` and `t` holds `none` when it does in `p` and `q`. */
  lemma UpdatedUnionValues<K, V>(p: map<K, V>, q: map<K, V>, k: K, v: V, t: K, none: V, m: map<K, V>)
    requires m == (p + q)[k := v]
    requires forall x | x in p :: p[x] == none
    requires forall x | x in q && x != t :: q[x] == none
    ensures forall x | x in m && x != k && x != t :: m[x] == none
    ensures t in q && t != k ==> t in m && m[t] == q[t]
  {
  }

  lemma EmptyProductSection()
    ensures var p := ProductColumns(Map(map[])); p.Ok? && forall k | k in p.value :: p.value[k] == Null
  {
    var empty := Map(map[]);
    EmptyPick(InfoColumns);
    EmptyPick(StockColumns);
    assert ProductColumns(empty) == Ok(Pick(empty, InfoColumns).value + Pick(empty, StockColumns).value);
  }

  lemma EmptySelectedSection()
    ensures var q := SelectedColumnsOf(Map(map[]), Map(map[]));
      && q.Ok? && q.value["time_to_ready"] == Int(0)
      && forall k | k in q.value && k != "time_to_ready" :: q.value[k] == Null
  {
    var empty := Map(map[]);
    EmptyPick(SelectedColumns);
    var picked := Pick(empty, SelectedColumns).value;
    assert SelectedColumnsOf(empty, empty) == Ok(picked["time_to_ready" := Int(0)]["date" := Null]);
    UpdatedTwiceValues(picked, "time_to_ready", Int(0), "date", Null, SelectedColumnsOf(empty, empty).value);
  }

  /** Picking columns from an empty dict gives None in every column. */
  lemma EmptyPick(cols: map<string, string>)
    ensures var p := Pick(Map(map[]), cols); p.Ok? && forall k | k in p.value :: p.value[k] == Null
  {
  }

  /** In `m[t := v][d := none]`, every key but `t` holds `none` when it does in `m`. */
  lemma UpdatedTwiceValues<K, V>(m: map<K, V>, t: K, v: V, d: K, none: V, r: map<K, V>)
    requires r == m[t := v][d := none]
    requires t != d
    requires forall x | x in m :: m[x] == none
    ensures t in r && r[t] == v
    ensures forall x | x in r && x != t :: r[x] == none
  {
  }

  /** One row per product, in order, each carrying its product's account. */
  lemma RowsPerProduct(products: seq<Record>)
    ensures var r := MapAll(FunnelRow, products);
      r.Ok? ==> |r.value| == |products| && forall i | 0 <= i < |products| ::
        "account" in r.value[i] && r.value[i]["account"] == GetOr(products[i], "account", Null)
  {
    MapAllEach(FunnelRow, products);
  }

  // ---------------------------------------------------------------------------
  // process_funnel_daily: fetching and batching
  // ---------------------------------------------------------------------------

  /**
   * get_funnel_v3 for one account and day (the day only goes into the
   * request's payload): its outcome and the number of replies it read.
   */
  function AccountFetch(day: Date, account: string, replies: seq<FunnelReply>): (Run<Option<seq<Record>>>, nat) {
    var (run, log) := FunnelFetch(replies, account);
    (run, |log|)
  }

  /**
   * `fetch_all` for one day: get_funnel_v3 for every account in turn, each
   * reading the replies the previous ones left. Also the number of replies
   * read.
   */
  function FetchAll(accounts: seq<string>, day: Date, replies: seq<FunnelReply>): (Run<seq<Option<seq<Record>>>>, nat) {
    RunAll(AccountFetch, day, accounts, replies)
  }

  /** The `asyncio.gather` of one batch: `fetch_all` for every day of the batch in turn. */
  function FetchBatch(days: seq<Date>, accounts: seq<string>, replies: seq<FunnelReply>)
    : (Run<seq<seq<Option<seq<Record>>>>>, nat)
  {
    RunAll(FetchAll, accounts, days, replies)
  }

  /** The products of one day's results: every account's list that is not None, in account order. */
  function CollectDay(result: seq<Option<seq<Record>>>): seq<Record> {
    if result == [] then []
    else
      var last := result[|result| - 1];
      CollectDay(result[..|result| - 1]) + (if last.Some? then last.value else [])
  }

  /** `all_products` of a batch: the products of every day, in day order. */
  function Collect(results: seq<seq<Option<seq<Record>>>>): seq<Record> {
    if results == [] then [] else Collect(results[..|results| - 1]) + CollectDay(results[|results| - 1])
  }

  /** A row-building outcome as the outcome of the whole job. */
  function RowsRun(rows: Result<seq<Record>>): (r: Run<seq<Record>>)
    ensures r.Finished? <==> rows.Ok?
    ensures rows.Ok? ==> r.value == rows.value
    ensures rows.Err? ==> r == Raised(rows.error)
  {
    if rows.Ok? then Finished(rows.value) else Raised(rows.error)
  }

  /** A fetcher of one day for every account, as `fetch_all` is: its outcome and the replies it read. */
  type DayFetch = (seq<string>, Date, seq<FunnelReply>) -> (Run<seq<Option<seq<Record>>>>, nat)

  /** One row per product of all the results of a batch, made by `row`. */
  function BatchRows(row: Record -> Result<Record>): seq<seq<Option<seq<Record>>>> -> Result<seq<Record>> {
    results => MapAll(row, Collect(results))
  }

  /**
   * One iteration of the batch loop of process_funnel_daily, as a group job:
   * `fetch` for every day of the batch, then the rows of all the results.
   */
  function BatchJob(fetch: DayFetch, row: Record -> Result<Record>, accounts: seq<string>)
    : GroupJob<seq<string>, Date, seq<Option<seq<Record>>>, FunnelReply, Record>
  {
    GroupJob(fetch, accounts, BatchRows(row))
  }

  /**
   * process_funnel_daily over `days` (yesterday, the day before, ...): the
   * frames of the batches of 28 days, concatenated; `pd.concat` of no frames
   * raises ValueError.
   */
  function ProcessFunnelDailySpec(days: seq<Date>, accounts: seq<string>, replies: seq<FunnelReply>)
    : (r: (Run<seq<Record>>, nat))
  {
    var batches := Batchify(days, DateBatchSize);
    var (frames, used) := RunAll(Grouped, BatchJob(FetchAll, FunnelRow, accounts), batches, replies);
    if batches == [] then (Raised(ValueError), 0)
    else if frames.Finished? then (Finished(Flatten(frames.value)), used)
    else (Stop(frames), used)
  }

  /** The nested loop that builds `all_products`, skipping the accounts that returned None. */
  method CollectProducts(results: seq<seq<Option<seq<Record>>>>) returns (products: seq<Record>)
    ensures products == Collect(results)
  {
    products := [];
    for i := 0 to |results|
      invariant products == Collect(results[..i])
    {
      assert results[..i + 1][..i] == results[..i];
      var before := products;
      var result := results[i];
      for j := 0 to |result|
        invariant products == before + CollectDay(result[..j])
      {
        assert result[..j + 1][..j] == result[..j];
        var accData := result[j];
        if accData.Some? {
          products := products + accData.value;
        }
      }
      assert result[..|result|] == result;
    }
    assert results[..|results|] == results;
  }

  /**
   * The body of the batch loop: gather `fetch` over the days of the batch,
   * collect, build the rows. The loop is proved for any day fetcher;
   * process_funnel_daily passes FetchAll.
   */
  method ProcessBatch(fetch: DayFetch, row: Record -> Result<Record>, batch: seq<Date>, accounts: seq<string>,
                      replies: seq<FunnelReply>)
    returns (frame: Run<seq<Record>>, used: nat)
    ensures (frame, used) == Grouped(BatchJob(fetch, row, accounts), batch, replies)
  {
    var (fetched, n) := RunAll(fetch, accounts, batch, replies);
    used := n;
    if !fetched.Finished? {
      return Stop(fetched), used;
    }
    var products := CollectProducts(fetched.value);
    var rows := MapAllLoop(row, products);
    frame := RowsRun(rows);
  }

  /**
   * One iteration of the batch loop, after `b` batches have given `frames`
   * from `used` replies: the next batch's frame is appended to `list_dfs`,
   * or the loop ends.
   */
  method NextBatch(fetch: DayFetch, row: Record -> Result<Record>, batches: seq<seq<Date>>, accounts: seq<string>, replies: seq<FunnelReply>,
                   b: nat, frames: seq<seq<Record>>, used: nat)
    returns (frame: Run<seq<Record>>, n: nat)
    requires b < |batches|
    requires RunAll(Grouped, BatchJob(fetch, row, accounts), batches[..b], replies) == (Finished(frames), used)
    ensures frame.Finished? ==> RunAll(Grouped, BatchJob(fetch, row, accounts), batches[..b + 1], replies) == (Finished(frames + [frame.value]), used + n)
    ensures !frame.Finished? ==> RunAll(Grouped, BatchJob(fetch, row, accounts), batches, replies) == (Stop(frame), used + n)
  {
    frame, n := ProcessBatch(fetch, row, batches[b], accounts, Drop(replies, used));
    RunAllNext(Grouped, BatchJob(fetch, row, accounts), batches, replies, b, frames, used, frame, n);
  }

  /** The batch loop: `list_dfs`, one frame per batch. */
  method RunBatches(fetch: DayFetch, row: Record -> Result<Record>, batches: seq<seq<Date>>, accounts: seq<string>, replies: seq<FunnelReply>)
    returns (result: Run<seq<seq<Record>>>, used: nat)
    ensures (result, used) == RunAll(Grouped, BatchJob(fetch, row, accounts), batches, replies)
  {
    var frames: seq<seq<Record>> := [];
    used := 0;
    for b := 0 to |batches|
      invariant RunAll(Grouped, BatchJob(fetch, row, accounts), batches[..b], replies) == (Finished(frames), used)
    {
      var frame, n := NextBatch(fetch, row, batches, accounts, replies, b, frames, used);
      if !frame.Finished? {
        return Stop(frame), used + n;
      }
      frames := frames + [frame.value];
      used := used + n;
    }
    assert batches[..|batches|] == batches;
    result := Finished(frames);
  }

  /** process_funnel_daily: the batch loop, then `pd.concat` of the frames. */
  method ProcessFunnelDaily(days: seq<Date>, accounts: seq<string>, replies: seq<FunnelReply>)
    returns (result: Run<seq<Record>>, used: nat)
    ensures (result, used) == ProcessFunnelDailySpec(days, accounts, replies)
  {
    var batches := Batchify(days, DateBatchSize);
    var frames;
    frames, used := RunBatches(FetchAll, FunnelRow, batches, accounts, replies);
    if batches == [] {
      result, used := Raised(ValueError), 0;
    } else if frames.Finished? {
      result := Finished(Flatten(frames.value));
    } else {
      result := Stop(frames);
    }
  }

  // ---------------------------------------------------------------------------
  // What the batching promises
  // ---------------------------------------------------------------------------

  lemma {:induction false} CollectAppend(a: seq<seq<Option<seq<Record>>>>, b: seq<seq<Option<seq<Record>>>>)
    ensures Collect(a + b) == Collect(a) + Collect(b)
    decreases |b|
  {
    if b == [] {
      assert a + b == a;
    } else {
      var b' := b[..|b| - 1];
      assert (a + b)[..|a + b| - 1] == a + b';
      var day := b[|b| - 1];
      assert (a + b)[|a + b| - 1] == day;
      CollectAppend(a, b');
      assert Collect(a + b) == Collect(a + b') + CollectDay(day);
      assert Collect(b) == Collect(b') + CollectDay(day);
      assert Collect(a) + Collect(b') + CollectDay(day) == Collect(a) + (Collect(b') + CollectDay(day));
    }
  }

  /** Building the rows of the products of two lists of results is building each, concatenated. */
  lemma RowsSplit(row: Record -> Result<Record>)
    ensures Splits(BatchRows(row))
  {
    var post := BatchRows(row);
    forall a, b
      ensures post(a + b) == (var u :- post(a); var v :- post(b); Ok(u + v))
    {
      CollectAppend(a, b);
      MapAllAppend(row, Collect(a), Collect(b));
    }
  }

  /**
   * process_funnel_daily over some days, when every fetch finishes: the rows
   * of every product of every (day, account) pair, in that order, or the
   * first exception a row raises. Over no days it raises ValueError.
   */
  lemma ProcessFunnelDailyRows(days: seq<Date>, accounts: seq<string>, replies: seq<FunnelReply>)
    ensures days == [] ==> ProcessFunnelDailySpec(days, accounts, replies) == (Raised(ValueError), 0)
    ensures var (fetched, n) := FetchBatch(days, accounts, replies);
      days != [] && fetched.Finished? ==>
        ProcessFunnelDailySpec(days, accounts, replies).0 == RowsRun(MapAll(FunnelRow, Collect(fetched.value)))
  {
    BatchifyCount(days, DateBatchSize);
    BatchifyFlatten(days, DateBatchSize);
    RowsSplit(FunnelRow);
    GroupingInvisible(BatchJob(FetchAll, FunnelRow, accounts), Batchify(days, DateBatchSize), replies);
  }
}
