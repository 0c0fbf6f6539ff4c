/**
 * The advertising-spend job (src/advert_spend/utils_adv_spend.py): for every
 * day and every account, one spend query with a retry loop on HTTP errors;
 * the rows of each answer are tagged with the account and keep `updTime`
 * only when it is the queried day; then all the frames are concatenated and
 * reduced to ten columns, with a `sku` cut from the campaign name.
 *
 * A DataFrame is a sequence of rows. A row holds the columns it has a value
 * for; a column the frame has but a row lacks reads as NaN (`Null`), and the
 * frame has a column when some row has it.
 */
module AdvSpend {
  import opened PyJson
  import opened Script
  import opened Batching

  const SpendMaxRetries := 5
  const SkuLength := 9

  /** The columns of the final frame, in order. */
  const SpendColumns: seq<string> :=
    ["updTime", "campName", "paymentType", "updNum", "updSum", "advertId", "advertType", "advertStatus", "sku", "account"]

  /** A reply of the spend endpoint. */
  datatype SpendReply =
    | Reply(status: int, body: Value)  // body: the decoded JSON
    | NetworkError                     // requests.get itself raised; any such exception is reported as ConnectionError

  /** `raise_for_status` raises HTTPError for the 4xx and 5xx statuses. */
  predicate HttpError(status: int) { 400 <= status < 600 }

  /** A reply the retry loop counts and retries. */
  predicate Retried(r: SpendReply) { r.Reply? && HttpError(r.status) }

  // ---------------------------------------------------------------------------
  // Dates
  // ---------------------------------------------------------------------------

  predicate IsDigit(c: char) { '0' <= c <= '9' }

  /** A string read as an ISO 8601 timestamp: `YYYY-MM-DD`, alone or followed by a time part. */
  predicate IsoText(s: string) {
    && |s| >= 10
    && IsDigit(s[0]) && IsDigit(s[1]) && IsDigit(s[2]) && IsDigit(s[3]) && s[4] == '-'
    && IsDigit(s[5]) && IsDigit(s[6]) && s[7] == '-' && IsDigit(s[8]) && IsDigit(s[9])
    && (|s| == 10 || s[10] == 'T' || s[10] == ' ')
  }

  /**
   * `pd.to_datetime(..., format='ISO8601').dt.date.astype(str)` on one cell:
   * the date part of a timestamp, "NaT" for NaN, ValueError for anything else.
   */
  function DateText(v: Value): Result<Value> {
    match v
    case Null => Ok(Str("NaT"))
    case Str(s) => if IsoText(s) then Ok(Str(s[..10])) else Err(ValueError)
    case _ => Err(ValueError)
  }

  /** Reading a date the conversion printed gives it back. */
  lemma DateTextIdempotent(v: Value)
    requires v != Null && DateText(v).Ok?
    ensures DateText(DateText(v).value) == DateText(v)
  {
    var t := v.s[..10];
    assert forall i | 0 <= i < 10 :: t[i] == v.s[i];
    assert IsoText(t) && t[..10] == t;
  }

  // ---------------------------------------------------------------------------
  // get_adv_spend
  // ---------------------------------------------------------------------------

  /** Some row has column `k`: the frame then has the column. */
  predicate HasColumn(rows: seq<Record>, k: string) {
    exists i | 0 <= i < |rows| :: k in rows[i]
  }

  /**
   * `pd.DataFrame(res.json())`: a list of objects gives one row per object;
   * any other body raises ValueError.
   */
  function Frame(body: Value): (r: Result<seq<Record>>)
    ensures r.Ok? ==> body.List? && |r.value| == |body.items|
    ensures r.Ok? ==> forall i | 0 <= i < |body.items| :: body.items[i] == Map(r.value[i])
  {
    if !body.List? then Err(ValueError)
    else
      var rows := FieldsOf(body.items);
      if rows.Ok? then rows else Err(ValueError)
  }

  /**
   * `results['account'] = account`, then `updTime` as a date, kept only where
   * it equals `date_from`: the `.loc` keeps the matching rows and the
   * assignment realigns the others to NaN.
   */
  function TagRow(account: string, dateFrom: Date, row: Record): Result<Record> {
    var day :- DateText(GetOr(row, "updTime", Null));
    Ok(row["account" := Str(account)]["updTime" := if day == Str(dateFrom) then day else Null])
  }

  /** The `try` block after a successful status: the frame, tagged and filtered by date. */
  function SpendRows(body: Value, account: string, dateFrom: Date): Result<seq<Record>> {
    var rows :- Frame(body);
    if !HasColumn(rows, "updTime") then Err(KeyError)
    else MapAll((row: Record) => TagRow(account, dateFrom, row), rows)
  }

  /**
   * The `while not task_completed and retry_count < max_retries` loop,
   * entered after `retries` HTTP errors: its outcome (the frame, or None once
   * the retries are used up) and how many replies it read.
   */
  function SpendLoop(replies: seq<SpendReply>, retries: nat, account: string, dateFrom: Date)
    : (r: (Run<Option<seq<Record>>>, nat))
    ensures r.1 <= |replies|
    decreases |replies|
  {
    if retries >= SpendMaxRetries then (Finished(None), 0)
    else if replies == [] then (Starved, 0)
    else match replies[0]
      case NetworkError => (Raised(ConnectionError), 1)
      case Reply(status, body) =>
        if HttpError(status) then
          var r := SpendLoop(replies[1..], retries + 1, account, dateFrom);
          (r.0, r.1 + 1)
        else match SpendRows(body, account, dateFrom)
          case Ok(rows) => (Finished(Some(rows)), 1)
          case Err(e) => (Raised(e), 1)
  }

  /** The spec of get_adv_spend for one account and one day. */
  function Spend(account: string, dateFrom: Date, replies: seq<SpendReply>): (Run<Option<seq<Record>>>, nat) {
    SpendLoop(replies, 0, account, dateFrom)
  }

  function Shifted(r: (Run<Option<seq<Record>>>, nat), k: nat): (Run<Option<seq<Record>>>, nat) {
    (r.0, r.1 + k)
  }

  /**
   * get_adv_spend: retry on HTTP errors, at most five times; a request that
   * raises escapes the loop. Returns the outcome and the replies read.
   */
  method GetAdvSpend(account: string, dateFrom: Date, replies: seq<SpendReply>)
    returns (result: Run<Option<seq<Record>>>, used: nat)
    ensures (result, used) == Spend(account, dateFrom, replies)
  {
    var taskCompleted := false;
    var results: seq<Record> := [];
    var retryCount := 0;
    used := 0;
    assert replies[0..] == replies;
    while !taskCompleted && retryCount < SpendMaxRetries
      invariant used <= |replies| && retryCount <= SpendMaxRetries
      invariant !taskCompleted ==>
        Spend(account, dateFrom, replies) == Shifted(SpendLoop(replies[used..], retryCount, account, dateFrom), used)
      invariant taskCompleted ==> Spend(account, dateFrom, replies) == (Finished(Some(results)), used)
      decreases |replies| - used
    {
      if used == |replies| {
        return Starved, used;
      }
      var res := replies[used];
      assert replies[used..][1..] == replies[used + 1..];
      used := used + 1;
      match res {
        case NetworkError =>
          return Raised(ConnectionError), used;
        case Reply(status, body) =>
          if HttpError(status) {
            retryCount := retryCount + 1;
          } else {
            var rows := SpendRows(body, account, dateFrom);
            if rows.Err? {
              return Raised(rows.error), used;
            }
            results := rows.value;
            taskCompleted := true;
          }
      }
    }
    if taskCompleted {
      result := Finished(Some(results));
    } else {
      result := Finished(None);
    }
  }

  // ---------------------------------------------------------------------------
  // What get_adv_spend promises
  // ---------------------------------------------------------------------------

  /**
   * The retry loop entered after `k` HTTP errors reads at most 5 - k replies,
   * every one of them but the last an HTTP error; it returns None exactly
   * when the next 5 - k replies are all HTTP errors, returns the frame of its
   * first successful reply, and raises what that reply's processing raised
   * or, on a request that raised, ConnectionError.
   */
  lemma {:induction false} SpendEnds(replies: seq<SpendReply>, k: nat, account: string, dateFrom: Date)
    requires k <= SpendMaxRetries
    ensures var (run, n) := SpendLoop(replies, k, account, dateFrom);
      && n <= SpendMaxRetries - k
      && (run == Finished(None) <==>
            |replies| >= SpendMaxRetries - k && forall i | 0 <= i < SpendMaxRetries - k :: Retried(replies[i]))
      && (run == Finished(None) ==> n == SpendMaxRetries - k)
      && (run.Starved? ==> n == |replies| && forall i | 0 <= i < n :: Retried(replies[i]))
      && ((run.Finished? && run.value.Some?) || run.Raised? ==>
            && 0 < n
            && (forall i | 0 <= i < n - 1 :: Retried(replies[i]))
            && !Retried(replies[n - 1]))
      && (run.Finished? && run.value.Some? ==>
            replies[n - 1].Reply? && SpendRows(replies[n - 1].body, account, dateFrom) == Ok(run.value.value))
      && (run.Raised? ==>
            if replies[n - 1].NetworkError? then run.error == ConnectionError
            else SpendRows(replies[n - 1].body, account, dateFrom) == Err(run.error))
    decreases |replies|
  {
    var (run, n) := SpendLoop(replies, k, account, dateFrom);
    if k < SpendMaxRetries && replies != [] && Retried(replies[0]) {
      SpendEnds(replies[1..], k + 1, account, dateFrom);
      assert SpendLoop(replies[1..], k + 1, account, dateFrom) == (run, n - 1);
      forall i | 0 < i < n
        ensures replies[i] == replies[1..][i - 1]
      {
      }
      if |replies| >= SpendMaxRetries - k && forall i | 0 <= i < SpendMaxRetries - k :: Retried(replies[i]) {
        assert forall i | 0 <= i < SpendMaxRetries - (k + 1) :: replies[1..][i] == replies[i + 1];
      }
    }
  }

  /** get_adv_spend sends at most five requests and gives up, returning None, exactly after five HTTP errors in a row. */
  lemma SpendRetries(account: string, dateFrom: Date, replies: seq<SpendReply>)
    ensures var (run, n) := Spend(account, dateFrom, replies);
      && n <= SpendMaxRetries
      && (run == Finished(None) <==>
            |replies| >= SpendMaxRetries && forall i | 0 <= i < SpendMaxRetries :: Retried(replies[i]))
  {
    SpendEnds(replies, 0, account, dateFrom);
  }

  /** A request that raises before a success is not retried: the exception escapes. */
  lemma ConnectionEscapes(account: string, dateFrom: Date, replies: seq<SpendReply>, k: nat)
    requires k < SpendMaxRetries && k < |replies| && replies[k].NetworkError?
    requires forall i | 0 <= i < k :: Retried(replies[i])
    ensures Spend(account, dateFrom, replies) == (Raised(ConnectionError), k + 1)
  {
    SpendEnds(replies, 0, account, dateFrom);
    var (run, n) := Spend(account, dateFrom, replies);
    assert !Retried(replies[k]);
    assert run != Finished(None) && !run.Starved?;
  }

  /**
   * Each row of a processed spend answer is the row the server sent, with
   * `account` set and `updTime` kept as the queried day when it is that day
   * and NaN otherwise; no row is dropped or added.
   */
  lemma SpendRowsTagged(body: Value, account: string, dateFrom: Date)
    ensures var r := SpendRows(body, account, dateFrom);
      r.Ok? ==>
        && Frame(body).Ok? && |r.value| == |Frame(body).value|
        && forall i | 0 <= i < |r.value| ::
          var (row, out) := (Frame(body).value[i], r.value[i]);
          && out.Keys == row.Keys + {"account", "updTime"}
          && out["account"] == Str(account)
          && (out["updTime"] == Str(dateFrom) <==> DateText(GetOr(row, "updTime", Null)) == Ok(Str(dateFrom)))
          && (out["updTime"] != Str(dateFrom) ==> out["updTime"] == Null)
          && forall c | c in row && c != "account" && c != "updTime" :: out[c] == row[c]
  {
    var r := SpendRows(body, account, dateFrom);
    if r.Ok? {
      var rows := Frame(body).value;
      MapAllEach((row: Record) => TagRow(account, dateFrom, row), rows);
      forall i | 0 <= i < |r.value|
        ensures var (row, out) := (rows[i], r.value[i]);
          && out.Keys == row.Keys + {"account", "updTime"}
          && out["account"] == Str(account)
          && (out["updTime"] == Str(dateFrom) <==> DateText(GetOr(row, "updTime", Null)) == Ok(Str(dateFrom)))
          && (out["updTime"] != Str(dateFrom) ==> out["updTime"] == Null)
          && forall c | c in row && c != "account" && c != "updTime" :: out[c] == row[c]
      {
        var day := DateText(GetOr(rows[i], "updTime", Null)).value;
        TwoUpdates(rows[i], "account", Str(account), "updTime", if day == Str(dateFrom) then day else Null, r.value[i]);
      }
    }
  }

  /** `m[a := x][b := y]` with `a != b`: the keys gained and what the other keys hold. */
  lemma TwoUpdates<K, V>(m: map<K, V>, a: K, x: V, b: K, y: V, out: map<K, V>)
    requires a != b && out == m[a := x][b := y]
    ensures out.Keys == m.Keys + {a, b} && out[a] == x && out[b] == y
    ensures forall c | c in m && c != a && c != b :: out[c] == m[c]
  {
  }

  /** A day without spend (`[]`) has no `updTime` column: the job raises KeyError instead of skipping the account. */
  lemma EmptyAnswerRaises(account: string, dateFrom: Date, replies: seq<SpendReply>)
    requires replies != [] && replies[0] == Reply(200, List([]))
    ensures Spend(account, dateFrom, replies) == (Raised(KeyError), 1)
  {
    assert Frame(List([])) == Ok([]);
    assert !HasColumn([], "updTime");
  }

  // ---------------------------------------------------------------------------
  // processed_adv_spend
  // ---------------------------------------------------------------------------

  /** get_adv_spend for one account on one day, as a step of the loop over accounts. */
  function AccountSpend(day: Date, account: string, replies: seq<SpendReply>): (Run<Option<seq<Record>>>, nat) {
    Spend(account, day, replies)
  }

  /** The loop over accounts for one day: one get_adv_spend result per account, in order. */
  function DaySpend(accounts: seq<string>, day: Date, replies: seq<SpendReply>): (Run<seq<Option<seq<Record>>>>, nat) {
    RunAll(AccountSpend, day, accounts, replies)
  }

  /** `pd.concat(adv_spend_list)`: the rows of every frame in order, the None entries skipped. */
  function Frames(list: seq<Option<seq<Record>>>): seq<Record> {
    if list == [] then []
    else Frames(list[..|list| - 1]) + (if list[|list| - 1].Some? then list[|list| - 1].value else [])
  }

  /** `pd.concat` raises ValueError when there is nothing to concatenate or every entry is None. */
  function Concat(list: seq<Option<seq<Record>>>): Result<seq<Record>> {
    if forall i | 0 <= i < |list| :: list[i].None? then Err(ValueError) else Ok(Frames(list))
  }

  /** `updTime` read again as a date. */
  function RereadDate(row: Record): Result<Record> {
    var day :- DateText(GetOr(row, "updTime", Null));
    Ok(row["updTime" := day])
  }

  /** `x[:9]` on a campaign name: a string or a list is cut to its first nine items; anything else raises TypeError. */
  function Sku(v: Value): Result<Value> {
    match v
    case Str(s) => Ok(Str(s[..Min(SkuLength, |s|)]))
    case List(xs) => Ok(List(xs[..Min(SkuLength, |xs|)]))
    case _ => Err(TypeError)
  }

  /** `sku` from `campName`. */
  function AddSku(row: Record): Result<Record> {
    var sku :- Sku(GetOr(row, "campName", Null));
    Ok(row["sku" := sku])
  }

  /** One row of `adv_spend_df[[...]]`: the ten columns, NaN where the row lacks one. */
  function Select(row: Record): Record {
    map c | c in SpendColumns :: GetOr(row, c, Null)
  }

  /** The column selection: KeyError when the frame lacks one of the ten columns. */
  function Project(rows: seq<Record>): Result<seq<Record>> {
    if forall c | c in SpendColumns :: HasColumn(rows, c) then Ok(seq(|rows|, i requires 0 <= i < |rows| => Select(rows[i])))
    else Err(KeyError)
  }

  /**
   * The shaping after the concat, column by column as pandas does it:
   * `updTime` re-read as a date, `sku` cut from `campName`, then the ten
   * columns.
   */
  function Shape(rows: seq<Record>): Result<seq<Record>> {
    if !HasColumn(rows, "updTime") then Err(KeyError)
    else
      var dated :- MapAll(RereadDate, rows);
      SkuAndProject(dated)
  }

  /** The shaping after `updTime`: `sku` from `campName`, then the ten columns. */
  function SkuAndProject(dated: seq<Record>): Result<seq<Record>> {
    if !HasColumn(dated, "campName") then Err(KeyError)
    else
      var withSku :- MapAll(AddSku, dated);
      Project(withSku)
  }

  /** The spec of processed_adv_spend over `days` (yesterday, the day before, ...). */
  function ProcessedAdvSpendSpec(days: seq<Date>, accounts: seq<string>, replies: seq<SpendReply>)
    : (Run<seq<Record>>, nat)
  {
    var (fetched, used) := RunAll(DaySpend, accounts, days, replies);
    if !fetched.Finished? then (Stop(fetched), used)
    else match ConcatShape(Flatten(fetched.value))
      case Ok(rows) => (Finished(rows), used)
      case Err(e) => (Raised(e), used)
  }

  /** What processed_adv_spend does with the list once every request is done. */
  function ConcatShape(list: seq<Option<seq<Record>>>): Result<seq<Record>> {
    var rows :- Concat(list);
    Shape(rows)
  }

  /** One iteration of the loop over the accounts: get_adv_spend for account `a`. */
  method NextAccount(accounts: seq<string>, day: Date, replies: seq<SpendReply>, a: nat,
                     dayList: seq<Option<seq<Record>>>, used: nat)
    returns (frame: Run<Option<seq<Record>>>, n: nat)
    requires a < |accounts| && RunAll(AccountSpend, day, accounts[..a], replies) == (Finished(dayList), used)
    ensures frame.Finished? ==> RunAll(AccountSpend, day, accounts[..a + 1], replies) == (Finished(dayList + [frame.value]), used + n)
    ensures !frame.Finished? ==> RunAll(AccountSpend, day, accounts, replies) == (Stop(frame), used + n)
  {
    frame, n := GetAdvSpend(accounts[a], day, Drop(replies, used));
    RunAllNext(AccountSpend, day, accounts, replies, a, dayList, used, frame, n);
  }

  /** The loop over the accounts for one day: one get_adv_spend per account, appended in order. */
  method SpendDay(accounts: seq<string>, day: Date, replies: seq<SpendReply>)
    returns (run: Run<seq<Option<seq<Record>>>>, used: nat)
    ensures (run, used) == DaySpend(accounts, day, replies)
  {
    var dayList: seq<Option<seq<Record>>> := [];
    used := 0;
    for a := 0 to |accounts|
      invariant RunAll(AccountSpend, day, accounts[..a], replies) == (Finished(dayList), used)
    {
      var frame, n := NextAccount(accounts, day, replies, a, dayList, used);
      if !frame.Finished? {
        return Stop(frame), used + n;
      }
      dayList := dayList + [frame.value];
      used := used + n;
    }
    assert accounts[..|accounts|] == accounts;
    run := Finished(dayList);
  }

  // ---------------------------------------------------------------------------
  // What processed_adv_spend promises
  // ---------------------------------------------------------------------------

  /** A row of `account`'s answer for `day`: tagged with the account, dated that day or NaN. */
  predicate TaggedFor(day: Date, account: string, row: Record) {
    && "account" in row && row["account"] == Str(account)
    && "updTime" in row && (row["updTime"] == Str(day) || row["updTime"] == Null)
  }

  /** What get_adv_spend returned for `account` on `day`: None, or rows tagged for them. */
  predicate FrameOf(day: Date, account: string, f: Option<seq<Record>>) {
    f.Some? ==> forall i | 0 <= i < |f.value| :: TaggedFor(day, account, f.value[i])
  }

  lemma SpendFrame(day: Date, account: string, replies: seq<SpendReply>)
    ensures var run := AccountSpend(day, account, replies).0;
      run.Finished? ==> FrameOf(day, account, run.value)
  {
    var (run, n) := Spend(account, day, replies);
    SpendEnds(replies, 0, account, day);
    if run.Finished? && run.value.Some? {
      SpendRowsTagged(replies[n - 1].body, account, day);
    }
  }

  /** The day's list: one entry per account, in the accounts' order. */
  predicate DayListOf(accounts: seq<string>, day: Date, list: seq<Option<seq<Record>>>) {
    |list| == |accounts| && forall j | 0 <= j < |accounts| :: FrameOf(day, accounts[j], list[j])
  }

  lemma DayFrames(accounts: seq<string>, day: Date, replies: seq<SpendReply>)
    ensures var run := DaySpend(accounts, day, replies).0;
      run.Finished? ==> DayListOf(accounts, day, run.value)
  {
    forall account, rs
      ensures var run := AccountSpend(day, account, rs).0; run.Finished? ==> FrameOf(day, account, run.value)
    {
      SpendFrame(day, account, rs);
    }
    RunAllValues(AccountSpend, day, accounts, replies, (account, f) => FrameOf(day, account, f));
  }

  /** The days' lists, each for its own day. */
  lemma DaysFrames(days: seq<Date>, accounts: seq<string>, replies: seq<SpendReply>)
    ensures var fetched := RunAll(DaySpend, accounts, days, replies).0;
      fetched.Finished? ==> forall d | 0 <= d < |days| :: DayListOf(accounts, days[d], fetched.value[d])
  {
    forall day, rs
      ensures var run := DaySpend(accounts, day, rs).0; run.Finished? ==> DayListOf(accounts, day, run.value)
    {
      DayFrames(accounts, day, rs);
    }
    RunAllValues(DaySpend, accounts, days, replies, (day, list) => DayListOf(accounts, day, list));
  }

  /**
   * One entry per (day, account) pair, day after day and account after
   * account: entry `d * |accounts| + a` is what was returned for account `a`
   * on day `d`.
   */
  predicate ListOrder(days: seq<Date>, accounts: seq<string>, list: seq<Option<seq<Record>>>) {
    && |list| == |days| * |accounts|
    && forall d, a | 0 <= d < |days| && 0 <= a < |accounts| ::
         && d * |accounts| + a < |list|
         && FrameOf(days[d], accounts[a], list[d * |accounts| + a])
  }

  /** processed_adv_spend asks once per (day, account) pair, and its list keeps that order. */
  lemma SpendListOrder(days: seq<Date>, accounts: seq<string>, replies: seq<SpendReply>)
    ensures var fetched := RunAll(DaySpend, accounts, days, replies).0;
      fetched.Finished? ==> ListOrder(days, accounts, Flatten(fetched.value))
  {
    var fetched := RunAll(DaySpend, accounts, days, replies).0;
    if fetched.Finished? {
      DaysFrames(days, accounts, replies);
      DayListsOrder(days, accounts, fetched.value);
    }
  }

  lemma DayListsOrder(days: seq<Date>, accounts: seq<string>, v: seq<seq<Option<seq<Record>>>>)
    requires |v| == |days| && forall d | 0 <= d < |days| :: DayListOf(accounts, days[d], v[d])
    ensures ListOrder(days, accounts, Flatten(v))
  {
    assert forall d | 0 <= d < |v| :: |v[d]| == |accounts|;
    FlattenUniform(v, |accounts|);
    forall d, a | 0 <= d < |days| && 0 <= a < |accounts|
      ensures d * |accounts| + a < |Flatten(v)| && FrameOf(days[d], accounts[a], Flatten(v)[d * |accounts| + a])
    {
      FlattenAt(v, |accounts|, d, a);
      assert DayListOf(accounts, days[d], v[d]);
    }
  }

  /** The rows of the concat are the rows of the frames, and no others. */
  lemma {:induction false} FramesMembers(list: seq<Option<seq<Record>>>, row: Record)
    ensures row in Frames(list) <==> exists i | 0 <= i < |list| :: list[i].Some? && row in list[i].value
    decreases |list|
  {
    if list != [] {
      var init, last := list[..|list| - 1], list[|list| - 1];
      var tail := if last.Some? then last.value else [];
      assert Frames(list) == Frames(init) + tail;
      FramesMembers(init, row);
      if row in Frames(init) {
        var i :| 0 <= i < |init| && init[i].Some? && row in init[i].value;
        assert list[i] == init[i];
      } else if row in tail {
        assert list[|list| - 1] == last;
      }
      if exists i | 0 <= i < |list| :: list[i].Some? && row in list[i].value {
        var i :| 0 <= i < |list| && list[i].Some? && row in list[i].value;
        if i < |init| {
          assert init[i] == list[i];
        }
      }
    }
  }

  /**
   * `pd.concat` raises exactly when no entry holds a frame; otherwise its
   * rows are the rows of the frames, the None entries skipped.
   */
  lemma ConcatFrames(list: seq<Option<seq<Record>>>)
    ensures Concat(list).Ok? <==> exists i | 0 <= i < |list| :: list[i].Some?
    ensures Concat(list).Ok? ==>
      forall row :: row in Concat(list).value <==> exists i | 0 <= i < |list| :: list[i].Some? && row in list[i].value
  {
    forall row
      ensures row in Frames(list) <==> exists i | 0 <= i < |list| :: list[i].Some? && row in list[i].value
    {
      FramesMembers(list, row);
    }
  }

  /** `x[:9]` keeps the longest prefix of the name that has at most nine characters. */
  lemma SkuPrefix(name: string)
    ensures Sku(Str(name)).Ok? && Sku(Str(name)).value.Str?
    ensures var sku := Sku(Str(name)).value.s;
      && sku <= name && |sku| <= SkuLength
      && (|sku| < SkuLength ==> sku == name)
  {
  }

  /** What the shaping makes of one concatenated row: the ten columns, `updTime` as a date, `sku` from `campName`. */
  ghost predicate SpendShaped(row: Record, out: Record) {
    && (forall c :: c in out <==> c in SpendColumns)
    && "updTime" in out && DateText(GetOr(row, "updTime", Null)) == Ok(out["updTime"])
    && "sku" in out && Sku(GetOr(row, "campName", Null)) == Ok(out["sku"])
    && forall c | c in SpendColumns && c != "updTime" && c != "sku" :: c in out && out[c] == GetOr(row, c, Null)
  }

  /** The rows after `updTime` is read again. */
  lemma DatedRows(rows: seq<Record>)
    requires MapAll(RereadDate, rows).Ok?
    ensures var dated := MapAll(RereadDate, rows).value;
      && |dated| == |rows|
      && forall i | 0 <= i < |rows| ::
           DateText(GetOr(rows[i], "updTime", Null)).Ok?
           && dated[i] == rows[i]["updTime" := DateText(GetOr(rows[i], "updTime", Null)).value]
  {
    MapAllEach(RereadDate, rows);
  }

  /** The rows after `sku` is added. */
  lemma SkuRows(rows: seq<Record>)
    requires MapAll(AddSku, rows).Ok?
    ensures var out := MapAll(AddSku, rows).value;
      && |out| == |rows|
      && forall i | 0 <= i < |rows| ::
           Sku(GetOr(rows[i], "campName", Null)).Ok?
           && out[i] == rows[i]["sku" := Sku(GetOr(rows[i], "campName", Null)).value]
  {
    MapAllEach(AddSku, rows);
  }

  /** Setting column `k` in every row of a non-empty frame adds `k` to its columns and changes no other. */
  lemma ColumnsAfterSet(rows: seq<Record>, out: seq<Record>, k: string)
    requires |out| == |rows| && forall i | 0 <= i < |rows| :: k in out[i] && out[i] == rows[i][k := out[i][k]]
    ensures forall c | c != k :: HasColumn(out, c) <==> HasColumn(rows, c)
    ensures rows != [] ==> HasColumn(out, k)
  {
    forall c | c != k
      ensures HasColumn(out, c) <==> HasColumn(rows, c)
    {
      if HasColumn(out, c) {
        var i :| 0 <= i < |out| && c in out[i];
        assert c in rows[i];
      }
      if HasColumn(rows, c) {
        var i :| 0 <= i < |rows| && c in rows[i];
        assert c in out[i];
      }
    }
    if rows != [] {
      assert k in out[0];
    }
  }

  /**
   * The shaping raises unless the frame has every column but `sku`, every
   * `updTime` is a date or NaN and every `campName` can be cut; when it
   * does not raise, each row is shaped from the row at the same place.
   */
  lemma ShapeRows(rows: seq<Record>)
    ensures Shape(rows).Ok? <==>
      && (forall c | c in SpendColumns && c != "sku" :: HasColumn(rows, c))
      && (forall i | 0 <= i < |rows| :: DateText(GetOr(rows[i], "updTime", Null)).Ok?)
      && (forall i | 0 <= i < |rows| :: Sku(GetOr(rows[i], "campName", Null)).Ok?)
    ensures Shape(rows).Ok? ==>
      && |Shape(rows).value| == |rows|
      && forall i | 0 <= i < |rows| :: SpendShaped(rows[i], Shape(rows).value[i])
  {
    assert "updTime" in SpendColumns && "campName" in SpendColumns;
    if HasColumn(rows, "updTime") {
      MapAllEach(RereadDate, rows);
      var dated := MapAll(RereadDate, rows);
      if dated.Ok? {
        DatedRows(rows);
        ColumnsAfterSet(rows, dated.value, "updTime");
        ShapedSkusOk(rows, dated.value);
        ShapedSkusRows(rows, dated.value);
      } else {
        var i :| 0 <= i < |rows| && RereadDate(rows[i]).Err?;
      }
    }
  }

  /** The rows with `updTime` read again, as the last two steps of the shaping see them. */
  ghost predicate DatedFrom(rows: seq<Record>, dated: seq<Record>) {
    && HasColumn(rows, "updTime")
    && (forall c | c != "updTime" :: HasColumn(dated, c) <==> HasColumn(rows, c))
    && |dated| == |rows|
    && forall i | 0 <= i < |rows| ::
         DateText(GetOr(rows[i], "updTime", Null)).Ok?
         && dated[i] == rows[i]["updTime" := DateText(GetOr(rows[i], "updTime", Null)).value]
  }

  /** The last two steps of the shaping raise unless the nine columns are there and every name can be cut. */
  lemma ShapedSkusOk(rows: seq<Record>, dated: seq<Record>)
    requires DatedFrom(rows, dated)
    ensures SkuAndProject(dated).Ok? <==>
      && (forall c | c in SpendColumns && c != "sku" :: HasColumn(rows, c))
      && (forall i | 0 <= i < |rows| :: Sku(GetOr(rows[i], "campName", Null)).Ok?)
  {
    assert "campName" in SpendColumns && "campName" != "sku";
    assert HasColumn(dated, "campName") <==> HasColumn(rows, "campName");
    if HasColumn(dated, "campName") {
      SkusOk(rows, dated);
      if MapAll(AddSku, dated).Ok? {
        var withSku := MapAll(AddSku, dated).value;
        assert SkuAndProject(dated) == Project(withSku);
        SkuRows(dated);
        ColumnsAfterSet(dated, withSku, "sku");
        SkuColumns(rows, dated, withSku);
      }
    }
  }

  /** Adding `sku` raises exactly when some campaign name cannot be cut. */
  lemma SkusOk(rows: seq<Record>, dated: seq<Record>)
    requires DatedFrom(rows, dated)
    ensures MapAll(AddSku, dated).Ok? <==> forall i | 0 <= i < |rows| :: Sku(GetOr(rows[i], "campName", Null)).Ok?
  {
    MapAllEach(AddSku, dated);
    forall i | 0 <= i < |rows|
      ensures AddSku(dated[i]).Err? <==> Sku(GetOr(rows[i], "campName", Null)).Err?
    {
      assert GetOr(dated[i], "campName", Null) == GetOr(rows[i], "campName", Null);
    }
  }

  /** After the last two steps of the shaping, each row is shaped from the fetched row at the same place. */
  lemma ShapedSkusRows(rows: seq<Record>, dated: seq<Record>)
    requires DatedFrom(rows, dated)
    ensures SkuAndProject(dated).Ok? ==>
      && |SkuAndProject(dated).value| == |rows|
      && forall i | 0 <= i < |rows| :: SpendShaped(rows[i], SkuAndProject(dated).value[i])
  {
    if SkuAndProject(dated).Ok? {
      var withSku := MapAll(AddSku, dated).value;
      SkuRows(dated);
      assert SkuAndProject(dated) == Project(withSku);
      forall i | 0 <= i < |rows|
        ensures SpendShaped(rows[i], Select(withSku[i]))
      {
        SelectShaped(rows[i], dated[i], withSku[i]);
      }
    }
  }

  /** The frame with `sku` has all ten columns exactly when the fetched frame has the nine others. */
  lemma SkuColumns(rows: seq<Record>, dated: seq<Record>, withSku: seq<Record>)
    requires HasColumn(rows, "updTime") && |dated| == |rows|
    requires forall c | c != "updTime" :: HasColumn(dated, c) <==> HasColumn(rows, c)
    requires forall c | c != "sku" :: HasColumn(withSku, c) <==> HasColumn(dated, c)
    requires HasColumn(withSku, "sku")
    requires forall i | 0 <= i < |rows| :: "updTime" in dated[i]
    ensures (forall c | c in SpendColumns :: HasColumn(withSku, c))
        <==> (forall c | c in SpendColumns && c != "sku" :: HasColumn(rows, c))
  {
    assert HasColumn(dated, "updTime") by {
      var i :| 0 <= i < |rows| && "updTime" in rows[i];
      assert "updTime" in dated[i];
    }
  }

  /** One row through the last steps of the shaping. */
  lemma SelectShaped(row: Record, dated: Record, withSku: Record)
    requires DateText(GetOr(row, "updTime", Null)).Ok?
    requires dated == row["updTime" := DateText(GetOr(row, "updTime", Null)).value]
    requires Sku(GetOr(dated, "campName", Null)).Ok?
    requires withSku == dated["sku" := Sku(GetOr(dated, "campName", Null)).value]
    ensures SpendShaped(row, Select(withSku))
  {
    assert "updTime" in SpendColumns && "sku" in SpendColumns;
    assert GetOr(dated, "campName", Null) == GetOr(row, "campName", Null);
  }

  /** A row as get_adv_spend left it, from one of the queries: one of the accounts, one of the days or NaN. */
  predicate FetchedFrom(days: seq<Date>, accounts: seq<string>, row: Record) {
    && "account" in row && (exists a | 0 <= a < |accounts| :: row["account"] == Str(accounts[a]))
    && "updTime" in row && (row["updTime"] == Null || exists d | 0 <= d < |days| :: row["updTime"] == Str(days[d]))
  }

  /** A row of the final frame, from one of the queries: one of the accounts, one of the days or "NaT". */
  predicate FromQueries(days: seq<Date>, accounts: seq<string>, row: Record) {
    && "account" in row && (exists a | 0 <= a < |accounts| :: row["account"] == Str(accounts[a]))
    && "updTime" in row && (row["updTime"] == Str("NaT") || exists d | 0 <= d < |days| :: row["updTime"] == Str(days[d]))
  }

  /** Every row of every frame of the list comes from one of the queries. */
  lemma FetchedRows(days: seq<Date>, accounts: seq<string>, v: seq<seq<Option<seq<Record>>>>, k: nat, r: nat)
    requires |v| == |days| && forall d | 0 <= d < |days| :: DayListOf(accounts, days[d], v[d])
    requires k < |Flatten(v)| && Flatten(v)[k].Some? && r < |Flatten(v)[k].value|
    ensures FetchedFrom(days, accounts, Flatten(v)[k].value[r])
  {
    var x := Flatten(v)[k];
    FlattenMember(v, x);
    var d :| 0 <= d < |v| && x in v[d];
    var a :| 0 <= a < |v[d]| && v[d][a] == x;
    assert TaggedFor(days[d], accounts[a], x.value[r]);
  }

  /** A fetched row keeps its account through the shaping and its day, or "NaT" for NaN. */
  lemma ShapedFrom(days: seq<Date>, accounts: seq<string>, row: Record, out: Record)
    requires FetchedFrom(days, accounts, row) && SpendShaped(row, out)
    ensures FromQueries(days, accounts, out)
  {
    assert "account" in SpendColumns && "account" in out;
    if row["updTime"] != Null {
      var d :| 0 <= d < |days| && row["updTime"] == Str(days[d]);
      assert days[d][..10] == days[d];
    }
  }

  /**
   * Every row processed_adv_spend returns belongs to one of the accounts and
   * is dated one of the queried days, or "NaT" when the server dated its
   * spend on another day.
   */
  lemma ProcessedSpendRows(days: seq<Date>, accounts: seq<string>, replies: seq<SpendReply>)
    ensures var run := ProcessedAdvSpendSpec(days, accounts, replies).0;
      run.Finished? ==> forall i | 0 <= i < |run.value| :: FromQueries(days, accounts, run.value[i])
  {
    var (fetched, used) := RunAll(DaySpend, accounts, days, replies);
    if fetched.Finished? {
      var list := Flatten(fetched.value);
      var framed := Concat(list);
      if framed.Ok? && Shape(framed.value).Ok? {
        var rows := framed.value;
        DaysFrames(days, accounts, replies);
        ShapeRows(rows);
        forall i | 0 <= i < |rows|
          ensures FromQueries(days, accounts, Shape(rows).value[i])
        {
          FramesMembers(list, rows[i]);
          var k :| 0 <= k < |list| && list[k].Some? && rows[i] in list[k].value;
          var r :| 0 <= r < |list[k].value| && list[k].value[r] == rows[i];
          FetchedRows(days, accounts, fetched.value, k, r);
          ShapedFrom(days, accounts, rows[i], Shape(rows).value[i]);
        }
      }
    }
  }

  /** One iteration of the loop over the days: the loop over the accounts for day `d`. */
  method NextDay(days: seq<Date>, accounts: seq<string>, replies: seq<SpendReply>, d: nat,
                 ghost perDay: seq<seq<Option<seq<Record>>>>, used: nat)
    returns (dayList: Run<seq<Option<seq<Record>>>>, n: nat)
    requires d < |days| && RunAll(DaySpend, accounts, days[..d], replies) == (Finished(perDay), used)
    ensures dayList.Finished? ==> RunAll(DaySpend, accounts, days[..d + 1], replies) == (Finished(perDay + [dayList.value]), used + n)
    ensures !dayList.Finished? ==> RunAll(DaySpend, accounts, days, replies) == (Stop(dayList), used + n)
  {
    dayList, n := SpendDay(accounts, days[d], Drop(replies, used));
    RunAllNext(DaySpend, accounts, days, replies, d, perDay, used, dayList, n);
  }

  /**
   * processed_adv_spend: one get_adv_spend per day and per account, appended
   * to one list in that order, then concatenated and shaped. Returns the
   * outcome and the replies read.
   */
  method ProcessedAdvSpend(days: seq<Date>, accounts: seq<string>, replies: seq<SpendReply>)
    returns (result: Run<seq<Record>>, used: nat)
    ensures (result, used) == ProcessedAdvSpendSpec(days, accounts, replies)
  {
    var advSpendList: seq<Option<seq<Record>>> := [];
    ghost var perDay: seq<seq<Option<seq<Record>>>> := [];
    used := 0;
    for d := 0 to |days|
      invariant RunAll(DaySpend, accounts, days[..d], replies) == (Finished(perDay), used)
      invariant advSpendList == Flatten(perDay)
    {
      var dayList, n := NextDay(days, accounts, replies, d, perDay, used);
      if !dayList.Finished? {
        return Stop(dayList), used + n;
      }
      FlattenAppend(perDay, [dayList.value]);
      FlattenOne(dayList.value);
      advSpendList := advSpendList + dayList.value;
      perDay := perDay + [dayList.value];
      used := used + n;
    }
    assert days[..|days|] == days;
    var shaped := ConcatShape(advSpendList);
    result := if shaped.Ok? then Finished(shaped.value) else Raised(shaped.error);
  }
}
