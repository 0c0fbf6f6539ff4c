/**
 * The campaign side of the advertising job (src/advert/utils_advert.py):
 * listing an account's active auto-bid and manual-bid campaigns, merging
 * their IDs without duplicates, and `get_all_adv_data`, which fetches the
 * statistics of those IDs for every (account, day) pair.
 *
 * Listing replies and statistics replies are two scripts, consumed in the
 * order the requests are sent; `asyncio.gather` runs its tasks in order.
 */
module AdvertCampaigns {
  import opened PyJson
  import opened Batching
  import opened AdvertStats

  /** A reply of a campaign-listing endpoint. */
  datatype ListingReply =
    | Listing(body: Value)  // the decoded JSON of a successful reply
    | ListingFailed         // the request, raise_for_status or res.json() raised

  /** The two listing endpoints: camp_list (auto bids) and camp_list_manual (manual bids). */
  datatype ListingKind = Auto | Manual

  /** `data` after the try block: the body, or `[]` when anything in the block raised. */
  function ListingData(r: ListingReply): Value {
    if r.Listing? then r.body else List([])
  }

  /**
   * One status iteration: what is appended to `camps` (nothing when `data`
   * is falsy), or the exception the tagging loop raises. The auto endpoint
   * tags and appends `data`; the manual one `data['adverts']`.
   */
  function ListingStep(kind: ListingKind, r: ListingReply, account: string): Result<Option<seq<Record>>> {
    var data := ListingData(r);
    if !Truthy(data) then Ok(None)
    else
      var campaigns :- if kind == Auto then Ok(data) else Field(data, "adverts");
      var items :- AsRecords(campaigns);
      Ok(Some(TagAll(items, "account", Str(account))))
  }

  /** The status loop over the `n` statuses still to query. */
  function ListingLoop(kind: ListingKind, replies: seq<ListingReply>, n: nat, account: string)
    : (r: Run<seq<seq<Record>>>)
    ensures r.Finished? ==> n <= |replies|
    decreases n
  {
    if n == 0 then Finished([])
    else if replies == [] then Starved
    else match ListingStep(kind, replies[0], account)
      case Err(e) => Raised(e)
      case Ok(None) => ListingLoop(kind, replies[1..], n - 1, account)
      case Ok(Some(items)) => Prepend([items], ListingLoop(kind, replies[1..], n - 1, account))
  }

  /** camp_list / camp_list_manual: one request per active status (9, then 11). */
  function Listings(kind: ListingKind, replies: seq<ListingReply>, account: string): Run<seq<seq<Record>>> {
    ListingLoop(kind, replies, |ActiveStatuses|, account)
  }

  /** camp_list and camp_list_manual: the loop over statuses 9 and 11, appending what each reply lists. */
  method ListCampaigns(kind: ListingKind, replies: seq<ListingReply>, account: string)
    returns (run: Run<seq<seq<Record>>>)
    ensures run == Listings(kind, replies, account)
  {
    var camps: seq<seq<Record>> := [];
    assert replies[0..] == replies;
    PrependEmpty(Listings(kind, replies, account));
    for i := 0 to |ActiveStatuses|
      invariant i <= |replies| || i == 0
      invariant Listings(kind, replies, account)
             == Prepend(camps, ListingLoop(kind, replies[i..], |ActiveStatuses| - i, account))
    {
      if i == |replies| {
        return Starved;
      }
      assert replies[i..][1..] == replies[i + 1..];
      var step := ListingStep(kind, replies[i], account);
      if step.Err? {
        return Raised(step.error);
      }
      if step.value.Some? {
        PrependAssoc(camps, [step.value.value], ListingLoop(kind, replies[i + 1..], |ActiveStatuses| - i - 1, account));
        camps := camps + [step.value.value];
      }
    }
    assert camps + [] == camps;
    run := Finished(camps);
  }

  /** Every campaign a listing returns carries the account it was listed for. */
  lemma {:induction false} ListingTagged(kind: ListingKind, replies: seq<ListingReply>, n: nat, account: string)
    ensures var r := ListingLoop(kind, replies, n, account);
      r.Finished? ==> forall c | c in Flatten(r.value) :: "account" in c && c["account"] == Str(account)
    decreases n
  {
    var r := ListingLoop(kind, replies, n, account);
    if n > 0 && replies != [] && r.Finished? {
      var rest := ListingLoop(kind, replies[1..], n - 1, account);
      ListingTagged(kind, replies[1..], n - 1, account);
      var step := ListingStep(kind, replies[0], account);
      if step.value.Some? {
        var items := step.value.value;
        assert r.value == [items] + rest.value;
        assert Flatten(r.value) == items + Flatten(rest.value) by {
          assert ([items] + rest.value)[1..] == rest.value;
        }
        forall c | c in items
          ensures "account" in c && c["account"] == Str(account)
        {
          var i :| 0 <= i < |items| && items[i] == c;
        }
      }
    }
  }

  /** A listing request that fails is treated as an empty listing: failures alone give no campaigns. */
  lemma {:induction false} ListingFailuresIgnored(kind: ListingKind, replies: seq<ListingReply>, n: nat, account: string)
    requires n <= |replies|
    requires forall i | 0 <= i < n :: replies[i].ListingFailed?
    ensures ListingLoop(kind, replies, n, account) == Finished([])
    decreases n
  {
    if n > 0 {
      assert replies[0].ListingFailed?;
      ListingFailuresIgnored(kind, replies[1..], n - 1, account);
    }
  }

  /** An auto-bid listing only appends non-empty lists (`if data:` guards a list). */
  lemma {:induction false} AutoListingsNonEmpty(replies: seq<ListingReply>, n: nat, account: string)
    ensures var r := ListingLoop(Auto, replies, n, account);
      r.Finished? ==> forall l | l in r.value :: l != []
    decreases n
  {
    var r := ListingLoop(Auto, replies, n, account);
    if n > 0 && replies != [] && r.Finished? {
      AutoListingsNonEmpty(replies[1..], n - 1, account);
      var rest := ListingLoop(Auto, replies[1..], n - 1, account);
      var step := ListingStep(Auto, replies[0], account);
      if step.value.Some? {
        var data := ListingData(replies[0]);
        assert Truthy(data) && AsRecords(data).Ok?;
        assert data.List? && |AsRecords(data).value| == |data.items| > 0;
        assert step.value.value == TagAll(AsRecords(data).value, "account", Str(account));
        assert r.value == [step.value.value] + rest.value;
      }
    }
  }

  // ---------------------------------------------------------------------------
  // Campaign IDs
  // ---------------------------------------------------------------------------

  /** `c['status'] in (9, 11)`. */
  predicate Active(v: Value) { v == Int(9) || v == Int(11) }

  /** `[c['advertId'] for c in campaigns]`. */
  function AutoIds(campaigns: seq<Record>): (r: Result<seq<Value>>)
    ensures r.Ok? <==> forall i | 0 <= i < |campaigns| :: "advertId" in campaigns[i]
    ensures r.Err? ==> r.error == KeyError
    ensures r.Ok? ==> |r.value| == |campaigns|
    ensures r.Ok? ==> forall i | 0 <= i < |campaigns| :: r.value[i] == campaigns[i]["advertId"]
    decreases |campaigns|
  {
    if campaigns == [] then Ok([])
    else
      var id :- Lookup(campaigns[0], "advertId");
      var rest :- AutoIds(campaigns[1..]);
      Ok([id] + rest)
  }

  /** `[c['id'] for c in campaigns if c['status'] in (9, 11)]`: the status is read first. */
  function ManualIds(campaigns: seq<Record>): (r: Result<seq<Value>>)
    ensures r.Ok? <==> forall i | 0 <= i < |campaigns| ::
      "status" in campaigns[i] && (Active(campaigns[i]["status"]) ==> "id" in campaigns[i])
    ensures r.Err? ==> r.error == KeyError
    ensures r.Ok? ==> forall v :: v in r.value <==>
      exists i | 0 <= i < |campaigns| :: Active(campaigns[i]["status"]) && campaigns[i]["id"] == v
    decreases |campaigns|
  {
    if campaigns == [] then Ok([])
    else
      var status :- Lookup(campaigns[0], "status");
      if Active(status) && "id" !in campaigns[0] then Err(KeyError)
      else
        var rest :- ManualIds(campaigns[1..]);
        assert forall i | 1 <= i < |campaigns| :: campaigns[i] == campaigns[1..][i - 1];
        Ok((if Active(status) then [campaigns[0]["id"]] else []) + rest)
  }

  /** Only an int, a string or null can go into a Python set; a list or dict raises TypeError. */
  predicate Hashable(v: Value) { !v.List? && !v.Map? }

  predicate NoDuplicates<T(==)>(s: seq<T>) {
    forall i, j | 0 <= i < j < |s| :: s[i] != s[j]
  }

  /**
   * `list(set(ids))`. Python leaves the order of a set's elements to its
   * hashing; this model keeps first occurrences in order.
   */
  function Dedupe(ids: seq<Value>): (r: Result<seq<Value>>)
    ensures r.Ok? <==> forall i | 0 <= i < |ids| :: Hashable(ids[i])
    ensures r.Err? ==> r.error == TypeError
    ensures r.Ok? ==> NoDuplicates(r.value) && forall v :: v in r.value <==> v in ids
    decreases |ids|
  {
    if ids == [] then Ok([])
    else
      var last := ids[|ids| - 1];
      var rest :- Dedupe(ids[..|ids| - 1]);
      assert forall i | 0 <= i < |ids| - 1 :: ids[i] == ids[..|ids| - 1][i];
      assert ids == ids[..|ids| - 1] + [last];
      if !Hashable(last) then Err(TypeError)
      else Ok(if last in rest then rest else rest + [last])
  }

  /**
   * The merge in get_all_adv_data: the auto-bid `advertId`s extended by the
   * active manual-bid `id`s, then deduplicated.
   */
  function CampaignIds(autoCampaigns: seq<Record>, manualCampaigns: seq<Record>): Result<seq<Value>> {
    var ids :- AutoIds(autoCampaigns);
    var ids2 :- ManualIds(manualCampaigns);
    Dedupe(ids + ids2)
  }

  /**
   * The merged list has no duplicates, and holds exactly the auto-bid
   * `advertId`s and the `id`s of the manual-bid campaigns with status 9 or 11.
   */
  lemma MergedIds(autoCampaigns: seq<Record>, manualCampaigns: seq<Record>)
    ensures var r := CampaignIds(autoCampaigns, manualCampaigns);
      r.Ok? ==> NoDuplicates(r.value) && forall v :: v in r.value <==>
        (exists i | 0 <= i < |autoCampaigns| :: "advertId" in autoCampaigns[i] && autoCampaigns[i]["advertId"] == v) ||
        (exists i | 0 <= i < |manualCampaigns| :: "status" in manualCampaigns[i] && "id" in manualCampaigns[i] &&
                    Active(manualCampaigns[i]["status"]) && manualCampaigns[i]["id"] == v)
  {
    var r := CampaignIds(autoCampaigns, manualCampaigns);
    if r.Ok? {
      var ids := AutoIds(autoCampaigns).value;
      var ids2 := ManualIds(manualCampaigns).value;
      forall v
        ensures v in ids <==> exists i | 0 <= i < |autoCampaigns| :: "advertId" in autoCampaigns[i] && autoCampaigns[i]["advertId"] == v
      {
        if v in ids {
          var k :| 0 <= k < |ids| && ids[k] == v;
        }
      }
      assert forall v :: v in ids + ids2 <==> v in ids || v in ids2;
    }
  }

  // ---------------------------------------------------------------------------
  // get_all_adv_data
  // ---------------------------------------------------------------------------

  /** One `adv_stat_async(campaign_ids, date, date, token, account)` task. */
  datatype StatsTask = StatsTask(ids: seq<Value>, date: Date, account: string)

  /**
   * The IDs of one account, with the requests in source order: the auto-bid
   * listing, its IDs, the manual-bid listing, the merge. The listing replies
   * of the account are `listings[..4]`.
   */
  function AccountIds(account: string, listings: seq<ListingReply>): (r: Run<seq<Value>>)
    ensures r.Finished? ==> 2 * |ActiveStatuses| <= |listings|
  {
    match Listings(Auto, listings, account)
    case Raised(e) => Raised(e)
    case Starved => Starved
    case Finished(camps) =>
      if AutoIds(Flatten(camps)).Err? then Raised(AutoIds(Flatten(camps)).error)
      else match Listings(Manual, listings[|ActiveStatuses|..], account)
        case Raised(e) => Raised(e)
        case Starved => Starved
        case Finished(camps2) =>
          match CampaignIds(Flatten(camps), Flatten(camps2))
          case Ok(ids) => Finished(ids)
          case Err(e) => Raised(e)
  }

  function DayTasks(ids: seq<Value>, days: seq<Date>, account: string): (tasks: seq<StatsTask>)
    ensures |tasks| == |days|
  {
    seq(|days|, i requires 0 <= i < |days| => StatsTask(ids, days[i], account))
  }

  /** How an account's campaign IDs are merged from the listing replies left for it. */
  type Merge = (string, seq<ListingReply>) -> Run<seq<Value>>

  /** The listing replies left after one account has read its four. */
  function NextListings(listings: seq<ListingReply>): seq<ListingReply> {
    if |listings| < 2 * |ActiveStatuses| then [] else listings[2 * |ActiveStatuses|..]
  }

  /**
   * The task list built by the loop over accounts and days, each account's
   * IDs given by `merge` on the listing replies the accounts before it left.
   */
  function PlanWith(merge: Merge, accounts: seq<string>, days: seq<Date>, listings: seq<ListingReply>): Run<seq<StatsTask>>
    decreases |accounts|
  {
    if accounts == [] then Finished([])
    else match merge(accounts[0], listings)
      case Raised(e) => Raised(e)
      case Starved => Starved
      case Finished(ids) =>
        Prepend(DayTasks(ids, days, accounts[0]), PlanWith(merge, accounts[1..], days, NextListings(listings)))
  }

  /** The task list built by the loop over accounts and days, before any task runs. */
  function PlanTasks(accounts: seq<string>, days: seq<Date>, listings: seq<ListingReply>): Run<seq<StatsTask>> {
    PlanWith(AccountIds, accounts, days, listings)
  }

  /** `asyncio.gather(*tasks)` run in order, each task reading the statistics replies the previous one left. */
  function RunTasks(tasks: seq<StatsTask>, stats: seq<StatsReply>): Run<seq<Record>>
    decreases |tasks|
  {
    if tasks == [] then Finished([])
    else
      var t := tasks[0];
      var (run, log) := AdvStats(t.ids, t.date, t.date, t.account, stats);
      if !run.Finished? then run
      else
        AdvStatsConsumes(t.ids, t.date, t.date, t.account, stats);
        Prepend(run.value, RunTasks(tasks[1..], stats[|log|..]))
  }

  lemma AdvStatsConsumes(campaignIds: seq<Value>, dateFrom: Date, dateTo: Date, account: string, replies: seq<StatsReply>)
    ensures |AdvStats(campaignIds, dateFrom, dateTo, account, replies).1| <= |replies|
  {
  }

  /** The spec of get_all_adv_data: plan every (account, day) task, then run them all. */
  function AllAdvData(accounts: seq<string>, days: seq<Date>, listings: seq<ListingReply>, stats: seq<StatsReply>)
    : Run<seq<Record>>
  {
    match PlanTasks(accounts, days, listings)
    case Raised(e) => Raised(e)
    case Starved => Starved
    case Finished(tasks) => RunTasks(tasks, stats)
  }

  /** The IDs queried for an account are duplicate-free. */
  lemma AccountIdsDistinct(account: string, listings: seq<ListingReply>)
    ensures var r := AccountIds(account, listings); r.Finished? ==> NoDuplicates(r.value)
  {
    var r := AccountIds(account, listings);
    if r.Finished? {
      var camps := Listings(Auto, listings, account).value;
      var camps2 := Listings(Manual, listings[|ActiveStatuses|..], account).value;
      MergedIds(Flatten(camps), Flatten(camps2));
    }
  }

  /** The listing replies left for the account at position `a`: each account before it reads four. */
  function ListingsOf(listings: seq<ListingReply>, a: nat): seq<ListingReply>
    decreases a
  {
    if a == 0 then listings else ListingsOf(NextListings(listings), a - 1)
  }

  /**
   * Task `a * |days| + d` of the plan queries day `d` for account `a`, with
   * the IDs AccountIds merges from that account's own listing replies.
   */
  predicate TaskAt(accounts: seq<string>, days: seq<Date>, listings: seq<ListingReply>, tasks: seq<StatsTask>, a: nat, d: nat)
    requires a < |accounts| && d < |days|
  {
    SlotHolds(AccountIds, accounts, days, listings, tasks, a, d, a * |days| + d)
  }

  /** Task `i` queries day `d` for account `a`, with the IDs `merge` gives that account. */
  predicate SlotHolds(merge: Merge, accounts: seq<string>, days: seq<Date>, listings: seq<ListingReply>, tasks: seq<StatsTask>,
                      a: nat, d: nat, i: nat)
    requires a < |accounts| && d < |days|
  {
    && i < |tasks|
    && tasks[i].account == accounts[a]
    && tasks[i].date == days[d]
    && merge(accounts[a], ListingsOf(listings, a)) == Finished(tasks[i].ids)
  }

  /** A finished plan: the first account's tasks, then the plan of the others on the listings left. */
  lemma PlanCons(merge: Merge, accounts: seq<string>, days: seq<Date>, listings: seq<ListingReply>)
    requires accounts != [] && PlanWith(merge, accounts, days, listings).Finished?
    ensures merge(accounts[0], listings).Finished?
    ensures var rest := PlanWith(merge, accounts[1..], days, NextListings(listings));
      && rest.Finished?
      && PlanWith(merge, accounts, days, listings).value
         == DayTasks(merge(accounts[0], listings).value, days, accounts[0]) + rest.value
  {
  }

  /**
   * Where the task of account `a` and day `d` sits in a finished plan: after
   * the `|days|` tasks of each account before it (Start counts them up).
   */
  lemma {:induction false} PlannedTaskAt(merge: Merge, accounts: seq<string>, days: seq<Date>, listings: seq<ListingReply>,
                                         a: nat, d: nat)
    requires PlanWith(merge, accounts, days, listings).Finished?
    requires a < |accounts| && d < |days|
    ensures SlotHolds(merge, accounts, days, listings, PlanWith(merge, accounts, days, listings).value, a, d, Start(a, |days|) + d)
    decreases a
  {
    PlanCons(merge, accounts, days, listings);
    var tasks := PlanWith(merge, accounts, days, listings).value;
    var next := NextListings(listings);
    var rest := PlanWith(merge, accounts[1..], days, next).value;
    var ids := merge(accounts[0], listings).value;
    if a == 0 {
      SlotFirst(merge, accounts, days, listings, tasks, ids, rest, d);
    } else {
      PlannedTaskAt(merge, accounts[1..], days, next, a - 1, d);
      SlotShift(merge, accounts, days, listings, tasks, DayTasks(ids, days, accounts[0]), rest, a, d, Start(a - 1, |days|) + d);
    }
  }

  /** The slots of the first account: its own day tasks, in order. */
  lemma SlotFirst(merge: Merge, accounts: seq<string>, days: seq<Date>, listings: seq<ListingReply>, tasks: seq<StatsTask>,
                  ids: seq<Value>, rest: seq<StatsTask>, d: nat)
    requires accounts != [] && d < |days|
    requires merge(accounts[0], listings) == Finished(ids)
    requires tasks == DayTasks(ids, days, accounts[0]) + rest
    ensures SlotHolds(merge, accounts, days, listings, tasks, 0, d, d)
  {
    assert tasks[d] == DayTasks(ids, days, accounts[0])[d];
  }

  /** The slot of a later account: the same slot of the plan for the accounts after the first, moved by `|days|`. */
  lemma SlotShift(merge: Merge, accounts: seq<string>, days: seq<Date>, listings: seq<ListingReply>, tasks: seq<StatsTask>,
                  mine: seq<StatsTask>, rest: seq<StatsTask>, a: nat, d: nat, j: nat)
    requires 0 < a < |accounts| && d < |days|
    requires |mine| == |days| && tasks == mine + rest
    requires SlotHolds(merge, accounts[1..], days, NextListings(listings), rest, a - 1, d, j)
    ensures SlotHolds(merge, accounts, days, listings, tasks, a, d, |days| + j)
  {
    assert accounts[1..][a - 1] == accounts[a];
    assert tasks[|days| + j] == rest[j];
  }

  /**
   * One task per (account, day) pair, accounts in order and days in order
   * within each account, each with its account's merged IDs, and no task
   * queries an ID twice.
   */
  lemma PlannedTasks(accounts: seq<string>, days: seq<Date>, listings: seq<ListingReply>)
    ensures var r := PlanTasks(accounts, days, listings);
      r.Finished? ==>
        && |r.value| == |accounts| * |days|
        && (forall a, d | 0 <= a < |accounts| && 0 <= d < |days| :: TaskAt(accounts, days, listings, r.value, a, d))
        && forall t | t in r.value :: t.account in accounts && t.date in days && NoDuplicates(t.ids)
  {
    var r := PlanTasks(accounts, days, listings);
    if r.Finished? {
      forall account, ls | AccountIds(account, ls).Finished?
        ensures NoDuplicates(AccountIds(account, ls).value)
      {
        AccountIdsDistinct(account, ls);
      }
      PlannedTasksCover(AccountIds, accounts, days, listings, ids => NoDuplicates(ids));
      forall a, d | 0 <= a < |accounts| && 0 <= d < |days|
        ensures TaskAt(accounts, days, listings, r.value, a, d)
      {
        PlannedTaskAt(AccountIds, accounts, days, listings, a, d);
        StartIsProduct(a, |days|);
      }
    }
  }

  /**
   * |accounts| * |days| tasks, each for one of the accounts and days, and
   * with IDs that have every property the merged IDs of any account have.
   */
  lemma {:induction false} PlannedTasksCover(merge: Merge, accounts: seq<string>, days: seq<Date>, listings: seq<ListingReply>,
                                             idsOk: seq<Value> -> bool)
    requires forall account, ls :: merge(account, ls).Finished? ==> idsOk(merge(account, ls).value)
    ensures var r := PlanWith(merge, accounts, days, listings);
      r.Finished? ==>
        && |r.value| == |accounts| * |days|
        && forall t | t in r.value :: t.account in accounts && t.date in days && idsOk(t.ids)
    decreases |accounts|
  {
    var r := PlanWith(merge, accounts, days, listings);
    if accounts != [] && r.Finished? {
      PlanCons(merge, accounts, days, listings);
      var ids := merge(accounts[0], listings).value;
      var rest := PlanWith(merge, accounts[1..], days, NextListings(listings));
      PlannedTasksCover(merge, accounts[1..], days, NextListings(listings), idsOk);
      var mine := DayTasks(ids, days, accounts[0]);
      MulSucc(|accounts| - 1, |days|);
      forall t | t in r.value
        ensures t.account in accounts && t.date in days && idsOk(t.ids)
      {
        if t in mine {
          var i :| 0 <= i < |mine| && mine[i] == t;
        } else {
          assert t in rest.value;
          assert t.account in accounts[1..];
        }
      }
    }
  }

  /** Every record of a task run carries the account and the date of the task it came from. */
  lemma {:induction false} TasksTagged(tasks: seq<StatsTask>, stats: seq<StatsReply>)
    ensures var r := RunTasks(tasks, stats);
      r.Finished? ==> forall rec | rec in r.value :: exists t | t in tasks ::
        "account" in rec && rec["account"] == Str(t.account) && "date" in rec && rec["date"] == Str(t.date)
    decreases |tasks|
  {
    var r := RunTasks(tasks, stats);
    if tasks != [] && r.Finished? {
      var t := tasks[0];
      var (run, log) := AdvStats(t.ids, t.date, t.date, t.account, stats);
      StatsTagged(t.ids, t.date, t.date, t.account, stats);
      var rest := RunTasks(tasks[1..], stats[|log|..]);
      TasksTagged(tasks[1..], stats[|log|..]);
      assert r.value == run.value + rest.value;
      forall rec | rec in r.value
        ensures exists u | u in tasks ::
          "account" in rec && rec["account"] == Str(u.account) && "date" in rec && rec["date"] == Str(u.date)
      {
        if rec in run.value {
          assert t in tasks;
        } else {
          var u :| u in tasks[1..] &&
            "account" in rec && rec["account"] == Str(u.account) && "date" in rec && rec["date"] == Str(u.date);
          assert u in tasks;
        }
      }
    }
  }

  /**
   * Every record get_all_adv_data returns is tagged with one of the accounts
   * and one of the query dates.
   */
  lemma AllAdvDataTagged(accounts: seq<string>, days: seq<Date>, listings: seq<ListingReply>, stats: seq<StatsReply>)
    ensures var r := AllAdvData(accounts, days, listings, stats);
      r.Finished? ==> forall rec | rec in r.value ::
        && (exists a | a in accounts :: "account" in rec && rec["account"] == Str(a))
        && (exists d | d in days :: "date" in rec && rec["date"] == Str(d))
  {
    var r := AllAdvData(accounts, days, listings, stats);
    if r.Finished? {
      var tasks := PlanTasks(accounts, days, listings).value;
      PlannedTasks(accounts, days, listings);
      TasksTagged(tasks, stats);
      forall rec | rec in r.value
        ensures && (exists a | a in accounts :: "account" in rec && rec["account"] == Str(a))
                && (exists d | d in days :: "date" in rec && rec["date"] == Str(d))
      {
        var t :| t in tasks && "account" in rec && rec["account"] == Str(t.account) && "date" in rec && rec["date"] == Str(t.date);
        assert t.account in accounts && t.date in days;
      }
    }
  }

  /**
   * get_all_adv_data with the accounts and the query dates as inputs: for each
   * account, list and merge its campaign IDs and queue one statistics task per
   * day; then run the tasks and concatenate their records.
   */
  method GetAllAdvData(accounts: seq<string>, days: seq<Date>, listings: seq<ListingReply>, stats: seq<StatsReply>)
    returns (run: Run<seq<Record>>)
    ensures run == AllAdvData(accounts, days, listings, stats)
  {
    var planned := QueueTasks(accounts, days, listings);
    match planned
    case Raised(e) => run := Raised(e);
    case Starved => run := Starved;
    case Finished(tasks) => run := GatherStats(tasks, stats);
  }

  /** The loop over accounts and days that queues the statistics tasks. */
  method QueueTasks(accounts: seq<string>, days: seq<Date>, listings: seq<ListingReply>)
    returns (run: Run<seq<StatsTask>>)
    ensures run == PlanTasks(accounts, days, listings)
  {
    var tasks: seq<StatsTask> := [];
    var next := 0;
    assert accounts[0..] == accounts && listings[0..] == listings;
    PrependEmpty(PlanTasks(accounts, days, listings));
    for a := 0 to |accounts|
      invariant next <= |listings|
      invariant PlanTasks(accounts, days, listings) == Prepend(tasks, PlanTasks(accounts[a..], days, listings[next..]))
    {
      var outcome;
      var start := next;
      outcome, next := PlanAccount(accounts[a], listings, next);
      assert accounts[a..][1..] == accounts[a + 1..];
      if !outcome.Finished? {
        run := if outcome.Raised? then Raised(outcome.error) else Starved;
        return;
      }
      var ids := outcome.value;
      assert listings[start..][2 * |ActiveStatuses|..] == listings[next..];
      var queued := tasks;
      tasks := QueueDays(tasks, ids, days, accounts[a]);
      PrependAssoc(queued, DayTasks(ids, days, accounts[a]), PlanTasks(accounts[a + 1..], days, listings[next..]));
    }
    assert accounts[|accounts|..] == [] && tasks + [] == tasks;
    run := Finished(tasks);
  }

  /** The inner loop: one statistics task per day for the account's campaign IDs. */
  method QueueDays(queued: seq<StatsTask>, ids: seq<Value>, days: seq<Date>, account: string)
    returns (tasks: seq<StatsTask>)
    ensures tasks == queued + DayTasks(ids, days, account)
  {
    tasks := queued;
    for d := 0 to |days|
      invariant tasks == queued + DayTasks(ids, days[..d], account)
    {
      assert days[..d + 1] == days[..d] + [days[d]];
      tasks := tasks + [StatsTask(ids, days[d], account)];
    }
    assert days[..|days|] == days;
  }

  /** `asyncio.gather(*tasks)`, in order, then `all_adv_data.extend(stat)` for every result. */
  method GatherStats(tasks: seq<StatsTask>, stats: seq<StatsReply>) returns (run: Run<seq<Record>>)
    ensures run == RunTasks(tasks, stats)
  {
    var all: seq<Record> := [];
    var pos: nat := 0;
    assert tasks[0..] == tasks && stats[0..] == stats;
    PrependEmpty(RunTasks(tasks, stats));
    for t := 0 to |tasks|
      invariant pos <= |stats|
      invariant RunTasks(tasks, stats) == Prepend(all, RunTasks(tasks[t..], stats[pos..]))
    {
      var task := tasks[t];
      var data, queries := AdvStatAsync(task.ids, task.date, task.date, task.account, stats[pos..]);
      assert tasks[t..][1..] == tasks[t + 1..];
      if !data.Finished? {
        return data;
      }
      AdvStatsConsumes(task.ids, task.date, task.date, task.account, stats[pos..]);
      assert stats[pos..][|queries|..] == stats[pos + |queries|..];
      PrependAssoc(all, data.value, RunTasks(tasks[t + 1..], stats[pos + |queries|..]));
      all := all + data.value;
      pos := pos + |queries|;
    }
    assert tasks[|tasks|..] == [] && all + [] == all;
    run := Finished(all);
  }

  /**
   * The per-account part of the loop: the two listings and the merged IDs,
   * reading listing replies from `next`; `next'` is where the next account's
   * replies start.
   */
  method PlanAccount(account: string, listings: seq<ListingReply>, next: nat)
    returns (outcome: Run<seq<Value>>, next': nat)
    requires next <= |listings|
    ensures outcome == AccountIds(account, listings[next..])
    ensures outcome.Finished? ==> next' == next + 2 * |ActiveStatuses| <= |listings|
  {
    next' := next;
    var camps := ListCampaigns(Auto, listings[next..], account);
    if !camps.Finished? {
      return if camps.Raised? then Raised(camps.error) else Starved, next;
    }
    var autoIds := AutoIds(Flatten(camps.value));
    if autoIds.Err? {
      return Raised(autoIds.error), next;
    }
    assert listings[next..][|ActiveStatuses|..] == listings[next + |ActiveStatuses|..];
    var camps2 := ListCampaigns(Manual, listings[next + |ActiveStatuses|..], account);
    if !camps2.Finished? {
      return if camps2.Raised? then Raised(camps2.error) else Starved, next;
    }
    var merged := CampaignIds(Flatten(camps.value), Flatten(camps2.value));
    if merged.Err? {
      return Raised(merged.error), next;
    }
    outcome, next' := Finished(merged.value), next + 2 * |ActiveStatuses|;
  }
}
