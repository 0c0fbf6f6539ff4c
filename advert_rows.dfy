/**
 * `processed_adv_data` (src/advert/utils_advert.py): every statistics record
 * is flattened in place. It gets `avg_position` from its first booster-stat
 * entry and the metrics of each platform entry under platform-suffixed keys,
 * and loses its nested `boosterStats` and `days` keys.
 *
 * Which exceptions the code catches decides what a malformed record does:
 * a missing key is absorbed (KeyError is caught), a missing first element of
 * `boosterStats` is absorbed (IndexError is caught there), while an empty
 * `days` or `nms` list and any non-dict in the way raise out of the job.
 */
module AdvertRows {
  import opened PyJson

  /** A platform entry's `appType`: 1 is the PC site, 32 Android, 64 iOS. */
  const PcApp := 1
  const AndroidApp := 32
  const IosApp := 64

  /** The columns one platform entry writes, as (record key, platform key), in assignment order. */
  function Columns(appType: Value): seq<(string, string)> {
    if appType == Int(PcApp) then
      [("atbs_pc", "atbs"), ("canceled_pc", "canceled"), ("clicks_pc", "clicks"), ("cpc", "cpc"),
       ("cr_pc", "cr"), ("ctr_pc", "ctr"), ("orders_pc", "orders"), ("shks_pc", "shks"),
       ("sum_price_pc", "sum_price"), ("views_pc", "views")]
    else if appType == Int(AndroidApp) then
      [("atbs_android", "atbs"), ("canceled_android", "canceled"), ("clicks_android", "clicks"),
       ("cr_android", "cr"), ("ctr_android", "ctr"), ("orders_android", "orders"), ("shks_android", "shks"),
       ("sum_price_android", "sum_price"), ("views_android", "views")]
    else if appType == Int(IosApp) then
      [("atbs_ios", "atbs"), ("canceled_ios", "canceled"), ("clicks_ios", "clicks"),
       ("cr_ios", "cr"), ("ctr_ios", "ctr"), ("orders_ios", "orders"), ("shks_ios", "shks"),
       ("sum_price_ios", "sum_price"), ("views_ios", "views")]
    else []
  }

  /** The platform types the code handles; entries of any other type are skipped. */
  predicate Handled(appType: Value) {
    appType == Int(PcApp) || appType == Int(AndroidApp) || appType == Int(IosApp)
  }

  /** Every key the platform loop can write. */
  predicate PlatformKey(k: string) {
    k == "article_id" ||
    exists t | t in [PcApp, AndroidApp, IosApp] :: exists j | 0 <= j < |Columns(Int(t))| :: Columns(Int(t))[j].0 == k
  }

  /**
   * `camp['boosterStats'][0]['avg_position']`, with KeyError and IndexError
   * read as None; a non-dict or non-list in the way raises TypeError.
   */
  function AvgPosition(camp: Record): (r: Result<Value>)
    ensures "boosterStats" !in camp ==> r == Ok(Null)
    ensures "boosterStats" in camp && camp["boosterStats"] == List([]) ==> r == Ok(Null)
    ensures "boosterStats" in camp && camp["boosterStats"].List? && camp["boosterStats"].items != []
            && camp["boosterStats"].items[0].Map? ==>
              var first := camp["boosterStats"].items[0].fields;
              r == Ok(if "avg_position" in first then first["avg_position"] else Null)
    ensures r.Err? ==> r.error == TypeError
  {
    var found: Result<Value> := (var stats :- Lookup(camp, "boosterStats");
                  var first :- At(stats, 0);
                  Field(first, "avg_position"));
    if found.Err? && (found.error == KeyError || found.error == IndexError) then Ok(Null) else found
  }

  /**
   * `camp['days'][0]['apps']` as the loop iterates it: None when a KeyError
   * stops the try block before the loop. Iterating a non-empty dict or string
   * hands the loop a string, on which `platform['appType']` raises TypeError.
   */
  function Platforms(camp: Record): (r: Result<Option<seq<Value>>>)
    ensures "days" !in camp ==> r == Ok(None)
    ensures "days" in camp && camp["days"] == List([]) ==> r == Err(IndexError)
    ensures "days" in camp && camp["days"].List? && camp["days"].items != [] && camp["days"].items[0].Map?
            && "apps" in camp["days"].items[0].fields && camp["days"].items[0].fields["apps"].List? ==>
              r == Ok(Some(camp["days"].items[0].fields["apps"].items))
  {
    var apps: Result<Value> := (var days :- Lookup(camp, "days");
                 var first :- At(days, 0);
                 Field(first, "apps"));
    match apps
    case Err(KeyError) => Ok(None)
    case Err(e) => Err(e)
    case Ok(List(xs)) => Ok(Some(xs))
    case Ok(Map(m)) => if m == map[] then Ok(Some([])) else Err(TypeError)
    case Ok(Str(s)) => if s == [] then Ok(Some([])) else Err(TypeError)
    case Ok(_) => Err(TypeError)
  }

  /**
   * Where the platform loop stands: still going with the record so far, left
   * by a KeyError (caught after the loop) with the writes made before it, or
   * an exception that leaves processed_adv_data.
   */
  datatype Progress = Going(camp: Record) | Stopped(camp: Record) | Raising(error: PyError)

  /** `camp[key] = platform[src]` for every column in order, until a source key is missing. */
  function CopyColumns(camp: Record, platform: map<string, Value>, cols: seq<(string, string)>): (r: Progress)
    ensures !r.Raising?
    ensures r.Stopped? <==> exists j | 0 <= j < |cols| :: cols[j].1 !in platform
    decreases |cols|
  {
    if cols == [] then Going(camp)
    else if cols[0].1 !in platform then Stopped(camp)
    else CopyColumns(camp[cols[0].0 := platform[cols[0].1]], platform, cols[1..])
  }

  /** `platform['nms'][0]['nmId']`. */
  function ArticleId(platform: map<string, Value>): Result<Value> {
    var nms :- Lookup(platform, "nms");
    var first :- At(nms, 0);
    Field(first, "nmId")
  }

  /** One iteration of `for platform in platforms`. */
  function PlatformStep(camp: Record, platform: Value): Progress {
    match Field(platform, "appType")
    case Err(KeyError) => Stopped(camp)
    case Err(e) => Raising(e)
    case Ok(appType) =>
      if !Handled(appType) then Going(camp)
      else match CopyColumns(camp, platform.fields, Columns(appType))
        case Going(c) =>
          (match ArticleId(platform.fields)
           case Ok(id) => Going(c["article_id" := id])
           case Err(KeyError) => Stopped(c)
           case Err(e) => Raising(e))
        case other => other
  }

  /** The platform loop over `platforms`, from the first entry to the last. */
  function PlatformLoop(camp: Record, platforms: seq<Value>): Progress
    decreases |platforms|
  {
    if platforms == [] then Going(camp)
    else match PlatformLoop(camp, platforms[..|platforms| - 1])
      case Going(c) => PlatformStep(c, platforms[|platforms| - 1])
      case other => other
  }

  /** What processed_adv_data makes of one record. */
  function ProcessCamp(camp: Record): Result<Record> {
    var avg :- AvgPosition(camp);
    var c := camp["avg_position" := avg];
    var platforms :- Platforms(camp);
    var flat :- if platforms.None? then Ok(c)
                else match PlatformLoop(c, platforms.value)
                  case Raising(e) => Err(e)
                  case Going(c') => Ok(c')
                  case Stopped(c') => Ok(c');
    Ok(flat - {"boosterStats", "days"})
  }

  /** processed_adv_data's result: every record processed, in order, or the first exception. */
  function ProcessAll(records: seq<Record>): Result<seq<Record>>
    decreases |records|
  {
    if records == [] then Ok([])
    else
      var done :- ProcessAll(records[..|records| - 1]);
      var last :- ProcessCamp(records[|records| - 1]);
      Ok(done + [last])
  }

  /** processed_adv_data: the loop over the records. */
  method ProcessedAdvData(advData: seq<Record>) returns (r: Result<seq<Record>>)
    ensures r == ProcessAll(advData)
  {
    var processed: seq<Record> := [];
    for i := 0 to |advData|
      invariant ProcessAll(advData[..i]) == Ok(processed)
    {
      assert advData[..i + 1][..i] == advData[..i];
      var camp := FlattenCamp(advData[i]);
      if camp.Err? {
        assert ProcessAll(advData[..i + 1]) == Err(camp.error);
        PrefixErr(advData, i + 1, camp.error);
        return Err(camp.error);
      }
      processed := processed + [camp.value];
    }
    assert advData[..|advData|] == advData;
    r := Ok(processed);
  }

  /** Once a prefix of the records raises, the whole loop raises the same exception. */
  lemma {:induction false} PrefixErr(records: seq<Record>, n: nat, e: PyError)
    requires n <= |records|
    requires ProcessAll(records[..n]) == Err(e)
    ensures ProcessAll(records) == Err(e)
    decreases |records| - n
  {
    if n < |records| {
      assert records[..n + 1][..n] == records[..n];
      PrefixErr(records, n + 1, e);
    } else {
      assert records[..n] == records;
    }
  }

  /** One output record per input record, in the same order, each the input record processed. */
  lemma {:induction false} ProcessAllRecords(records: seq<Record>)
    ensures var r := ProcessAll(records);
      r.Ok? ==> |r.value| == |records| && forall i | 0 <= i < |records| :: ProcessCamp(records[i]) == Ok(r.value[i])
    decreases |records|
  {
    if records != [] {
      var init := records[..|records| - 1];
      ProcessAllRecords(init);
      var r := ProcessAll(records);
      if r.Ok? {
        assert forall i | 0 <= i < |init| :: init[i] == records[i];
      }
    }
  }

  /** The body of processed_adv_data's loop for one record, with the platform loop run step by step. */
  method FlattenCamp(camp: Record) returns (r: Result<Record>)
    ensures r == ProcessCamp(camp)
  {
    var avg := AvgPosition(camp);
    if avg.Err? {
      return Err(avg.error);
    }
    var c := camp["avg_position" := avg.value];
    var platforms := Platforms(camp);
    if platforms.Err? {
      return Err(platforms.error);
    }
    if platforms.value.Some? {
      var ps := platforms.value.value;
      var progress := Going(c);
      var i := 0;
      while i < |ps| && progress.Going?
        invariant 0 <= i <= |ps|
        invariant progress == PlatformLoop(c, ps[..i])
        invariant !progress.Going? ==> PlatformLoop(c, ps) == progress
      {
        assert ps[..i + 1][..i] == ps[..i];
        progress := PlatformStep(progress.camp, ps[i]);
        i := i + 1;
        if !progress.Going? {
          LoopStopsAt(c, ps, i);
        }
      }
      if i == |ps| {
        assert ps[..i] == ps;
      }
      if progress.Raising? {
        return Err(progress.error);
      }
      c := progress.camp;
    }
    r := Ok(c - {"boosterStats", "days"});
  }

  /** After the loop leaves (a stop or an exception), the later entries are never looked at. */
  lemma {:induction false} LoopStopsAt(camp: Record, ps: seq<Value>, n: nat)
    requires n <= |ps|
    requires !PlatformLoop(camp, ps[..n]).Going?
    ensures PlatformLoop(camp, ps) == PlatformLoop(camp, ps[..n])
    decreases |ps| - n
  {
    if n < |ps| {
      assert ps[..n + 1][..n] == ps[..n];
      LoopStopsAt(camp, ps, n + 1);
    } else {
      assert ps[..n] == ps;
    }
  }

  // ---------------------------------------------------------------------------
  // What the flattening promises
  // ---------------------------------------------------------------------------

  /** The record a progress state holds, if it holds one. */
  function Holds(p: Progress): Record
    requires !p.Raising?
  {
    p.camp
  }

  /** The platform loop only writes platform keys: every other key keeps its presence and value. */
  lemma {:induction false} PlatformLoopFrame(camp: Record, ps: seq<Value>, k: string)
    requires !PlatformKey(k)
    ensures var p := PlatformLoop(camp, ps);
      !p.Raising? ==> (k in Holds(p) <==> k in camp) && (k in camp ==> Holds(p)[k] == camp[k])
    decreases |ps|
  {
    if ps != [] {
      PlatformLoopFrame(camp, ps[..|ps| - 1], k);
      var before := PlatformLoop(camp, ps[..|ps| - 1]);
      if before.Going? {
        StepFrame(before.camp, ps[|ps| - 1], k);
      }
    }
  }

  lemma StepFrame(camp: Record, platform: Value, k: string)
    requires !PlatformKey(k)
    ensures var p := PlatformStep(camp, platform);
      !p.Raising? ==> (k in Holds(p) <==> k in camp) && (k in camp ==> Holds(p)[k] == camp[k])
  {
    if Field(platform, "appType").Ok? {
      var t := Field(platform, "appType").value;
      if Handled(t) {
        var cols := Columns(t);
        assert forall j | 0 <= j < |cols| :: cols[j].0 != k by {
          forall j | 0 <= j < |cols|
            ensures cols[j].0 != k
          {
            var tt := if t == Int(PcApp) then PcApp else if t == Int(AndroidApp) then AndroidApp else IosApp;
            assert tt in [PcApp, AndroidApp, IosApp] && Columns(Int(tt)) == cols;
          }
        }
        CopyFrame(camp, platform.fields, cols, k);
      }
    }
  }

  lemma {:induction false} CopyFrame(camp: Record, platform: map<string, Value>, cols: seq<(string, string)>, k: string)
    requires forall j | 0 <= j < |cols| :: cols[j].0 != k
    ensures var p := CopyColumns(camp, platform, cols);
      (k in Holds(p) <==> k in camp) && (k in camp ==> Holds(p)[k] == camp[k])
    decreases |cols|
  {
    if cols != [] && cols[0].1 in platform {
      CopyFrame(camp[cols[0].0 := platform[cols[0].1]], platform, cols[1..], k);
    }
  }

  /**
   * One processed record: `avg_position` is the booster-stat value (or None),
   * `boosterStats` and `days` are gone, and every key the platform loop does
   * not write is as it was.
   */
  lemma ProcessedRecord(camp: Record)
    ensures var r := ProcessCamp(camp);
      r.Ok? ==>
        && "avg_position" in r.value && r.value["avg_position"] == AvgPosition(camp).value
        && "boosterStats" !in r.value && "days" !in r.value
        && forall k | k in camp && !PlatformKey(k) && k !in {"avg_position", "boosterStats", "days"} ::
             k in r.value && r.value[k] == camp[k]
  {
    var r := ProcessCamp(camp);
    if r.Ok? {
      var c := camp["avg_position" := AvgPosition(camp).value];
      var platforms := Platforms(camp).value;
      if platforms.Some? {
        AvgPositionNotPlatformKey();
        PlatformLoopFrame(c, platforms.value, "avg_position");
        forall k | k in camp && !PlatformKey(k) && k !in {"avg_position", "boosterStats", "days"}
          ensures k in r.value && r.value[k] == camp[k]
        {
          PlatformLoopFrame(c, platforms.value, k);
        }
      }
    }
  }

  /** The platform loop never writes `avg_position`. */
  lemma AvgPositionNotPlatformKey()
    ensures !PlatformKey("avg_position")
  {
    NotWrittenBy(PcApp);
    NotWrittenBy(AndroidApp);
    NotWrittenBy(IosApp);
  }

  /** No column name ends in `n`, as `avg_position` does. */
  lemma NotWrittenBy(t: int)
    ensures forall j | 0 <= j < |Columns(Int(t))| :: Columns(Int(t))[j].0 != "avg_position"
  {
    var cols := Columns(Int(t));
    forall j | 0 <= j < |cols|
      ensures cols[j].0 != "avg_position"
    {
      assert cols[j].0[|cols[j].0| - 1] != 'n';
    }
  }

  /**
   * A platform-suffixed key that the loop changed was copied from a platform
   * entry whose `appType` lists it: `cpc` and the `_pc` keys come from
   * `appType` 1 entries, the `_android` keys from 32, the `_ios` keys from 64.
   */
  lemma {:induction false} ColumnSource(camp: Record, ps: seq<Value>, k: string)
    requires k != "article_id"
    ensures var p := PlatformLoop(camp, ps);
      !p.Raising? && k in Holds(p) && (k !in camp || Holds(p)[k] != camp[k]) ==>
        exists i, j | 0 <= i < |ps| && ps[i].Map? && "appType" in ps[i].fields &&
                      0 <= j < |Columns(ps[i].fields["appType"])| ::
          var col := Columns(ps[i].fields["appType"])[j];
          col.0 == k && col.1 in ps[i].fields && Holds(p)[k] == ps[i].fields[col.1]
    decreases |ps|
  {
    var p := PlatformLoop(camp, ps);
    if ps != [] && !p.Raising? && k in Holds(p) && (k !in camp || Holds(p)[k] != camp[k]) {
      var init := ps[..|ps| - 1];
      var before := PlatformLoop(camp, init);
      ColumnSource(camp, init, k);
      var last := |ps| - 1;
      assert forall i | 0 <= i < |init| :: init[i] == ps[i];
      if before.Going? && (k !in before.camp || Holds(p)[k] != before.camp[k]) {
        StepSource(before.camp, ps[last], k);
        var j :| 0 <= j < |Columns(ps[last].fields["appType"])| &&
                 var col := Columns(ps[last].fields["appType"])[j];
                 col.0 == k && col.1 in ps[last].fields && Holds(p)[k] == ps[last].fields[col.1];
      }
    }
  }

  lemma StepSource(camp: Record, platform: Value, k: string)
    requires k != "article_id"
    ensures var p := PlatformStep(camp, platform);
      !p.Raising? && k in Holds(p) && (k !in camp || Holds(p)[k] != camp[k]) ==>
        platform.Map? && "appType" in platform.fields &&
        exists j | 0 <= j < |Columns(platform.fields["appType"])| ::
          var col := Columns(platform.fields["appType"])[j];
          col.0 == k && col.1 in platform.fields && Holds(p)[k] == platform.fields[col.1]
  {
    var p := PlatformStep(camp, platform);
    if Field(platform, "appType").Ok? && !p.Raising? {
      var t := Field(platform, "appType").value;
      if Handled(t) {
        CopySource(camp, platform.fields, Columns(t), k);
      }
    }
  }

  lemma {:induction false} CopySource(camp: Record, platform: map<string, Value>, cols: seq<(string, string)>, k: string)
    ensures var c := Holds(CopyColumns(camp, platform, cols));
      k in c && (k !in camp || c[k] != camp[k]) ==>
        exists j | 0 <= j < |cols| :: cols[j].0 == k && cols[j].1 in platform && c[k] == platform[cols[j].1]
    decreases |cols|
  {
    var c := Holds(CopyColumns(camp, platform, cols));
    if cols != [] && cols[0].1 in platform && k in c && (k !in camp || c[k] != camp[k]) {
      var next := camp[cols[0].0 := platform[cols[0].1]];
      CopySource(next, platform, cols[1..], k);
      if k !in next || c[k] != next[k] {
        var j :| 0 <= j < |cols[1..]| && cols[1..][j].0 == k && cols[1..][j].1 in platform && c[k] == platform[cols[1..][j].1];
        assert cols[j + 1] == cols[1..][j];
      } else {
        assert cols[0].0 == k;
      }
    }
  }

  /**
   * `article_id` is the first `nmId` of the last handled platform entry the
   * loop processed: an entry of a handled type followed only by entries of
   * other types decides it.
   */
  lemma ArticleFromLast(camp: Record, pre: seq<Value>, platform: Value, post: seq<Value>)
    requires platform.Map? && "appType" in platform.fields && Handled(platform.fields["appType"])
    requires forall q | q in post :: q.Map? && "appType" in q.fields && !Handled(q.fields["appType"])
    requires PlatformLoop(camp, pre + [platform]).Going?
    ensures var p := PlatformLoop(camp, pre + [platform] + post);
      p.Going? && "article_id" in p.camp && ArticleId(platform.fields).Ok? && p.camp["article_id"] == ArticleId(platform.fields).value
  {
    var before := PlatformLoop(camp, pre);
    assert (pre + [platform])[..|pre|] == pre;
    assert before.Going? && PlatformLoop(camp, pre + [platform]) == PlatformStep(before.camp, platform);
    HandledStepSetsArticle(before.camp, platform);
    SkipUnhandledSuffix(camp, pre + [platform], post);
  }

  /** Entries of types the loop does not handle, after a prefix that lets it go on, change nothing. */
  lemma {:induction false} SkipUnhandledSuffix(camp: Record, done: seq<Value>, post: seq<Value>)
    requires forall q | q in post :: q.Map? && "appType" in q.fields && !Handled(q.fields["appType"])
    requires PlatformLoop(camp, done).Going?
    ensures PlatformLoop(camp, done + post) == PlatformLoop(camp, done)
    decreases |post|
  {
    if post == [] {
      assert done + post == done;
    } else {
      var all := done + post;
      var init, last := post[..|post| - 1], post[|post| - 1];
      assert forall q | q in init :: q in post;
      SkipUnhandledSuffix(camp, done, init);
      assert all[..|all| - 1] == done + init;
      assert all[|all| - 1] == last && last in post;
      SkipUnhandled(PlatformLoop(camp, done).camp, last);
    }
  }

  /** A handled entry that lets the loop go on sets `article_id` from its first `nmId`. */
  lemma HandledStepSetsArticle(camp: Record, platform: Value)
    requires platform.Map? && "appType" in platform.fields && Handled(platform.fields["appType"])
    requires PlatformStep(camp, platform).Going?
    ensures var c := PlatformStep(camp, platform).camp;
      "article_id" in c && ArticleId(platform.fields).Ok? && c["article_id"] == ArticleId(platform.fields).value
  {
  }

  /** An entry of a type the loop does not handle leaves the record as it is. */
  lemma SkipUnhandled(camp: Record, platform: Value)
    requires platform.Map? && "appType" in platform.fields && !Handled(platform.fields["appType"])
    ensures PlatformStep(camp, platform) == Going(camp)
  {
  }

  /** Copying columns with distinct keys, all present in the entry, copies every one of them. */
  lemma {:induction false} CopyComplete(camp: Record, platform: map<string, Value>, cols: seq<(string, string)>)
    requires forall j | 0 <= j < |cols| :: cols[j].1 in platform
    requires forall i, j | 0 <= i < j < |cols| :: cols[i].0 != cols[j].0
    ensures CopyColumns(camp, platform, cols).Going?
    ensures forall j | 0 <= j < |cols| ::
      cols[j].0 in CopyColumns(camp, platform, cols).camp && CopyColumns(camp, platform, cols).camp[cols[j].0] == platform[cols[j].1]
    decreases |cols|
  {
    if cols != [] {
      var next := camp[cols[0].0 := platform[cols[0].1]];
      CopyComplete(next, platform, cols[1..]);
      CopyFrame(next, platform, cols[1..], cols[0].0);
      var c := CopyColumns(camp, platform, cols).camp;
      forall j | 0 <= j < |cols|
        ensures cols[j].0 in c && c[cols[j].0] == platform[cols[j].1]
      {
        if j > 0 {
          assert cols[j] == cols[1..][j - 1];
        }
      }
    }
  }

  /**
   * A missing source key at `k`, with every earlier one present, stops the
   * copy with exactly the writes of the columns before `k`.
   */
  lemma {:induction false} CopyStopsAt(camp: Record, platform: map<string, Value>, cols: seq<(string, string)>, k: nat)
    requires k < |cols| && cols[k].1 !in platform
    requires forall j | 0 <= j < k :: cols[j].1 in platform
    ensures CopyColumns(camp, platform, cols[..k]).Going?
    ensures CopyColumns(camp, platform, cols) == Stopped(CopyColumns(camp, platform, cols[..k]).camp)
    decreases k
  {
    if k > 0 {
      var next := camp[cols[0].0 := platform[cols[0].1]];
      forall j | 0 <= j < k - 1
        ensures cols[1..][j].1 in platform
      {
        assert cols[1..][j] == cols[j + 1];
      }
      CopyStopsAt(next, platform, cols[1..], k - 1);
      assert cols[..k][1..] == cols[1..][..k - 1];
    }
  }

  /**
   * A complete entry of a handled type (every metric of its type and
   * `nms[0].nmId` present) fills each of its type's columns from the entry and
   * `article_id` from its first product.
   */
  lemma CompleteEntry(camp: Record, platform: map<string, Value>)
    requires "appType" in platform && Handled(platform["appType"])
    requires forall j | 0 <= j < |Columns(platform["appType"])| :: Columns(platform["appType"])[j].1 in platform
    requires ArticleId(platform).Ok?
    ensures var p := PlatformStep(camp, Map(platform));
      && p.Going?
      && (forall j | 0 <= j < |Columns(platform["appType"])| ::
            var col := Columns(platform["appType"])[j]; col.0 in p.camp && p.camp[col.0] == platform[col.1])
      && "article_id" in p.camp && p.camp["article_id"] == ArticleId(platform).value
  {
    var cols := Columns(platform["appType"]);
    ColumnsDistinct(platform["appType"]);
    CopyComplete(camp, platform, cols);
  }

  /** No platform type writes a column twice. */
  lemma ColumnsDistinct(t: Value)
    ensures forall i, j | 0 <= i < j < |Columns(t)| :: Columns(t)[i].0 != Columns(t)[j].0
  {
  }

  /**
   * An Android entry fills `clicks_android` and neither `clicks_pc` nor
   * `clicks_ios`.
   */
  lemma AndroidEntryOnly(camp: Record, platform: map<string, Value>)
    requires "clicks_pc" !in camp && "clicks_ios" !in camp
    requires "appType" in platform && platform["appType"] == Int(AndroidApp)
    requires forall j | 0 <= j < |Columns(Int(AndroidApp))| :: Columns(Int(AndroidApp))[j].1 in platform
    requires ArticleId(platform).Ok?
    ensures var p := PlatformLoop(camp, [Map(platform)]);
      && p.Going?
      && "clicks" in platform && "clicks_android" in p.camp && p.camp["clicks_android"] == platform["clicks"]
      && "clicks_pc" !in p.camp && "clicks_ios" !in p.camp
  {
    var cols := Columns(Int(AndroidApp));
    assert [Map(platform)][..0] == [];
    CompleteEntry(camp, platform);
    assert cols[2] == ("clicks_android", "clicks");
    assert forall j | 0 <= j < |cols| :: cols[j].0 != "clicks_pc" && cols[j].0 != "clicks_ios";
    CopyFrame(camp, platform, cols, "clicks_pc");
    CopyFrame(camp, platform, cols, "clicks_ios");
  }
}
