/**
 * The session aggregator of analyzer/session.py: the `sid` query parameter of
 * every logged request is counted overall and, separately, for the two
 * special `deviceId` values `{PSID}` and `channel`. The queue is replaced by
 * the sequence of event lists read from it; waiting on the queue and logging
 * are not modelled.
 */
module SessionAnalysis {
  import opened Common
  import opened Counting
  import opened Sorting
  import opened Fetching

  const PSID_DEVICE := "{PSID}"
  const CHANNEL_DEVICE := "channel"

  /** The JSON values an event is made of (numbers, booleans and arrays are not modelled). */
  datatype Json = Null | Text(s: string) | Object(fields: map<string, Json>)

  /** Python truthiness: `None`, `""` and `{}` are false. */
  predicate Truthy(j: Json)
  {
    match j
    case Null => false
    case Text(s) => s != []
    case Object(fields) => fields != map[]
  }

  const EMPTY_OBJECT := Object(map[])

  /** `j.get(key, default)`: only an object has `get`; on anything else it raises. */
  function GetField(j: Json, key: string, default: Json): (r: Result<Json>)
    ensures r.Ok? <==> j.Object?
    ensures j.Object? && key in j.fields ==> r.value == j.fields[key]
    ensures j.Object? && key !in j.fields ==> r.value == default
  {
    match j
    case Object(fields) => Ok(if key in fields then fields[key] else default)
    case _ => Err("object has no attribute 'get'")
  }

  /** `item.get("event", {}).get("json", {}).get("req", {}).get("queryParams", {})`. */
  function QueryParams(item: Json): Result<Json>
  {
    match GetField(item, "event", EMPTY_OBJECT)
    case Err(m) => Err(m)
    case Ok(event) =>
      match GetField(event, "json", EMPTY_OBJECT)
      case Err(m) => Err(m)
      case Ok(json) =>
        match GetField(json, "req", EMPTY_OBJECT)
        case Err(m) => Err(m)
        case Ok(req) => GetField(req, "queryParams", EMPTY_OBJECT)
  }

  /** An event whose request carries the given query parameters. */
  function EventWith(queryParams: map<string, Json>): Json
  {
    Object(map["event" := Object(map["json" := Object(map["req" := Object(map["queryParams" := Object(queryParams)])])])])
  }

  /** What one item does: nothing, count `sid` for `deviceId`, or raise. */
  datatype Step = Skip | Tally(sid: Json, deviceId: Json) | Raise(message: string)

  /**
   * The decision the item loop of `analyzeData` takes for one item: a falsy
   * item and an item with empty (or missing) query parameters are skipped;
   * otherwise `sid` and `deviceId` (each `""` when missing) are counted. An
   * intermediate level that is not an object, or a `sid` that is an object
   * (not hashable), raises.
   */
  function Classify(item: Json): (step: Step)
    ensures !Truthy(item) ==> step == Skip
    ensures step.Tally? ==> Truthy(item) && !step.sid.Object?
  {
    if !Truthy(item) then Skip
    else match QueryParams(item)
      case Err(m) => Raise(m)
      case Ok(queryParams) =>
        if !Truthy(queryParams) then Skip
        else match GetField(queryParams, "sid", Text(""))
          case Err(m) => Raise(m)
          case Ok(sid) =>
            match GetField(queryParams, "deviceId", Text(""))
            case Err(m) => Raise(m)
            case Ok(deviceId) =>
              if sid.Object? then Raise("unhashable type: 'dict'") else Tally(sid, deviceId)
  }

  /**
   * An item whose query parameters are a non-empty object is counted under
   * its `sid` and its `deviceId`, each `""` when missing.
   */
  lemma ClassifyCounts(item: Json, q: map<string, Json>)
    requires Truthy(item) && QueryParams(item) == Ok(Object(q)) && q != map[]
    requires "sid" in q ==> !q["sid"].Object?
    ensures Classify(item) ==
      Tally(if "sid" in q then q["sid"] else Text(""), if "deviceId" in q then q["deviceId"] else Text(""))
  {
  }

  /** An item whose query parameters are empty, missing, `None` or `""` changes no counter. */
  lemma ClassifySkipsEmpty(item: Json)
    requires QueryParams(item).Ok? && !Truthy(QueryParams(item).value)
    ensures Classify(item) == Skip
  {
  }

  /** The query parameters of an event built around them are found. */
  lemma EventWithQueryParams(queryParams: map<string, Json>)
    ensures QueryParams(EventWith(queryParams)) == Ok(Object(queryParams))
  {
  }

  /** The three counters. */
  datatype Counters = Counters(sids: map<Json, int>, psidSids: map<Json, int>, channelSids: map<Json, int>)

  /**
   * One counted item: one more for its `sid`, and one more for it in the
   * `{PSID}` or the `channel` counter when `deviceId` is that text. Nothing
   * else changes, and at most one of the two device counters changes.
   */
  function CountItem(c: Counters, sid: Json, deviceId: Json): (r: Counters)
    ensures forall k :: Get(r.sids, k) == Get(c.sids, k) + (if k == sid then 1 else 0)
    ensures forall k :: Get(r.psidSids, k) == Get(c.psidSids, k) + (if k == sid && deviceId == Text(PSID_DEVICE) then 1 else 0)
    ensures forall k :: Get(r.channelSids, k) == Get(c.channelSids, k) + (if k == sid && deviceId == Text(CHANNEL_DEVICE) then 1 else 0)
    ensures r.sids.Keys == c.sids.Keys + {sid}
    ensures r.psidSids == c.psidSids || r.channelSids == c.channelSids
  {
    var sids := Bump(c.sids, sid);
    if deviceId == Text(PSID_DEVICE) then Counters(sids, Bump(c.psidSids, sid), c.channelSids)
    else if deviceId == Text(CHANNEL_DEVICE) then Counters(sids, c.psidSids, Bump(c.channelSids, sid))
    else Counters(sids, c.psidSids, c.channelSids)
  }

  /** The counters after a run, and whether it completed without raising. */
  datatype Counted = Counted(counters: Counters, ok: bool)

  /** The item loop over one event list, from counters `c`; the first item that raises ends it. */
  function CountItems(c: Counters, items: seq<Json>): Counted
    decreases |items|
  {
    if items == [] then Counted(c, true)
    else match Classify(items[0])
      case Skip => CountItems(c, items[1..])
      case Raise(_) => Counted(c, false)
      case Tally(sid, deviceId) => CountItems(CountItem(c, sid, deviceId), items[1..])
  }

  /** The batch loop of `analyzeData`: falsy batches (`None`, `[]`) are skipped. */
  function CountBatches(c: Counters, batches: seq<Slot<seq<Json>>>): Counted
    decreases |batches|
  {
    if batches == [] then Counted(c, true)
    else if batches[0].Sentinel? || batches[0].item == [] then CountBatches(c, batches[1..])
    else
      var r := CountItems(c, batches[0].item);
      if r.ok then CountBatches(r.counters, batches[1..]) else r
  }

  /** Event lists that are all `None` or empty change no counter. */
  lemma {:induction false} CountBatchesFalsy(c: Counters, batches: seq<Slot<seq<Json>>>)
    requires forall i :: 0 <= i < |batches| ==> batches[i].Sentinel? || batches[i].item == []
    ensures CountBatches(c, batches) == Counted(c, true)
    decreases |batches|
  {
    if batches != [] {
      CountBatchesFalsy(c, batches[1..]);
    }
  }

  /** How many items of `items` are counted before the first one that raises. */
  function Tallied(items: seq<Json>): nat
    decreases |items|
  {
    if items == [] then 0
    else match Classify(items[0])
      case Skip => Tallied(items[1..])
      case Raise(_) => 0
      case Tally(_, _) => 1 + Tallied(items[1..])
  }

  /** How many items of the batches are counted before the first one that raises. */
  function TalliedBatches(batches: seq<Slot<seq<Json>>>): nat
    decreases |batches|
  {
    if batches == [] then 0
    else if batches[0].Sentinel? || batches[0].item == [] then TalliedBatches(batches[1..])
    else if CountItems(Counters(map[], map[], map[]), batches[0].item).ok then Tallied(batches[0].item) + TalliedBatches(batches[1..])
    else Tallied(batches[0].item)
  }

  /**
   * No key is counted more often for a special device than overall: for every
   * `sid`, its `{PSID}` count plus its `channel` count is at most its overall
   * count, and every key of a device counter is a key of the overall counter.
   */
  ghost predicate Bounded(c: Counters)
  {
    && c.psidSids.Keys <= c.sids.Keys
    && c.channelSids.Keys <= c.sids.Keys
    && forall k :: k in c.sids ==> Get(c.psidSids, k) + Get(c.channelSids, k) <= c.sids[k]
  }

  lemma CountItemBounded(c: Counters, sid: Json, deviceId: Json)
    requires Bounded(c)
    ensures Bounded(CountItem(c, sid, deviceId))
  {
    var r := CountItem(c, sid, deviceId);
    forall k | k in r.sids
      ensures Get(r.psidSids, k) + Get(r.channelSids, k) <= r.sids[k]
    {
      if k != sid {
        assert Get(r.psidSids, k) == Get(c.psidSids, k) && Get(r.channelSids, k) == Get(c.channelSids, k);
      }
    }
  }

  /** Counting more items keeps the device counters within the overall one. */
  lemma {:induction false} CountItemsBounded(c: Counters, items: seq<Json>)
    requires Bounded(c)
    ensures Bounded(CountItems(c, items).counters)
    decreases |items|
  {
    if items != [] {
      match Classify(items[0])
      case Skip => CountItemsBounded(c, items[1..]);
      case Raise(_) =>
      case Tally(sid, deviceId) =>
        CountItemBounded(c, sid, deviceId);
        CountItemsBounded(CountItem(c, sid, deviceId), items[1..]);
    }
  }

  lemma {:induction false} CountBatchesBounded(c: Counters, batches: seq<Slot<seq<Json>>>)
    requires Bounded(c)
    ensures Bounded(CountBatches(c, batches).counters)
    decreases |batches|
  {
    if batches != [] {
      if batches[0].Sentinel? || batches[0].item == [] {
        CountBatchesBounded(c, batches[1..]);
      } else {
        CountItemsBounded(c, batches[0].item);
        var r := CountItems(c, batches[0].item);
        if r.ok {
          CountBatchesBounded(r.counters, batches[1..]);
        }
      }
    }
  }

  /** The result of counting items does not depend on the counters it starts from, except by them. */
  lemma {:induction false} CountItemsOk(c: Counters, d: Counters, items: seq<Json>)
    ensures CountItems(c, items).ok == CountItems(d, items).ok
    decreases |items|
  {
    if items != [] {
      match Classify(items[0])
      case Skip => CountItemsOk(c, d, items[1..]);
      case Raise(_) =>
      case Tally(sid, deviceId) => CountItemsOk(CountItem(c, sid, deviceId), CountItem(d, sid, deviceId), items[1..]);
    }
  }

  /** Every counted item adds exactly one to the sum of the overall counters. */
  lemma {:induction false} CountItemsSum(c: Counters, items: seq<Json>)
    ensures Sum(CountItems(c, items).counters.sids) == Sum(c.sids) + Tallied(items)
    decreases |items|
  {
    if items != [] {
      match Classify(items[0])
      case Skip => CountItemsSum(c, items[1..]);
      case Raise(_) =>
      case Tally(sid, deviceId) =>
        SumBump(c.sids, sid);
        CountItemsSum(CountItem(c, sid, deviceId), items[1..]);
    }
  }

  /** The sum of the overall counters grows by the number of items counted. */
  lemma {:induction false} CountBatchesSum(c: Counters, batches: seq<Slot<seq<Json>>>)
    ensures Sum(CountBatches(c, batches).counters.sids) == Sum(c.sids) + TalliedBatches(batches)
    decreases |batches|
  {
    if batches != [] {
      if batches[0].Sentinel? || batches[0].item == [] {
        CountBatchesSum(c, batches[1..]);
      } else {
        CountItemsSum(c, batches[0].item);
        CountItemsOk(c, Counters(map[], map[], map[]), batches[0].item);
        var r := CountItems(c, batches[0].item);
        if r.ok {
          CountBatchesSum(r.counters, batches[1..]);
        }
      }
    }
  }

  /** One line of `outputResult`. */
  datatype Report = Report(heading: string, entries: seq<Entry<Json>>, count: int, countIncludingEmpty: int)

  class SessionAnalyzer {
    const baseUri: string
    const queryParam: string
    const authToken: string
    const sourceGroup: string
    var sids: map<Json, int>
    var psidSids: map<Json, int>
    var channelSids: map<Json, int>

    function Snapshot(): Counters
      reads this
    {
      Counters(sids, psidSids, channelSids)
    }

    ghost predicate Valid()
      reads this
    {
      Bounded(Snapshot())
    }

    constructor (baseUri: string, queryParam: string, authToken: string, sourceGroup: string)
      ensures Valid()
      ensures sids == map[] && psidSids == map[] && channelSids == map[]
      ensures this.baseUri == baseUri && this.queryParam == queryParam
      ensures this.authToken == authToken && this.sourceGroup == sourceGroup
    {
      this.baseUri := baseUri;
      this.queryParam := queryParam;
      this.authToken := authToken;
      this.sourceGroup := sourceGroup;
      sids := map[];
      psidSids := map[];
      channelSids := map[];
    }

    /** The item loop of `analyzeData` over one event list. */
    method CountBatch(items: seq<Json>) returns (outcome: Outcome)
      requires Valid()
      modifies this
      ensures Valid()
      ensures Snapshot() == CountItems(old(Snapshot()), items).counters
      ensures outcome.Pass? <==> CountItems(old(Snapshot()), items).ok
    {
      ghost var whole := CountItems(Snapshot(), items);
      CountItemsBounded(Snapshot(), items);
      assert items[0..] == items;
      for i := 0 to |items|
        invariant CountItems(Snapshot(), items[i..]) == whole
      {
        ghost var before := Snapshot();
        assert items[i..][1..] == items[i + 1..];
        var item := items[i];
        match Classify(item)
        case Skip =>
        case Raise(m) =>
          return Fail(m);
        case Tally(sid, deviceId) =>
          sids := Bump(sids, sid);
          if deviceId == Text(PSID_DEVICE) {
            psidSids := Bump(psidSids, sid);
          } else if deviceId == Text(CHANNEL_DEVICE) {
            channelSids := Bump(channelSids, sid);
          }
          assert Snapshot() == CountItem(before, sid, deviceId);
      }
      outcome := Pass;
    }

    /**
     * `analyzeData` over the event lists read from the queue, in order:
     * falsy lists are skipped, and the first item that raises ends the run.
     */
    method AnalyzeData(batches: seq<Slot<seq<Json>>>) returns (outcome: Outcome)
      requires Valid()
      modifies this
      ensures Valid()
      ensures Snapshot() == CountBatches(old(Snapshot()), batches).counters
      ensures outcome.Pass? <==> CountBatches(old(Snapshot()), batches).ok
    {
      ghost var whole := CountBatches(Snapshot(), batches);
      assert batches[0..] == batches;
      for i := 0 to |batches|
        invariant Valid()
        invariant CountBatches(Snapshot(), batches[i..]) == whole
      {
        assert batches[i..][1..] == batches[i + 1..];
        var data := batches[i];
        if data.Sentinel? || data.item == [] {
          continue;
        }
        outcome := CountBatch(data.item);
        if outcome.Fail? {
          return;
        }
      }
      outcome := Pass;
    }

    /**
     * `outputResult`: for each counter, its items by non-increasing count, the
     * number of distinct keys, and that number plus the count of the empty
     * `sid`.
     */
    method OutputResult() returns (reports: seq<Report>)
      ensures |reports| == 3
      ensures reports[0].heading == "All sid" && reports[1].heading == "deviceId=PSID" && reports[2].heading == "deviceId=channel"
      ensures forall i :: 0 <= i < 3 ==>
        var m := [sids, psidSids, channelSids][i];
        && ListsMap(reports[i].entries, m) && NonIncreasing(reports[i].entries)
        && reports[i].count == |m|
        && reports[i].countIncludingEmpty == |m| + Get(m, Text(""))
    {
      var labels := ["All sid", "deviceId=PSID", "deviceId=channel"];
      var data := [sids, psidSids, channelSids];
      reports := [];
      for i := 0 to |data|
        invariant |reports| == i
        invariant forall j :: 0 <= j < i ==>
          && reports[j].heading == labels[j]
          && ListsMap(reports[j].entries, data[j]) && NonIncreasing(reports[j].entries)
          && reports[j].count == |data[j]|
          && reports[j].countIncludingEmpty == |data[j]| + Get(data[j], Text(""))
      {
        var descData := ByCountDesc(data[i]);
        var count := |descData|;
        var countIncludingEmpty := count + Get(data[i], Text(""));
        reports := reports + [Report(labels[i], descData, count, countIncludingEmpty)];
      }
    }
  }
}
