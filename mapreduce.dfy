/** The `mapReduce` command `statistics` sends to the source collection: the
    query selects the documents of the window, the map function emits each
    under its device id (`emit(this.uuid, this)`), and the reducer folds the
    values of each device into one result. */
module MapReduce {
  import opened Telemetry
  import opened Aggregation
  import opened Routing

  /** The documents the query `{timestamp: {$gte: start, $lt: end}}` selects,
      in collection order. */
  function Matching(docs: seq<Record>, start: int, end: int): (m: seq<Record>)
    ensures |m| <= |docs|
    ensures forall x :: x in m ==> x in docs && start <= x.timestamp < end
    ensures forall i :: 0 <= i < |docs| && start <= docs[i].timestamp < end ==> docs[i] in m
    decreases |docs|
  {
    if docs == [] then []
    else
      var m := Matching(docs[..|docs| - 1], start, end);
      var x := docs[|docs| - 1];
      if start <= x.timestamp < end then m + [x] else m
  }

  // ---------------------------------------------------------------------
  // Grouping by device.
  // ---------------------------------------------------------------------

  /** The device ids of `rs`, each once, in order of first appearance. */
  function Devices(rs: seq<Record>): (us: seq<string>)
    ensures forall i :: 0 <= i < |rs| ==> rs[i].uuid in us
    ensures forall u :: u in us ==> exists i :: 0 <= i < |rs| && rs[i].uuid == u
    ensures forall i, j :: 0 <= i < j < |us| ==> us[i] != us[j]
    decreases |rs|
  {
    if rs == [] then []
    else
      var us := Devices(rs[..|rs| - 1]);
      var u := rs[|rs| - 1].uuid;
      if u in us then us else us + [u]
  }

  /** The records of device `u`, in source order: the values emitted under key `u`. */
  function RecordsOf(rs: seq<Record>, u: string): (g: seq<Record>)
    ensures forall x :: x in g ==> x in rs && x.uuid == u
    ensures forall i :: 0 <= i < |rs| && rs[i].uuid == u ==> rs[i] in g
    decreases |rs|
  {
    if rs == [] then []
    else
      var g := RecordsOf(rs[..|rs| - 1], u);
      if rs[|rs| - 1].uuid == u then g + [rs[|rs| - 1]] else g
  }

  /** Every device listed has at least one record. */
  lemma DeviceHasRecords(rs: seq<Record>, u: string)
    requires u in Devices(rs)
    ensures |RecordsOf(rs, u)| >= 1 && RecordsOf(rs, u)[0].uuid == u
  {
    var i :| 0 <= i < |rs| && rs[i].uuid == u;
    assert rs[i] in RecordsOf(rs, u);
  }

  lemma DevicesHaveRecords(rs: seq<Record>)
    ensures forall i :: 0 <= i < |Devices(rs)| ==>
      |RecordsOf(rs, Devices(rs)[i])| >= 1 && RecordsOf(rs, Devices(rs)[i])[0].uuid == Devices(rs)[i]
  {
    forall i | 0 <= i < |Devices(rs)|
      ensures |RecordsOf(rs, Devices(rs)[i])| >= 1 && RecordsOf(rs, Devices(rs)[i])[0].uuid == Devices(rs)[i]
    {
      DeviceHasRecords(rs, Devices(rs)[i]);
    }
  }

  /** The value lists of the devices `us`, one per device. */
  function GroupsOf(rs: seq<Record>, us: seq<string>): (gs: seq<seq<Record>>)
    ensures |gs| == |us|
    ensures forall i :: 0 <= i < |gs| ==> gs[i] == RecordsOf(rs, us[i])
    decreases |us|
  {
    if us == [] then [] else GroupsOf(rs, us[..|us| - 1]) + [RecordsOf(rs, us[|us| - 1])]
  }

  /** One value list per device, in order of the devices' first appearance. */
  function Groups(rs: seq<Record>): (gs: seq<seq<Record>>)
    ensures |gs| == |Devices(rs)|
    ensures forall i :: 0 <= i < |gs| ==> gs[i] == RecordsOf(rs, Devices(rs)[i])
    ensures forall i :: 0 <= i < |gs| ==> |gs[i]| >= 1 && gs[i][0].uuid == Devices(rs)[i]
  {
    DevicesHaveRecords(rs);
    GroupsOf(rs, Devices(rs))
  }

  // ---------------------------------------------------------------------
  // Reducing.
  // ---------------------------------------------------------------------

  /** The field rules the route's reducer applies to a device type. */
  function TableFor(reducer: Reducer, devType: string): Table
  {
    match reducer
    case DailyDataReducer => DailyTable(devType)
    case DataReducer => RollupTable(devType)
  }

  /** Every group the reducer is called on (those of two values or more)
      carries the fields its rules read. */
  predicate Reducible(reducer: Reducer, gs: seq<seq<Record>>)
  {
    forall i :: 0 <= i < |gs| ==>
      |gs[i]| >= 1 && (|gs[i]| >= 2 ==> Readable(gs[i], TableFor(reducer, gs[i][0].devType)))
  }

  /** The value the command outputs for one key: a key emitted once keeps its
      single value, since MongoDB calls the reducer only for keys with several
      values. */
  function KeyResult(reducer: Reducer, g: seq<Record>): (r: Record)
    requires |g| >= 1 && (|g| >= 2 ==> Readable(g, TableFor(reducer, g[0].devType)))
    ensures r.uuid == g[0].uuid && r.userId == g[0].userId && r.devType == g[0].devType
    ensures r.timestamp == g[0].timestamp && r.offset == g[0].offset
    ensures |g| == 1 ==> r == g[0]
  {
    if |g| == 1 then g[0] else Reduction(g, TableFor(reducer, g[0].devType))
  }

  /** The command's output: one result per group, in group order. */
  function ReduceAll(reducer: Reducer, gs: seq<seq<Record>>): (out: seq<Record>)
    requires Reducible(reducer, gs)
    ensures |out| == |gs|
    ensures forall i :: 0 <= i < |gs| ==> out[i] == KeyResult(reducer, gs[i])
    decreases |gs|
  {
    if gs == [] then []
    else ReduceAll(reducer, gs[..|gs| - 1]) + [KeyResult(reducer, gs[|gs| - 1])]
  }

  /** The results of the command on the documents `docs` for the window
      [start, end). */
  function Output(reducer: Reducer, docs: seq<Record>, start: int, end: int): (out: seq<Record>)
    requires Reducible(reducer, Groups(Matching(docs, start, end)))
    ensures |out| == |Devices(Matching(docs, start, end))|
    ensures forall i :: 0 <= i < |out| ==> out[i].uuid == Devices(Matching(docs, start, end))[i]
  {
    ReduceAll(reducer, Groups(Matching(docs, start, end)))
  }

  /** No two results belong to the same device. */
  lemma ResultsDistinct(reducer: Reducer, docs: seq<Record>, start: int, end: int)
    requires Reducible(reducer, Groups(Matching(docs, start, end)))
    ensures forall i, j :: 0 <= i < j < |Output(reducer, docs, start, end)| ==>
      Output(reducer, docs, start, end)[i].uuid != Output(reducer, docs, start, end)[j].uuid
  {
  }

  /** Each result belongs to a device that has a document in the window. */
  lemma ResultsOfMatchedDevices(reducer: Reducer, docs: seq<Record>, start: int, end: int)
    requires Reducible(reducer, Groups(Matching(docs, start, end)))
    ensures forall i :: 0 <= i < |Output(reducer, docs, start, end)| ==>
      exists x :: x in docs && start <= x.timestamp < end && x.uuid == Output(reducer, docs, start, end)[i].uuid
  {
    var m := Matching(docs, start, end);
    var out := Output(reducer, docs, start, end);
    var us := Devices(m);
    forall i | 0 <= i < |out|
      ensures exists x :: x in docs && start <= x.timestamp < end && x.uuid == out[i].uuid
    {
      var k :| 0 <= k < |m| && m[k].uuid == us[i];
      assert m[k] in m;
    }
  }

  /** Every device with a document in the window has a result. */
  lemma EveryDeviceHasResult(reducer: Reducer, docs: seq<Record>, start: int, end: int, x: Record) returns (i: nat)
    requires Reducible(reducer, Groups(Matching(docs, start, end)))
    requires x in docs && start <= x.timestamp < end
    ensures i < |Output(reducer, docs, start, end)| && Output(reducer, docs, start, end)[i].uuid == x.uuid
  {
    var m := Matching(docs, start, end);
    var us := Devices(m);
    var k :| 0 <= k < |docs| && docs[k] == x;
    assert x in m;
    var j :| 0 <= j < |m| && m[j] == x;
    assert x.uuid in us;
    i :| 0 <= i < |us| && us[i] == x.uuid;
  }

  /** The i-th result is the value output for the i-th device: computed from
      that device's records in the window. */
  lemma OutputAt(reducer: Reducer, docs: seq<Record>, start: int, end: int, i: nat)
    requires Reducible(reducer, Groups(Matching(docs, start, end)))
    requires i < |Output(reducer, docs, start, end)|
    ensures var g := RecordsOf(Matching(docs, start, end), Devices(Matching(docs, start, end))[i]);
            && |g| >= 1 && (|g| >= 2 ==> Readable(g, TableFor(reducer, g[0].devType)))
            && Output(reducer, docs, start, end)[i] == KeyResult(reducer, g)
  {
    assert Groups(Matching(docs, start, end))[i] == RecordsOf(Matching(docs, start, end), Devices(Matching(docs, start, end))[i]);
  }
}
