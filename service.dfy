/** The statistics service: `statistics` runs one report tier (route, map-reduce,
    persist) against the rollup collections it owns, and `statisticsAll` runs
    the four tiers in order, each over the window of its own clock reading. */
module Service {
  import opened Telemetry
  import opened Aggregation
  import opened Windows
  import opened Routing
  import opened MapReduce
  import opened Persistence

  /** A `statistics` request: the report type and the window `[gte, lt)`. */
  datatype Message = Message(dataType: string, gte: int, lt: int)

  /** The `data` of a successful response: the request and what each upsert
      handed back. */
  datatype Outcome = Outcome(statistics: Message, results: seq<Option<Record>>)

  datatype Response = Response(retCode: int, description: string, message: Option<string>, data: Option<Outcome>)

  const SUCCESS := 200
  const MAP_REDUCE_FAILED := 200000

  /** The collections the service writes are all present. */
  predicate HasRollupStores(stores: map<Store, Collection>)
  {
    DailyData in stores && MonthlyData in stores && YearlyData in stores && AllData in stores
  }

  /** The reducer can be run on every device group of the request's window. */
  predicate Admissible(message: Message, docs: seq<Record>)
  {
    RouteFor(message.dataType).Ok? ==>
      Reducible(RouteFor(message.dataType).value.reducer, Groups(Matching(docs, message.gte, message.lt)))
  }

  /** `docs` lists the documents of the collection `c`, each of them once. */
  predicate Lists(docs: seq<Record>, c: Collection)
  {
    && (forall i, j :: 0 <= i < j < |docs| ==> docs[i] != docs[j])
    && (forall x :: x in docs ==> x in c.Values)
    && (forall x :: x in c.Values ==> x in docs)
  }

  /** When a request reads one of the rollup collections (every tier but the
      hourly one), its documents are what that collection holds. */
  predicate ReadsSource(stores: map<Store, Collection>, message: Message, docs: seq<Record>)
  {
    RouteFor(message.dataType).Ok? && RouteFor(message.dataType).value.source != RawData ==>
      RouteFor(message.dataType).value.source in stores && Lists(docs, stores[RouteFor(message.dataType).value.source])
  }

  /** The response of `statistics` and the collections it leaves, given the
      source collection's documents `docs`, the error the map-reduce command
      fails with, if any, and the positions of the results whose upsert fails.
      It answers 200 exactly when the report type routes and the map-reduce
      command succeeds, and it neither adds nor drops a collection. */
  function StatisticsEffect(stores: map<Store, Collection>, message: Message, docs: seq<Record>,
                            mapReduceError: Option<string>, failed: set<nat>): (r: (Response, map<Store, Collection>))
    requires HasRollupStores(stores) && Admissible(message, docs)
    ensures r.0.retCode == SUCCESS <==> RouteFor(message.dataType).Ok? && mapReduceError.None?
    ensures r.1.Keys == stores.Keys && HasRollupStores(r.1)
  {
    var initial := Response(SUCCESS, "Success.", None, None);
    match RouteFor(message.dataType)
    case Err(f) => (initial.(retCode := f.retCode, message := Some(f.message)), stores)
    case Ok(route) =>
      if mapReduceError.Some? then
        (initial.(retCode := MAP_REDUCE_FAILED, message := Some(mapReduceError.value)), stores)
      else
        var results := Output(route.reducer, docs, message.gte, message.lt);
        (initial.(data := Some(Outcome(message, Answers(results, message.gte, failed)))),
         AfterPersist(stores, route.destination, results, message.gte, failed))
  }

  /** The collections once the persist step has written `results` into
      `dest`: the other collections are untouched, and `dest` loses no key. */
  function AfterPersist(stores: map<Store, Collection>, dest: Store, results: seq<Record>, start: int,
                        failed: set<nat>): (after: map<Store, Collection>)
    requires dest in stores
    ensures after.Keys == stores.Keys
    ensures forall s :: s in stores && s != dest ==> after[s] == stores[s]
    ensures stores[dest].Keys <= after[dest].Keys
  {
    stores[dest := UpsertAll(stores[dest], Persisted(results, start, failed))]
  }

  /** The persist step changes no collection but `dest`, and in `dest` no key
      stamped otherwise than with `start`. */
  lemma AfterPersistFrame(stores: map<Store, Collection>, dest: Store, results: seq<Record>, start: int,
                          failed: set<nat>)
    requires dest in stores
    ensures var after := AfterPersist(stores, dest, results, start, failed);
            && (forall s :: s in stores && s != dest ==> s in after && after[s] == stores[s])
            && dest in after
            && (forall k: Key :: k.1 != start ==> (k in after[dest] <==> k in stores[dest]))
            && (forall k: Key :: k.1 != start && k in stores[dest] ==> after[dest][k] == stores[dest][k])
  {
    var written := Persisted(results, start, failed);
    PersistedStamped(results, start, failed);
    forall k: Key | k.1 != start
      ensures (k in UpsertAll(stores[dest], written) <==> k in stores[dest])
      ensures k in stores[dest] ==> UpsertAll(stores[dest], written)[k] == stores[dest][k]
    {
      UpsertAllOtherKeys(stores[dest], written, k);
    }
  }

  /** The request `statisticsAll` builds for tier `i` from its clock reading. */
  function TierMessage(i: nat, now: nat, offset: int): (m: Message)
    requires i < |REPORT_DATA_TYPE| && now + offset >= 0
    ensures m.dataType == REPORT_DATA_TYPE[i] && m.gte < m.lt
  {
    var w := ReportWindow(REPORT_DATA_TYPE[i], now, offset);
    Message(REPORT_DATA_TYPE[i], w.start, w.end)
  }

  /** The requests of the four tiers, tier `i` built from `clock[i]`. */
  function TierMessages(clock: seq<nat>, offset: int): (ms: seq<Message>)
    requires |clock| == |REPORT_DATA_TYPE| && LocalClock(clock, offset)
    ensures |ms| == |REPORT_DATA_TYPE|
    ensures forall i :: 0 <= i < |ms| ==> ms[i] == TierMessage(i, clock[i], offset)
  {
    seq(|clock|, i requires 0 <= i < |clock| => TierMessage(i, clock[i], offset))
  }

  /** Every clock reading, shifted to local time, is at or after the epoch. */
  predicate LocalClock(clock: seq<nat>, offset: int)
  {
    forall i :: 0 <= i < |clock| ==> clock[i] + offset >= 0
  }

  /** One request per tier, in tier order, each reducible over its documents. */
  predicate TiersAdmissible(messages: seq<Message>, docs: seq<seq<Record>>)
  {
    && |messages| == |REPORT_DATA_TYPE| && |docs| == |REPORT_DATA_TYPE|
    && forall i :: 0 <= i < |REPORT_DATA_TYPE| ==>
         messages[i].dataType == REPORT_DATA_TYPE[i] && Admissible(messages[i], docs[i])
  }

  /** The responses and the collections after the first `n` tiers of
      `statisticsAll`, run one after the other. */
  function TiersEffect(stores: map<Store, Collection>, messages: seq<Message>, docs: seq<seq<Record>>,
                       errors: seq<Option<string>>, failed: seq<set<nat>>, n: nat): (r: (seq<Response>, map<Store, Collection>))
    requires HasRollupStores(stores) && TiersAdmissible(messages, docs)
    requires |errors| == |REPORT_DATA_TYPE| && |failed| == |REPORT_DATA_TYPE| && n <= |REPORT_DATA_TYPE|
    ensures |r.0| == n && HasRollupStores(r.1)
    decreases n
  {
    if n == 0 then ([], stores)
    else
      var (responses, before) := TiersEffect(stores, messages, docs, errors, failed, n - 1);
      var i := n - 1;
      var (response, after) := StatisticsEffect(before, messages[i], docs[i], errors[i], failed[i]);
      (responses + [response], after)
  }

  /** Without failures, the persist step stores each of results of distinct
      devices, normalised, under (its device id, `start`). */
  lemma AfterPersistStoresEach(stores: map<Store, Collection>, dest: Store, results: seq<Record>, start: int, i: nat)
    requires dest in stores && i < |results|
    requires forall j, k :: 0 <= j < k < |results| ==> results[j].uuid != results[k].uuid
    ensures dest in AfterPersist(stores, dest, results, start, {})
    ensures (results[i].uuid, start) in AfterPersist(stores, dest, results, start, {})[dest]
    ensures AfterPersist(stores, dest, results, start, {})[dest][(results[i].uuid, start)] == Normalize(results[i], start)
  {
    PersistedDistinctStored(stores[dest], results, start, i);
  }

  /** Persisting the same results twice leaves what persisting them once left. */
  lemma AfterPersistIdempotent(stores: map<Store, Collection>, dest: Store, results: seq<Record>, start: int,
                               failed: set<nat>)
    requires dest in stores
    ensures dest in AfterPersist(stores, dest, results, start, failed)
    ensures AfterPersist(AfterPersist(stores, dest, results, start, failed), dest, results, start, failed)
         == AfterPersist(stores, dest, results, start, failed)
  {
    var written := Persisted(results, start, failed);
    var once := UpsertAll(stores[dest], written);
    UpsertAllIdempotent(stores[dest], written);
    UpdateTwice(stores, dest, once, UpsertAll(once, written));
  }

  /** An unknown report type is answered with 200001 and its message, and
      nothing is written. */
  lemma InvalidReportTypeChangesNothing(stores: map<Store, Collection>, message: Message, docs: seq<Record>,
                                        mapReduceError: Option<string>, failed: set<nat>)
    requires HasRollupStores(stores) && Admissible(message, docs)
    requires message.dataType !in REPORT_DATA_TYPE
    ensures var (response, after) := StatisticsEffect(stores, message, docs, mapReduceError, failed);
            && after == stores
            && response == Response(INVALID_REPORT_TYPE, "Success.", Some("invalid report data type:" + message.dataType), None)
  {
  }

  /** A failing map-reduce command is answered with 200000 and the error's
      text, and nothing is written. */
  lemma MapReduceFailureChangesNothing(stores: map<Store, Collection>, message: Message, docs: seq<Record>,
                                       error: string, failed: set<nat>)
    requires HasRollupStores(stores) && Admissible(message, docs)
    requires message.dataType in REPORT_DATA_TYPE
    ensures var (response, after) := StatisticsEffect(stores, message, docs, Some(error), failed);
            && after == stores
            && response == Response(MAP_REDUCE_FAILED, "Success.", Some(error), None)
  {
  }

  /** A successful run answers 200 with one entry per device of the window,
      empty exactly where the upsert failed. */
  lemma StatisticsAnswers(stores: map<Store, Collection>, message: Message, docs: seq<Record>, failed: set<nat>)
    requires HasRollupStores(stores) && Admissible(message, docs)
    requires message.dataType in REPORT_DATA_TYPE
    ensures var response := StatisticsEffect(stores, message, docs, None, failed).0;
            var devices := Devices(Matching(docs, message.gte, message.lt));
            && response.retCode == SUCCESS && response.message == None
            && response.data.Some? && response.data.value.statistics == message
            && |response.data.value.results| == |devices|
            && (forall i :: 0 <= i < |devices| ==>
                  (response.data.value.results[i] == None <==> i in failed))
  {
    var route := RouteFor(message.dataType).value;
    AnswersAt(Output(route.reducer, docs, message.gte, message.lt), message.gte, failed);
  }

  /** A successful run writes only the destination collection, and there
      only keys stamped with the window's start. */
  lemma StatisticsWritesOnlyDestination(stores: map<Store, Collection>, message: Message, docs: seq<Record>,
                                        failed: set<nat>)
    requires HasRollupStores(stores) && Admissible(message, docs)
    requires message.dataType in REPORT_DATA_TYPE
    ensures var after := StatisticsEffect(stores, message, docs, None, failed).1;
            var dest := RouteFor(message.dataType).value.destination;
            && (forall s :: s in stores && s != dest ==> s in after && after[s] == stores[s])
            && dest in after
            && (forall k: Key :: k.1 != message.gte ==> (k in after[dest] <==> k in stores[dest]))
            && (forall k: Key :: k.1 != message.gte && k in stores[dest] ==> after[dest][k] == stores[dest][k])
  {
    var route := RouteFor(message.dataType).value;
    AfterPersistFrame(stores, route.destination, Output(route.reducer, docs, message.gte, message.lt), message.gte, failed);
  }

  /** Running the same request again over what the first run left, with the
      same documents and the same upsert failures, answers the same and
      changes nothing more. */
  lemma StatisticsIdempotent(stores: map<Store, Collection>, message: Message, docs: seq<Record>,
                             mapReduceError: Option<string>, failed: set<nat>)
    requires HasRollupStores(stores) && Admissible(message, docs)
    ensures var (response, after) := StatisticsEffect(stores, message, docs, mapReduceError, failed);
            && HasRollupStores(after)
            && StatisticsEffect(after, message, docs, mapReduceError, failed) == (response, after)
  {
    if RouteFor(message.dataType).Ok? && mapReduceError.None? {
      var route := RouteFor(message.dataType).value;
      AfterPersistIdempotent(stores, route.destination, Output(route.reducer, docs, message.gte, message.lt),
                             message.gte, failed);
    }
  }

  /** When no upsert fails, every device with a document in the window ends
      up in the destination collection under (its id, the window's start),
      holding its result normalised. */
  lemma StatisticsStoresEveryDevice(stores: map<Store, Collection>, message: Message, docs: seq<Record>,
                                    route: Route, x: Record) returns (i: nat)
    requires HasRollupStores(stores) && Admissible(message, docs)
    requires RouteFor(message.dataType) == Ok(route)
    requires x in docs && message.gte <= x.timestamp < message.lt
    ensures var after := StatisticsEffect(stores, message, docs, None, {}).1;
            var results := Output(route.reducer, docs, message.gte, message.lt);
            && i < |results| && results[i].uuid == x.uuid
            && route.destination in after
            && (x.uuid, message.gte) in after[route.destination]
            && after[route.destination][(x.uuid, message.gte)] == Normalize(results[i], message.gte)
  {
    SucceededStores(stores, message, docs, route);
    i := PersistStoresDevice(stores, route, docs, message.gte, message.lt, x);
  }

  /** What a tier stores is read back by the next tier: when the next
      request's documents list the destination collection, every device of
      this window has its result, normalised, among them. */
  lemma ResultReadByNextTier(stores: map<Store, Collection>, message: Message, docs: seq<Record>,
                             route: Route, x: Record, next: seq<Record>) returns (i: nat)
    requires HasRollupStores(stores) && Admissible(message, docs)
    requires RouteFor(message.dataType) == Ok(route)
    requires x in docs && message.gte <= x.timestamp < message.lt
    requires Lists(next, StatisticsEffect(stores, message, docs, None, {}).1[route.destination])
    ensures var results := Output(route.reducer, docs, message.gte, message.lt);
            && i < |results| && results[i].uuid == x.uuid
            && Normalize(results[i], message.gte) in next
  {
    i := StatisticsStoresEveryDevice(stores, message, docs, route, x);
    var written := StatisticsEffect(stores, message, docs, None, {}).1[route.destination];
    assert written[(x.uuid, message.gte)] in written.Values;
  }

  lemma SucceededStores(stores: map<Store, Collection>, message: Message, docs: seq<Record>, route: Route)
    requires HasRollupStores(stores) && Admissible(message, docs)
    requires RouteFor(message.dataType) == Ok(route)
    ensures StatisticsEffect(stores, message, docs, None, {}).1
         == AfterPersist(stores, route.destination, Output(route.reducer, docs, message.gte, message.lt), message.gte, {})
  {
  }

  lemma PersistStoresDevice(stores: map<Store, Collection>, route: Route, docs: seq<Record>, start: int, end: int,
                            x: Record) returns (i: nat)
    requires route.destination in stores && Reducible(route.reducer, Groups(Matching(docs, start, end)))
    requires x in docs && start <= x.timestamp < end
    ensures var results := Output(route.reducer, docs, start, end);
            var after := AfterPersist(stores, route.destination, results, start, {});
            && i < |results| && results[i].uuid == x.uuid
            && route.destination in after
            && (x.uuid, start) in after[route.destination]
            && after[route.destination][(x.uuid, start)] == Normalize(results[i], start)
  {
    var results := Output(route.reducer, docs, start, end);
    ResultsDistinct(route.reducer, docs, start, end);
    i := EveryDeviceHasResult(route.reducer, docs, start, end, x);
    AfterPersistStoresEach(stores, route.destination, results, start, i);
  }

  /** A tier's response: never 200001, 200 exactly when the map-reduce
      command succeeded, and when data comes back it names the request. */
  predicate TierAnswered(response: Response, message: Message, error: Option<string>)
  {
    && response.retCode != INVALID_REPORT_TYPE
    && (response.retCode == SUCCESS <==> error.None?)
    && (response.data.Some? ==> response.data.value.statistics == message)
  }

  /** Every tier's request routes (no 200001 ever comes back); a tier answers
      200 exactly when its map-reduce command succeeds, and then reports its
      own request and window. */
  lemma {:induction false} TiersAnswer(stores: map<Store, Collection>, messages: seq<Message>, docs: seq<seq<Record>>,
                                       errors: seq<Option<string>>, failed: seq<set<nat>>, n: nat)
    requires HasRollupStores(stores) && TiersAdmissible(messages, docs)
    requires |errors| == |REPORT_DATA_TYPE| && |failed| == |REPORT_DATA_TYPE| && n <= |REPORT_DATA_TYPE|
    ensures forall i :: 0 <= i < n ==>
      TierAnswered(TiersEffect(stores, messages, docs, errors, failed, n).0[i], messages[i], errors[i])
    decreases n
  {
    if n > 0 {
      TiersAnswer(stores, messages, docs, errors, failed, n - 1);
      var i := n - 1;
      var before := TiersEffect(stores, messages, docs, errors, failed, i);
      TiersEffectStep(stores, messages, docs, errors, failed, n);
      var response := StatisticsEffect(before.1, messages[i], docs[i], errors[i], failed[i]).0;
      StatisticsAnswersTier(before.1, messages[i], docs[i], errors[i], failed[i]);
      AnsweredAppend(before.0, response, messages, errors);
    }
  }

  lemma AnsweredAppend(responses: seq<Response>, response: Response, messages: seq<Message>, errors: seq<Option<string>>)
    requires |responses| < |messages| && |responses| < |errors|
    requires forall j :: 0 <= j < |responses| ==> TierAnswered(responses[j], messages[j], errors[j])
    requires TierAnswered(response, messages[|responses|], errors[|responses|])
    ensures forall j :: 0 <= j < |responses| + 1 ==> TierAnswered((responses + [response])[j], messages[j], errors[j])
  {
  }

  lemma TiersEffectStep(stores: map<Store, Collection>, messages: seq<Message>, docs: seq<seq<Record>>,
                        errors: seq<Option<string>>, failed: seq<set<nat>>, n: nat)
    requires HasRollupStores(stores) && TiersAdmissible(messages, docs)
    requires |errors| == |REPORT_DATA_TYPE| && |failed| == |REPORT_DATA_TYPE| && 0 < n <= |REPORT_DATA_TYPE|
    ensures var before := TiersEffect(stores, messages, docs, errors, failed, n - 1);
            TiersEffect(stores, messages, docs, errors, failed, n).0
            == before.0 + [StatisticsEffect(before.1, messages[n - 1], docs[n - 1], errors[n - 1], failed[n - 1]).0]
  {
  }

  lemma StatisticsAnswersTier(stores: map<Store, Collection>, message: Message, docs: seq<Record>,
                              error: Option<string>, failed: set<nat>)
    requires HasRollupStores(stores) && Admissible(message, docs)
    requires message.dataType in REPORT_DATA_TYPE
    ensures TierAnswered(StatisticsEffect(stores, message, docs, error, failed).0, message, error)
  {
    if error.None? {
      StatisticsAnswers(stores, message, docs, failed);
    } else {
      MapReduceFailureChangesNothing(stores, message, docs, error.value, failed);
    }
  }

  /** The reduce phase of the map-reduce command: one result per group, the
      reducer being called only on groups of two values or more. */
  method ReduceGroups(reducer: Reducer, groups: seq<seq<Record>>) returns (results: seq<Record>)
    requires Reducible(reducer, groups)
    ensures results == ReduceAll(reducer, groups)
  {
    results := [];
    for i := 0 to |groups|
      invariant results == ReduceAll(reducer, groups[..i])
    {
      assert groups[..i + 1][..i] == groups[..i];
      var group := groups[i];
      var value: Record;
      if |group| == 1 {
        value := group[0];
      } else if reducer == DailyDataReducer {
        value := DailyDataReduce(group);
      } else {
        value := DataReduce(group);
      }
      results := results + [value];
    }
    assert groups[..|groups|] == groups;
  }

  lemma UpdateTwice(m: map<Store, Collection>, k: Store, a: Collection, b: Collection)
    ensures m[k := a][k := b] == m[k := b]
  {
  }

  class StatisticsService {
    /** The rollup collections, by the collection they stand for. */
    var stores: map<Store, Collection>

    predicate Valid()
      reads this
    {
      HasRollupStores(stores)
    }

    /** The service over the collections as they are in the database. */
    constructor (initial: map<Store, Collection>)
      requires HasRollupStores(initial)
      ensures Valid() && stores == initial
    {
      stores := initial;
    }

    /** One report tier: route, reduce every device group of the window, and
        upsert each result into the destination collection. */
    method Statistics(message: Message, docs: seq<Record>, mapReduceError: Option<string>, failed: set<nat>)
      returns (response: Response)
      requires Valid() && Admissible(message, docs) && ReadsSource(stores, message, docs)
      modifies this
      ensures Valid()
      ensures (response, stores) == StatisticsEffect(old(stores), message, docs, mapReduceError, failed)
    {
      response := Response(SUCCESS, "Success.", None, None);
      var route := RouteFor(message.dataType);
      if route.Err? {
        response := response.(retCode := route.error.retCode, message := Some(route.error.message));
        return;
      }
      if mapReduceError.Some? {
        response := response.(retCode := MAP_REDUCE_FAILED, message := Some(mapReduceError.value));
        return;
      }
      var results := ReduceGroups(route.value.reducer, Groups(Matching(docs, message.gte, message.lt)));
      var answers := Persist(route.value.destination, results, message.gte, failed);
      response := response.(data := Some(Outcome(message, answers)));
    }

    /** The persist loop: each result, normalised, is upserted into `dest`
        unless its upsert fails; the answers record what each upsert returned. */
    method Persist(dest: Store, results: seq<Record>, start: int, failed: set<nat>)
      returns (answers: seq<Option<Record>>)
      requires Valid() && dest != RawData
      modifies this
      ensures Valid()
      ensures stores == AfterPersist(old(stores), dest, results, start, failed)
      ensures answers == Answers(results, start, failed)
    {
      answers := [];
      ghost var before := stores;
      ghost var base := stores[dest];
      assert stores == before[dest := UpsertAll(base, [])];
      for i := 0 to |results|
        invariant stores == before[dest := UpsertAll(base, Persisted(results[..i], start, failed))]
        invariant answers == Answers(results[..i], start, failed)
      {
        var value := Normalize(results[i], start);
        PersistedStep(results, i, start, failed);
        AnswersStep(results, i, start, failed);
        if i in failed {
          answers := answers + [None];
        } else {
          ghost var written := UpsertAll(base, Persisted(results[..i], start, failed));
          UpsertAllAppend(base, Persisted(results[..i], start, failed), value);
          UpdateTwice(before, dest, written, Upsert(written, value));
          stores := stores[dest := Upsert(stores[dest], value)];
          answers := answers + [Some(value)];
        }
      }
      assert results[..|results|] == results;
    }

    /** All four tiers in order; tier `i` computes its window from the clock
        reading `clock[i]` taken when its turn comes, on a host whose local
        time is `offset` milliseconds ahead of UTC, and reads the collection
        the tier before it has just written. */
    method StatisticsAll(clock: seq<nat>, offset: int, docs: seq<seq<Record>>, errors: seq<Option<string>>,
                         failed: seq<set<nat>>)
      returns (responses: seq<Response>)
      requires Valid() && |clock| == |REPORT_DATA_TYPE| && LocalClock(clock, offset)
      requires TiersAdmissible(TierMessages(clock, offset), docs)
      requires |errors| == |REPORT_DATA_TYPE| && |failed| == |REPORT_DATA_TYPE|
      requires forall i :: 0 <= i < |REPORT_DATA_TYPE| ==>
        ReadsSource(TiersEffect(stores, TierMessages(clock, offset), docs, errors, failed, i).1,
                    TierMessages(clock, offset)[i], docs[i])
      modifies this
      ensures Valid()
      ensures (responses, stores)
           == TiersEffect(old(stores), TierMessages(clock, offset), docs, errors, failed, |REPORT_DATA_TYPE|)
    {
      responses := [];
      for i := 0 to |REPORT_DATA_TYPE|
        invariant Valid()
        invariant (responses, stores) == TiersEffect(old(stores), TierMessages(clock, offset), docs, errors, failed, i)
      {
        var response := Statistics(TierMessage(i, clock[i], offset), docs[i], errors[i], failed[i]);
        responses := responses + [response];
      }
    }
  }
}
