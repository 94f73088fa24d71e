/** Which collection a report type reads, which it writes and which reducer
    it runs: the branch at the head of `statistics`. */
module Routing {
  import opened Telemetry

  /** The collections of the rollup chain, finest first. */
  datatype Store = RawData | DailyData | MonthlyData | YearlyData | AllData

  /** The MongoDB model name of each collection. */
  function CollectionName(s: Store): string
  {
    match s
    case RawData => "data"
    case DailyData => "daily_data"
    case MonthlyData => "monthly_data"
    case YearlyData => "yearly_data"
    case AllData => "all_data"
  }

  /** Position of a collection along the chain. */
  function Tier(s: Store): nat
  {
    match s
    case RawData => 0
    case DailyData => 1
    case MonthlyData => 2
    case YearlyData => 3
    case AllData => 4
  }

  datatype Reducer = DailyDataReducer | DataReducer

  datatype Route = Route(source: Store, destination: Store, reducer: Reducer)

  datatype Failure = Failure(retCode: int, message: string)

  const INVALID_REPORT_TYPE := 200001

  /** The route of a report type; an unknown type is answered with 200001. */
  function RouteFor(dataType: string): (r: Result<Route, Failure>)
    ensures r.Ok? <==> dataType in REPORT_DATA_TYPE
    ensures r.Err? ==> r.error == Failure(INVALID_REPORT_TYPE, "invalid report data type:" + dataType)
    ensures r.Ok? ==> Tier(r.value.destination) == Tier(r.value.source) + 1 && r.value.destination != RawData
  {
    if dataType == "dailyReport" then Ok(Route(RawData, DailyData, DailyDataReducer))
    else if dataType == "monthlyReport" then Ok(Route(DailyData, MonthlyData, DataReducer))
    else if dataType == "yearlyReport" then Ok(Route(MonthlyData, YearlyData, DataReducer))
    else if dataType == "allReport" then Ok(Route(YearlyData, AllData, DataReducer))
    else Err(Failure(INVALID_REPORT_TYPE, "invalid report data type:" + dataType))
  }

  /** The report types, taken in their run order, form one chain from the raw
      collection up: the i-th reads tier i and writes tier i + 1, so each
      destination is the next report's source; only the first uses
      `dailyDataReduce`. By model name, the chain runs `data`, `daily_data`,
      `monthly_data`, `yearly_data`, `all_data`. */
  lemma RoutesFormChain(i: nat)
    requires i < |REPORT_DATA_TYPE|
    ensures RouteFor(REPORT_DATA_TYPE[i]).Ok?
    ensures Tier(RouteFor(REPORT_DATA_TYPE[i]).value.source) == i
    ensures Tier(RouteFor(REPORT_DATA_TYPE[i]).value.destination) == i + 1
    ensures i + 1 < |REPORT_DATA_TYPE| ==>
      RouteFor(REPORT_DATA_TYPE[i]).value.destination == RouteFor(REPORT_DATA_TYPE[i + 1]).value.source
    ensures RouteFor(REPORT_DATA_TYPE[i]).value.reducer == DailyDataReducer <==> i == 0
    ensures CollectionName(RouteFor(REPORT_DATA_TYPE[i]).value.source)
         == ["data", "daily_data", "monthly_data", "yearly_data"][i]
    ensures CollectionName(RouteFor(REPORT_DATA_TYPE[i]).value.destination)
         == ["daily_data", "monthly_data", "yearly_data", "all_data"][i]
  {
  }

  /** No two report types write the same collection, and none writes the raw one. */
  lemma DestinationsDistinct(a: string, b: string)
    requires RouteFor(a).Ok? && RouteFor(b).Ok? && a != b
    ensures RouteFor(a).value.destination != RouteFor(b).value.destination
    ensures RouteFor(a).value.destination != RawData
  {
  }
}
