# Hierarchical telemetry rollup — a Dafny model

This project models the rollup engine of the meshblu data-statistics service
(`lib/impl/me-data-statistics.js`). Raw device telemetry is rolled up tier by
tier. Raw `data` goes into `daily_data`, `daily_data` into `monthly_data`,
`monthly_data` into `yearly_data`, and `yearly_data` into `all_data`. For each
tier the service:

1. computes the tier's time window `[$gte, $lt)` from the current instant
   (`statisticsAll`);
2. routes the report type to its source collection, destination collection
   and reducer, or answers 200001 for an unknown type (`statistics`);
3. runs a MongoDB map-reduce over the window. The map function emits every
   document under its device id. The reducer folds each device's documents
   into one: `dailyDataReduce` for the first tier, `dataReduce` for the
   others.
4. normalises each result and upserts it into the destination, keyed by
   (device id, window start). It answers with the documents the upserts
   returned.

Modules, one per concern:

- `Telemetry`: the telemetry record, the device-type ids, the field names and
  the report tiers.
- `Aggregation`: the two reducers.
  - Each reducer is a method with the source's summing loops, one branch per
    device type.
  - Each is proved to compute `Reduction(values, table)`. The table lists,
    per device type, each field's rule (mean, total, last-minus-first delta,
    signed directional power, drop) in the order the source applies them.
  - Lemmas then say what each field of a result is.
- `Calendar`: the local calendar as JavaScript's `Date` reads and sets it:
  `new Date(t)`, `setHours`, `setMonth` and `setFullYear`.
- `Windows`: the four report windows, each stating where it falls on the
  calendar.
- `Routing`: the report-type routing and the tier chain it forms.
- `MapReduce`: the map-reduce command as a function of the source collection's
  documents. It covers the window query, grouping by device, and MongoDB's
  rule that a key emitted once keeps its single value unreduced.
- `Persistence`: normalisation and the upsert, with the laws of repeated
  upserts.
- `Service`: the service as a class holding the rollup collections.
  - `Statistics`, `Persist` and `StatisticsAll` change those collections in
    place.
  - Each is proved against a specification function: `StatisticsEffect`,
    `AfterPersist` or `TiersEffect`.
  - Lemmas about these functions state what one run answers and writes.

Modelling choices:

- Instants (`Date.now()` readings and window bounds) are UTC time values in
  milliseconds, as `nat`. The host's local clock runs a fixed `offset`
  milliseconds ahead of UTC. The calendar reads and sets local time values,
  that is, the UTC value plus `offset`.
- Readings are `real`.
- The outside world comes in as parameters:
  - the documents of each source collection;
  - the error the map-reduce command fails with, if any;
  - the positions of the results whose upsert fails;
  - one `Date.now()` reading per tier, and the host's offset from UTC.

## Model

| member | source | states |
|---|---|---|
| Aggregation.Reduction | lib/impl/me-data-statistics.js:39-42 | a reducer result is the first value without `__v` and `_id`, with the first value's device id, user, type, timestamp and offset |
| Aggregation.Accumulate | lib/impl/me-data-statistics.js:44-47 | one pass over the values yields, for every field summed, the sum of that field over all values |
| Aggregation.AccumulateSigned | lib/impl/me-data-statistics.js:62-73 | the volt and current sums add the readings of records with `direct` 16, subtract those with 17 and skip all others |
| Aggregation.DailyDataReduce | lib/impl/me-data-statistics.js:39-109 | `dailyDataReduce` returns exactly the first value rewritten by its device type's daily rules; an unknown type changes nothing |
| Aggregation.DailyTemperature | lib/impl/me-data-statistics.js:43-49 | for `050608070001`, `dis_temp` becomes the mean over the values |
| Aggregation.DailyMeter | lib/impl/me-data-statistics.js:50-60 | for `040B08040004`, `power` becomes the mean; `energyUsed` and `energySaved` become last minus first, but only when there are several values |
| Aggregation.DailyDirectional | lib/impl/me-data-statistics.js:61-82 | for `040B01000001`, `power` becomes (signed volt mean) × (signed current mean) / 100; `effectiveVolt`, `effectiveCurrent` and `direct` are removed; `toGrid` and `toUser` become last minus first when there are several values |
| Aggregation.DailyStorage | lib/impl/me-data-statistics.js:83-97 | for `040B01000005`, the two `pac` fields become means and the three `e…Total` counters become last minus first when there are several values |
| Aggregation.DailyInverter | lib/impl/me-data-statistics.js:98-107 | for `040B01000004`, `currentPower` becomes the mean and `totalEnergy` becomes last minus first when there are several values |
| Aggregation.DataReduce | lib/impl/me-data-statistics.js:110-178 | `dataReduce` returns exactly the first value with each instantaneous reading averaged and each counter summed, per device type |
| Aggregation.ReductionAt | lib/impl/me-data-statistics.js:39-178 | field by field: a field without a rule keeps the first value's reading, a dropped field is absent, a delta over one value keeps the reading, and every other rule writes its value |
| Aggregation.DailyTable | lib/impl/me-data-statistics.js:43-107 | `dailyDataReduce` has rules for the five known device types only, never names a field twice and never sums a field outright |
| Aggregation.RollupTable | lib/impl/me-data-statistics.js:114-175 | `dataReduce` covers the same device types, names each field once and only averages or sums; it carries every field the hourly reducer keeps, averaging what was averaged (the directional power included) and summing what was a per-hour difference |
| Aggregation.DailySingleInputKeepsData | lib/impl/me-data-statistics.js:43-107 | `dailyDataReduce` over one value gives back that value's readings, for every device type except `040B01000001` |
| Aggregation.RollupSingleInputKeepsData | lib/impl/me-data-statistics.js:114-175 | `dataReduce` over one value gives back that value's readings |
| Aggregation.UnknownTypeKeepsData | lib/impl/me-data-statistics.js:43-107 | for a device type neither reducer names, both leave the readings of the first value as they are |
| Aggregation.AveragedFieldWithinRange | lib/impl/me-data-statistics.js:44-48 | an averaged field of a result lies between the smallest and the largest reading of that field |
| Aggregation.DirectionalPowerAt | lib/impl/me-data-statistics.js:61-74 | the daily `power` of `040B01000001` is the directional power of all the values |
| Aggregation.DirectionalPowerIgnoresFlip | lib/impl/me-data-statistics.js:64-74 | swapping `direct` 16 and 17 on every record leaves the daily power unchanged, because it is the product of two signed means |
| Aggregation.SignedSumFlipped | lib/impl/me-data-statistics.js:64-73 | swapping `direct` 16 and 17 on every record negates each signed sum |
| Calendar.FromTime | lib/impl/me-data-statistics.js:193-194 | `new Date(t)` reads a valid local date and time whose time value is `t` again |
| Calendar.SetHours | lib/impl/me-data-statistics.js:202-213 | `setHours` keeps the date and moves the time value to the start of that local day plus the given time |
| Calendar.SetMonth | lib/impl/me-data-statistics.js:208-214 | `setMonth(m, d)` moves to month m counted from January of the date's year, carrying past December into later years, on day d at the same time of day |
| Calendar.SetFullYear | lib/impl/me-data-statistics.js:215-216 | `setFullYear` replaces the year, keeping month, date and time of day |
| Windows.HourWindow | lib/impl/me-data-statistics.js:197-199 | the daily window is the last complete UTC hour: it ends on an hour boundary of the UTC time value at or before now, within an hour of now, and lasts one hour |
| Windows.DayWindow | lib/impl/me-data-statistics.js:201-203 | the monthly window is the local day of now: it starts at that day's local midnight, holds now and lasts 24 hours |
| Windows.MonthWindow | lib/impl/me-data-statistics.js:205-209 | the yearly window runs from the first of now's local month to the first of the next month (December rolls into January of the next year), holds now and lasts the days of that month |
| Windows.YearWindow | lib/impl/me-data-statistics.js:211-216 | the all-time window runs from January 1 of now's local year to January 1 of the next, holds now and lasts the days of that year |
| Windows.ReportWindow | lib/impl/me-data-statistics.js:197-217 | every window is non-empty; every calendar window holds now, while the hourly one ends at or before it |
| Windows.HourWindowOnLocalHour | lib/impl/me-data-statistics.js:193-199 | the hourly window, cut on the UTC value, starts on a local clock hour exactly when the offset is a whole number of hours |
| Windows.HalfHourOffsetWindow | lib/impl/me-data-statistics.js:193-199 | at UTC+05:30 and 10:45 local time, the hourly window covers local 09:30 to 10:30 |
| Routing.RouteFor | lib/impl/me-data-statistics.js:287-312 | a report type routes exactly when it is one of the four; an unknown one fails with 200001 and `invalid report data type:` followed by the type; each route writes the tier above the one it reads, never the raw collection |
| Routing.RoutesFormChain | lib/impl/me-data-statistics.js:248-306 | in run order, tier i reads collection i and writes collection i + 1, which the next tier reads; only the first tier uses `dailyDataReduce`; by model name the chain runs `data`, `daily_data`, `monthly_data`, `yearly_data`, `all_data` |
| Routing.DestinationsDistinct | lib/impl/me-data-statistics.js:290-306 | two report types never write the same collection |
| MapReduce.Matching | lib/impl/me-data-statistics.js:313-319 | the query selects exactly the documents whose timestamp lies in `[$gte, $lt)` |
| MapReduce.Devices | lib/impl/me-data-statistics.js:36-38 | the emitted keys: every document's device id, each once, and no other |
| MapReduce.RecordsOf | lib/impl/me-data-statistics.js:36-38 | the values emitted under a key: exactly the documents of that device |
| MapReduce.Groups | lib/impl/me-data-statistics.js:36-38 | one non-empty value list per emitted key, in order of each device's first document, holding that device's documents |
| MapReduce.KeyResult | lib/impl/me-data-statistics.js:320-324 | a key's output keeps the first value's device id, user, type, timestamp and offset; a key emitted once keeps its single value unreduced |
| MapReduce.ReduceAll | lib/impl/me-data-statistics.js:320-324 | one output per key, each the key's result |
| MapReduce.Output | lib/impl/me-data-statistics.js:313-324 | the command outputs one result per device with documents in the window, carrying that device's id |
| MapReduce.ResultsDistinct | lib/impl/me-data-statistics.js:313-324 | no two results of the command belong to the same device |
| MapReduce.ResultsOfMatchedDevices | lib/impl/me-data-statistics.js:313-324 | every result belongs to a device that has a document in the window |
| MapReduce.EveryDeviceHasResult | lib/impl/me-data-statistics.js:313-324 | every device with a document in the window has a result |
| MapReduce.OutputAt | lib/impl/me-data-statistics.js:320-324 | the i-th result is the i-th device's records in the window, reduced when there are several |
| Persistence.Normalize | lib/impl/me-data-statistics.js:334-336 | a result is written without `__v` and `_id` and stamped with the window's start, with every other field kept |
| Persistence.Upsert | lib/impl/me-data-statistics.js:337-346 | an upsert puts the document under its (device id, timestamp) key, adds no other key and leaves every other key's document as it was |
| Persistence.UpsertAll | lib/impl/me-data-statistics.js:333-346 | a series of upserts leaves exactly the collection's keys and the keys of the upserted documents |
| Persistence.UpsertAllOtherKeys | lib/impl/me-data-statistics.js:337-346 | upserts leave every key they do not name as it was |
| Persistence.UpsertAllLastWins | lib/impl/me-data-statistics.js:337-346 | after a series of upserts, a key holds the last document upserted under it |
| Persistence.UpsertAllIdempotent | lib/impl/me-data-statistics.js:337-346 | repeating the same upserts changes nothing |
| Persistence.PersistedStamped | lib/impl/me-data-statistics.js:333-336 | every document the persist step writes is stamped with the window's start |
| Persistence.PersistedWithoutFailures | lib/impl/me-data-statistics.js:333-355 | with no failed upsert, every result is written, normalised, in order |
| Persistence.AnswersAt | lib/impl/me-data-statistics.js:346-355 | the answer list has one entry per result: the normalised result, or none exactly where the upsert failed |
| Persistence.PersistedDistinctStored | lib/impl/me-data-statistics.js:333-355 | results of distinct devices, none failing, each end up stored, normalised, under (device id, window start) |
| Service.StatisticsService.constructor | lib/impl/me-data-statistics.js:246-252 | the service starts over the four rollup collections as they are |
| Service.StatisticsService.Statistics | lib/impl/me-data-statistics.js:278-363 | one run answers and leaves the collections exactly as `StatisticsEffect` describes: route, map-reduce, persist |
| Service.StatisticsService.Persist | lib/impl/me-data-statistics.js:333-358 | the persist loop leaves the collections as `AfterPersist` describes and answers what each upsert returned |
| Service.StatisticsService.StatisticsAll | lib/impl/me-data-statistics.js:190-230 | the four tiers run in order, each window computed from its own clock reading, each tier after the first reading the collection the tier before it has just written |
| Service.StatisticsEffect | lib/impl/me-data-statistics.js:278-363 | a run answers 200 exactly when the report type routes and the map-reduce command succeeds, and it neither adds nor drops a collection |
| Service.AfterPersist | lib/impl/me-data-statistics.js:333-358 | the persist step touches no collection but the destination, and the destination loses no document |
| Service.ResultReadByNextTier | lib/impl/me-data-statistics.js:290-358 | what a tier stores is read back by the next tier: when the next tier's documents list the destination, every device of the window has its normalised result among them |
| Service.ReduceGroups | lib/impl/me-data-statistics.js:320-324 | the reduce phase calls the route's reducer on each group of several values, passes single values through, and so yields the command's output |
| Service.TierMessage | lib/impl/me-data-statistics.js:192-223 | the request built for tier i names report type i and a non-empty window |
| Service.TierMessages | lib/impl/me-data-statistics.js:192-223 | the requests of the four tiers, tier i built from clock reading i |
| Service.TiersEffect | lib/impl/me-data-statistics.js:190-230 | after n tiers there are n responses and every rollup collection is still present |
| Service.AfterPersistFrame | lib/impl/me-data-statistics.js:333-358 | the persist step changes only the destination collection, and there only keys stamped with the window's start |
| Service.InvalidReportTypeChangesNothing | lib/impl/me-data-statistics.js:307-311 | an unknown report type is answered with 200001 and its message, and nothing is written |
| Service.MapReduceFailureChangesNothing | lib/impl/me-data-statistics.js:324-330 | a failing map-reduce command is answered with 200000 and the error's text, and nothing is written |
| Service.StatisticsAnswers | lib/impl/me-data-statistics.js:355-357 | a successful run answers 200, echoes the request, and has one result per device of the window, empty exactly where the upsert failed |
| Service.StatisticsWritesOnlyDestination | lib/impl/me-data-statistics.js:313-358 | a successful run writes only the destination collection, and there only keys stamped with the window's start |
| Service.StatisticsIdempotent | lib/impl/me-data-statistics.js:278-363 | running the same request again over what the first run left, with the same documents, answers the same and changes nothing more |
| Service.StatisticsStoresEveryDevice | lib/impl/me-data-statistics.js:313-358 | with no failed upsert, every device with a document in the window ends up in the destination under (device id, window start), holding its result normalised |
| Service.TiersAnswer | lib/impl/me-data-statistics.js:190-230 | in a full cycle no tier is answered 200001; a tier answers 200 exactly when its map-reduce succeeds, and its data names its own request |

## Left out

- Aggregation.DailyDataReduce: it requires every field a rule reads to be present (`Readable`). In the source a missing field reads as `undefined`, and the sums and means become `NaN`.
- Aggregation.DataReduce: the same requirement and the same reason.
- Service.StatisticsService.Statistics: it requires every device group of two or more documents to be readable by its reducer (`Admissible`), for the same reason.
- Service.StatisticsService.StatisticsAll: it requires the same of every tier.
- The documents a request reads come in as a parameter. For the rollup sources, `Statistics` and `StatisticsAll` require them to list the collection the service holds (`ReadsSource`). The raw `data` collection is not held by the service, so its documents are unconstrained.
- Persistence.Upsert: the model stores and answers the normalised result, without `_id`. Mongoose sends the update as `$set`, so a document that was there keeps its `_id`, and an inserted one gets a fresh `_id`. The stored and answered documents carry that `_id`. Document ids are not modelled.
- Output order:
  - MongoDB returns map-reduce results sorted by key. `MapReduce.Output` lists them in order of each device's first document instead.
  - Upserts of distinct keys commute, so the collections come out the same either way. Only the order of the answer list differs.
- Re-reduce: MongoDB may call a reducer again on its own partial results. The model reduces each key's values in one call.
- The `stats` object of the map-reduce answer is not modelled, and so is not part of the response.
- The initial empty `data: {}` of a response is modelled as no data.
- Request validation against the JSON schema (`messageValidate`) is not modelled. That code is not part of this model.
- Callback plumbing, `async.mapSeries`, logging and the commented-out `node-schedule` job are not modelled.
- Database connection set-up and the `VirtualDevice` base are not modelled.
- Windows and Calendar:
  - The local time zone has a fixed offset with no daylight-saving changes, so every local day lasts 24 hours.
  - Instants are non-negative on the UTC clock and on the local one.
  - The ISO-string round trip of `$gte`/`$lt` is the identity.
- Calendar.SetHours: it requires an in-range hour, minute, second and millisecond. These are the only values the source passes, so setter overflow other than month-into-year is not modelled.
- Calendar.SetMonth: it requires the day to exist in the target month. The source only passes day 1, so a day that overflows into the next month is not modelled.
- Calendar.SetFullYear: it requires the date to exist in the new year. The source only calls it on January 1, so the February 29 rollover is not modelled.
- Readings are real numbers rather than IEEE doubles. Rounding, `NaN` and infinities are not modelled.
