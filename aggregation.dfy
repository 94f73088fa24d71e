/** The two per-device-type reducers of the rollup chain.

    Both reducers start from a copy of the first record (without `__v` and
    `_id`) and rewrite some fields of its `data` according to the record's
    device type. Which fields, and how, is written down here once as a table
    of rules per device type; the reducers themselves are written as the
    source writes them, one branch per device type with a summing loop per
    field, and are proved to compute `Reduction(values, table)`. */
module Aggregation {
  import opened Telemetry

  /** How a reducer rewrites one field of the first record's `data`. */
  datatype Rule =
    | Mean              // sum over all inputs divided by their number
    | Total             // sum over all inputs
    | Delta             // last input minus first input, only when there are several
    | DirectionalPower  // (signed volt sum / n) * (signed current sum / n) / 100
    | Drop              // field removed

  /** Field rules in the order the source applies them. */
  type Table = seq<(string, Rule)>

  /** The rules of `dailyDataReduce`, which rolls raw records up into an hour.
      Only the five known device types have rules; no field is named twice,
      and the hourly reducer never sums a field outright. */
  function DailyTable(devType: string): (t: Table)
    ensures |t| > 0 <==> devType in [TemperatureType, MeterType, DirectionalType, StorageType, InverterType]
    ensures DistinctFields(t)
    ensures forall i :: 0 <= i < |t| ==> t[i].1 != Total
  {
    if devType == TemperatureType then
      [(DIS_TEMP, Mean)]
    else if devType == MeterType then
      [(POWER, Mean), (ENERGY_USED, Delta), (ENERGY_SAVED, Delta)]
    else if devType == DirectionalType then
      assert DIRECT[2] == 'r' && TO_GRID[2] == 'G' && TO_USER[2] == 'U';
      [(POWER, DirectionalPower), (EFFECTIVE_VOLT, Drop), (EFFECTIVE_CURRENT, Drop), (DIRECT, Drop),
       (TO_GRID, Delta), (TO_USER, Delta)]
    else if devType == StorageType then
      assert E_DISCHARGE_TOTAL[1] == 'D' && E_CHARGE_TOTAL[1] == 'C' && E_TO_GRID_TOTAL[1] == 'T';
      assert PAC_TO_GRID[5] == 'G' && PAC_TO_USER[5] == 'U';
      [(PAC_TO_GRID, Mean), (PAC_TO_USER, Mean),
       (E_DISCHARGE_TOTAL, Delta), (E_CHARGE_TOTAL, Delta), (E_TO_GRID_TOTAL, Delta)]
    else if devType == InverterType then
      [(CURRENT_POWER, Mean), (TOTAL_ENERGY, Delta)]
    else
      []
  }

  /** The rules of `dataReduce`, which rolls one tier's records up into the
      next. It only averages and sums, each field at most once, and it carries
      every field the hourly reducer keeps: a field averaged per hour (the
      directional power included) is averaged again, a per-hour difference of
      a meter reading is summed. */
  function RollupTable(devType: string): (t: Table)
    ensures |t| == 0 <==> |DailyTable(devType)| == 0
    ensures DistinctFields(t)
    ensures forall i :: 0 <= i < |t| ==> t[i].1 == Mean || t[i].1 == Total
    ensures forall i :: 0 <= i < |DailyTable(devType)| ==>
      match DailyTable(devType)[i].1
      case Mean | DirectionalPower => (DailyTable(devType)[i].0, Mean) in t
      case Delta => (DailyTable(devType)[i].0, Total) in t
      case _ => true
  {
    if devType == TemperatureType then
      [(DIS_TEMP, Mean)]
    else if devType == MeterType then
      [(POWER, Mean), (ENERGY_USED, Total), (ENERGY_SAVED, Total)]
    else if devType == DirectionalType then
      assert TO_GRID[2] == 'G' && TO_USER[2] == 'U';
      [(POWER, Mean), (TO_GRID, Total), (TO_USER, Total)]
    else if devType == StorageType then
      assert E_DISCHARGE_TOTAL[1] == 'D' && E_CHARGE_TOTAL[1] == 'C' && E_TO_GRID_TOTAL[1] == 'T';
      assert PAC_TO_GRID[5] == 'G' && PAC_TO_USER[5] == 'U';
      [(PAC_TO_GRID, Mean), (PAC_TO_USER, Mean),
       (E_DISCHARGE_TOTAL, Total), (E_CHARGE_TOTAL, Total), (E_TO_GRID_TOTAL, Total)]
    else if devType == InverterType then
      [(CURRENT_POWER, Mean), (TOTAL_ENERGY, Total)]
    else
      []
  }

  predicate DistinctFields(table: Table)
  {
    forall i, j :: 0 <= i < j < |table| ==> table[i].0 != table[j].0
  }

  predicate AllHave(values: seq<Record>, k: string)
  {
    forall i :: 0 <= i < |values| ==> k in values[i].data
  }

  /** Sum of field `k` over `values`, accumulated front to back. */
  function Sum(values: seq<Record>, k: string): real
    requires AllHave(values, k)
    decreases |values|
  {
    if |values| == 0 then 0.0 else Sum(values[..|values| - 1], k) + values[|values| - 1].data[k]
  }

  /** A record whose `direct` flag is 16 adds its readings, one whose flag is 17
      subtracts them; any other record (a missing flag included) adds nothing. */
  predicate Forward(r: Record)
  {
    DIRECT in r.data && r.data[DIRECT] == 16.0
  }

  predicate Reverse(r: Record)
  {
    DIRECT in r.data && r.data[DIRECT] == 17.0
  }

  /** Every record that contributes to a signed sum carries field `k`. */
  predicate SignedHave(values: seq<Record>, k: string)
  {
    forall i :: 0 <= i < |values| ==> (Forward(values[i]) || Reverse(values[i])) ==> k in values[i].data
  }

  function Signed(r: Record, k: string): real
    requires (Forward(r) || Reverse(r)) ==> k in r.data
  {
    if Forward(r) then r.data[k] else if Reverse(r) then -r.data[k] else 0.0
  }

  function SignedSum(values: seq<Record>, k: string): real
    requires SignedHave(values, k)
    decreases |values|
  {
    if |values| == 0 then 0.0
    else SignedSum(values[..|values| - 1], k) + Signed(values[|values| - 1], k)
  }

  /** The fields a rule reads are present where the source reads them. */
  predicate Supports(values: seq<Record>, entry: (string, Rule))
  {
    match entry.1
    case Mean => AllHave(values, entry.0)
    case Total => AllHave(values, entry.0)
    case Delta => |values| > 1 ==> entry.0 in values[0].data && entry.0 in values[|values| - 1].data
    case DirectionalPower => SignedHave(values, EFFECTIVE_VOLT) && SignedHave(values, EFFECTIVE_CURRENT)
    case Drop => true
  }

  /** A non-empty input on which every rule of the table can be evaluated. */
  predicate Readable(values: seq<Record>, table: Table)
  {
    |values| >= 1 && forall j :: 0 <= j < |table| ==> Supports(values, table[j])
  }

  /** The new value of a field that a rule writes. */
  function FieldValue(values: seq<Record>, entry: (string, Rule)): real
    requires |values| >= 1 && Supports(values, entry)
    requires entry.1 != Drop && (entry.1 == Delta ==> |values| > 1)
  {
    var (k, rule) := entry;
    var n := |values| as real;
    match rule
    case Mean => Sum(values, k) / n
    case Total => Sum(values, k)
    case Delta => values[|values| - 1].data[k] - values[0].data[k]
    case DirectionalPower =>
      (SignedSum(values, EFFECTIVE_VOLT) / n) * (SignedSum(values, EFFECTIVE_CURRENT) / n) / 100.0
  }

  /** One rule applied to `data`. */
  function Step(values: seq<Record>, data: map<string, real>, entry: (string, Rule)): map<string, real>
    requires |values| >= 1 && Supports(values, entry)
  {
    if entry.1 == Drop then data - {entry.0}
    else if entry.1 == Delta && |values| == 1 then data
    else data[entry.0 := FieldValue(values, entry)]
  }

  /** All rules of the table applied to `data`, in order. */
  function Apply(values: seq<Record>, data: map<string, real>, table: Table): map<string, real>
    requires Readable(values, table)
    decreases |table|
  {
    if table == [] then data else Apply(values, Step(values, data, table[0]), table[1..])
  }

  /** What a reducer returns: a copy of the first record with `__v` and `_id`
      removed and its `data` rewritten by the table. */
  function Reduction(values: seq<Record>, table: Table): (r: Record)
    requires Readable(values, table)
    ensures r.uuid == values[0].uuid && r.userId == values[0].userId && r.devType == values[0].devType
    ensures r.timestamp == values[0].timestamp && r.offset == values[0].offset
    ensures r.version == None && r.id == None
  {
    Strip(values[0]).(data := Apply(values, values[0].data, table))
  }

  // ---------------------------------------------------------------------
  // The reducers as the source writes them.
  // ---------------------------------------------------------------------

  lemma SumStep(values: seq<Record>, k: string, i: nat)
    requires i < |values| && AllHave(values, k)
    ensures Sum(values[..i + 1], k) == Sum(values[..i], k) + values[i].data[k]
  {
    assert values[..i + 1][..i] == values[..i];
  }

  lemma SignedSumStep(values: seq<Record>, k: string, i: nat)
    requires i < |values| && SignedHave(values, k)
    ensures SignedSum(values[..i + 1], k) == SignedSum(values[..i], k) + Signed(values[i], k)
  {
    assert values[..i + 1][..i] == values[..i];
  }

  /** The summing `forEach` loop of a reducer branch: one pass over the
      inputs accumulating every field of `keys`. */
  method Accumulate(values: seq<Record>, keys: seq<string>) returns (sums: seq<real>)
    requires forall j :: 0 <= j < |keys| ==> AllHave(values, keys[j])
    ensures |sums| == |keys|
    ensures forall j :: 0 <= j < |keys| ==> sums[j] == Sum(values, keys[j])
  {
    sums := seq(|keys|, j => 0.0);
    for i := 0 to |values|
      invariant |sums| == |keys|
      invariant forall j :: 0 <= j < |keys| ==> sums[j] == Sum(values[..i], keys[j])
    {
      var item := values[i];
      forall j | 0 <= j < |keys|
        ensures Sum(values[..i + 1], keys[j]) == Sum(values[..i], keys[j]) + item.data[keys[j]]
      {
        SumStep(values, keys[j], i);
      }
      sums := seq(|keys|, j requires 0 <= j < |keys| && j < |sums| => sums[j] + item.data[keys[j]]);
    }
    assert values[..|values|] == values;
  }

  /** The loop of `dailyDataReduce` for `040B01000001`: volt and current are
      added for `direct == 16`, subtracted for `direct == 17`. */
  method AccumulateSigned(values: seq<Record>) returns (sumVolt: real, sumCurrent: real)
    requires SignedHave(values, EFFECTIVE_VOLT) && SignedHave(values, EFFECTIVE_CURRENT)
    ensures sumVolt == SignedSum(values, EFFECTIVE_VOLT)
    ensures sumCurrent == SignedSum(values, EFFECTIVE_CURRENT)
  {
    sumVolt, sumCurrent := 0.0, 0.0;
    for i := 0 to |values|
      invariant sumVolt == SignedSum(values[..i], EFFECTIVE_VOLT)
      invariant sumCurrent == SignedSum(values[..i], EFFECTIVE_CURRENT)
    {
      SignedSumStep(values, EFFECTIVE_VOLT, i);
      SignedSumStep(values, EFFECTIVE_CURRENT, i);
      var item := values[i];
      if DIRECT in item.data && item.data[DIRECT] == 16.0 {
        sumVolt := sumVolt + item.data[EFFECTIVE_VOLT];
        sumCurrent := sumCurrent + item.data[EFFECTIVE_CURRENT];
      } else if DIRECT in item.data && item.data[DIRECT] == 17.0 {
        sumVolt := sumVolt - item.data[EFFECTIVE_VOLT];
        sumCurrent := sumCurrent - item.data[EFFECTIVE_CURRENT];
      }
    }
    assert values[..|values|] == values;
  }

  /** `dailyDataReduce`: means of the instantaneous readings, last-minus-first
      of the counters, and for `040B01000001` a power computed from signed
      volt and current sums. Each device-type branch is its own method below. */
  method DailyDataReduce(values: seq<Record>) returns (record: Record)
    requires |values| >= 1
    requires Readable(values, DailyTable(values[0].devType))
    ensures record == Reduction(values, DailyTable(values[0].devType))
  {
    record := Strip(values[0]);
    var data := record.data;
    if record.devType == TemperatureType {
      data := DailyTemperature(values);
    } else if record.devType == MeterType {
      data := DailyMeter(values);
    } else if record.devType == DirectionalType {
      data := DailyDirectional(values);
    } else if record.devType == StorageType {
      data := DailyStorage(values);
    } else if record.devType == InverterType {
      data := DailyInverter(values);
    }
    record := record.(data := data);
  }

  method DailyTemperature(values: seq<Record>) returns (data: map<string, real>)
    requires |values| >= 1 && values[0].devType == TemperatureType
    requires Readable(values, DailyTable(TemperatureType))
    ensures data == Apply(values, values[0].data, DailyTable(TemperatureType))
  {
    ghost var table := DailyTable(TemperatureType);
    var n := |values| as real;
    data := values[0].data;
    assert Supports(values, table[0]);
    var sums := Accumulate(values, [DIS_TEMP]);
    data := data[DIS_TEMP := sums[0] / n];
    assert data == Step(values, values[0].data, table[0]);
    ApplyUnfolds(values, values[0].data, table);
  }

  method DailyMeter(values: seq<Record>) returns (data: map<string, real>)
    requires |values| >= 1 && values[0].devType == MeterType
    requires Readable(values, DailyTable(MeterType))
    ensures data == Apply(values, values[0].data, DailyTable(MeterType))
  {
    ghost var table := DailyTable(MeterType);
    var n := |values| as real;
    var last := |values| - 1;
    data := values[0].data;
    assert Supports(values, table[0]) && Supports(values, table[1]) && Supports(values, table[2]);
    var sums := Accumulate(values, [POWER]);
    data := data[POWER := sums[0] / n];
    ghost var d0 := data;
    if |values| > 1 {
      data := data[ENERGY_USED := values[last].data[ENERGY_USED] - values[0].data[ENERGY_USED]];
      data := data[ENERGY_SAVED := values[last].data[ENERGY_SAVED] - values[0].data[ENERGY_SAVED]];
    }
    assert d0 == Step(values, values[0].data, table[0]);
    assert data == Step(values, Step(values, d0, table[1]), table[2]);
    ApplyUnfolds(values, values[0].data, table);
  }

  method DailyDirectional(values: seq<Record>) returns (data: map<string, real>)
    requires |values| >= 1 && values[0].devType == DirectionalType
    requires Readable(values, DailyTable(DirectionalType))
    ensures data == Apply(values, values[0].data, DailyTable(DirectionalType))
  {
    ghost var table := DailyTable(DirectionalType);
    var n := |values| as real;
    var last := |values| - 1;
    data := values[0].data;
    assert Supports(values, table[0]) && Supports(values, table[4]) && Supports(values, table[5]);
    var sumEffectiveVolt, sumEffectiveCurrent := AccumulateSigned(values);
    data := data[POWER := (sumEffectiveVolt / n) * (sumEffectiveCurrent / n) / 100.0];
    ghost var d0 := data;
    data := data - {EFFECTIVE_VOLT};
    data := data - {EFFECTIVE_CURRENT};
    data := data - {DIRECT};
    ghost var d1 := data;
    if |values| > 1 {
      data := data[TO_GRID := values[last].data[TO_GRID] - values[0].data[TO_GRID]];
      data := data[TO_USER := values[last].data[TO_USER] - values[0].data[TO_USER]];
    }
    assert FieldValue(values, table[0]) == (sumEffectiveVolt / n) * (sumEffectiveCurrent / n) / 100.0;
    assert d0 == Step(values, values[0].data, table[0]);
    assert d1 == Step(values, Step(values, Step(values, d0, table[1]), table[2]), table[3]);
    assert data == Step(values, Step(values, d1, table[4]), table[5]);
    ApplyUnfolds(values, values[0].data, table);
  }

  method DailyStorage(values: seq<Record>) returns (data: map<string, real>)
    requires |values| >= 1 && values[0].devType == StorageType
    requires Readable(values, DailyTable(StorageType))
    ensures data == Apply(values, values[0].data, DailyTable(StorageType))
  {
    ghost var table := DailyTable(StorageType);
    var n := |values| as real;
    var last := |values| - 1;
    data := values[0].data;
    assert Supports(values, table[0]) && Supports(values, table[1]);
    assert Supports(values, table[2]) && Supports(values, table[3]) && Supports(values, table[4]);
    var sums := Accumulate(values, [PAC_TO_GRID, PAC_TO_USER]);
    data := data[PAC_TO_GRID := sums[0] / n];
    data := data[PAC_TO_USER := sums[1] / n];
    ghost var d0 := data;
    if |values| > 1 {
      data := data[E_DISCHARGE_TOTAL := values[last].data[E_DISCHARGE_TOTAL] - values[0].data[E_DISCHARGE_TOTAL]];
      data := data[E_CHARGE_TOTAL := values[last].data[E_CHARGE_TOTAL] - values[0].data[E_CHARGE_TOTAL]];
      data := data[E_TO_GRID_TOTAL := values[last].data[E_TO_GRID_TOTAL] - values[0].data[E_TO_GRID_TOTAL]];
    }
    assert d0 == Step(values, Step(values, values[0].data, table[0]), table[1]);
    assert data == Step(values, Step(values, Step(values, d0, table[2]), table[3]), table[4]);
    ApplyUnfolds(values, values[0].data, table);
  }

  method DailyInverter(values: seq<Record>) returns (data: map<string, real>)
    requires |values| >= 1 && values[0].devType == InverterType
    requires Readable(values, DailyTable(InverterType))
    ensures data == Apply(values, values[0].data, DailyTable(InverterType))
  {
    ghost var table := DailyTable(InverterType);
    var n := |values| as real;
    var last := |values| - 1;
    data := values[0].data;
    assert Supports(values, table[0]) && Supports(values, table[1]);
    var sums := Accumulate(values, [CURRENT_POWER]);
    data := data[CURRENT_POWER := sums[0] / n];
    ghost var d0 := data;
    if |values| > 1 {
      data := data[TOTAL_ENERGY := values[last].data[TOTAL_ENERGY] - values[0].data[TOTAL_ENERGY]];
    }
    assert d0 == Step(values, values[0].data, table[0]);
    assert data == Step(values, d0, table[1]);
    ApplyUnfolds(values, values[0].data, table);
  }

  /** `dataReduce`: means of the instantaneous readings and plain sums of the
      cumulative ones. */
  method DataReduce(values: seq<Record>) returns (record: Record)
    requires |values| >= 1
    requires Readable(values, RollupTable(values[0].devType))
    ensures record == Reduction(values, RollupTable(values[0].devType))
  {
    ghost var table := RollupTable(values[0].devType);
    record := Strip(values[0]);
    var n := |values| as real;
    var data := record.data;
    if record.devType == TemperatureType {
      assert Supports(values, table[0]);
      var sums := Accumulate(values, [DIS_TEMP]);
      data := data[DIS_TEMP := sums[0] / n];
      assert data == Step(values, values[0].data, table[0]);
    } else if record.devType == MeterType {
      assert Supports(values, table[0]) && Supports(values, table[1]) && Supports(values, table[2]);
      var sums := Accumulate(values, [POWER, ENERGY_USED, ENERGY_SAVED]);
      data := data[POWER := sums[0] / n];
      data := data[ENERGY_USED := sums[1]];
      data := data[ENERGY_SAVED := sums[2]];
      assert data == Step(values, Step(values, Step(values, values[0].data, table[0]), table[1]), table[2]);
    } else if record.devType == DirectionalType {
      assert Supports(values, table[0]) && Supports(values, table[1]) && Supports(values, table[2]);
      var sums := Accumulate(values, [TO_GRID, TO_USER, POWER]);
      data := data[POWER := sums[2] / n];
      data := data[TO_GRID := sums[0]];
      data := data[TO_USER := sums[1]];
      assert data == Step(values, Step(values, Step(values, values[0].data, table[0]), table[1]), table[2]);
    } else if record.devType == StorageType {
      assert Supports(values, table[0]) && Supports(values, table[1]);
      assert Supports(values, table[2]) && Supports(values, table[3]) && Supports(values, table[4]);
      var sums := Accumulate(values, [PAC_TO_GRID, PAC_TO_USER, E_DISCHARGE_TOTAL, E_CHARGE_TOTAL, E_TO_GRID_TOTAL]);
      data := data[PAC_TO_GRID := sums[0] / n];
      data := data[PAC_TO_USER := sums[1] / n];
      ghost var d0 := data;
      data := data[E_DISCHARGE_TOTAL := sums[2]];
      data := data[E_CHARGE_TOTAL := sums[3]];
      data := data[E_TO_GRID_TOTAL := sums[4]];
      assert d0 == Step(values, Step(values, values[0].data, table[0]), table[1]);
      assert data == Step(values, Step(values, Step(values, d0, table[2]), table[3]), table[4]);
    } else if record.devType == InverterType {
      assert Supports(values, table[0]) && Supports(values, table[1]);
      var sums := Accumulate(values, [CURRENT_POWER, TOTAL_ENERGY]);
      data := data[CURRENT_POWER := sums[0] / n];
      data := data[TOTAL_ENERGY := sums[1]];
      assert data == Step(values, Step(values, values[0].data, table[0]), table[1]);
    }
    record := record.(data := data);
    ApplyUnfolds(values, values[0].data, table);
  }

  /** `Apply` on a table of up to six rules, spelled out rule by rule. */
  lemma ApplyUnfolds(values: seq<Record>, data: map<string, real>, table: Table)
    requires Readable(values, table) && |table| <= 6
    decreases |table|
    ensures |table| == 0 ==> Apply(values, data, table) == data
    ensures |table| == 1 ==> Apply(values, data, table) == Step(values, data, table[0])
    ensures |table| == 2 ==> Apply(values, data, table) == Step(values, Step(values, data, table[0]), table[1])
    ensures |table| == 3 ==>
      (Apply(values, data, table)
       == Step(values, Step(values, Step(values, data, table[0]), table[1]), table[2]))
    ensures |table| == 4 ==>
      (Apply(values, data, table)
       == Step(values, Step(values, Step(values, Step(values, data, table[0]), table[1]), table[2]), table[3]))
    ensures |table| == 5 ==>
      (Apply(values, data, table)
       == Step(values, Step(values, Step(values,
            Step(values, Step(values, data, table[0]), table[1]), table[2]), table[3]), table[4]))
    ensures |table| == 6 ==>
      (Apply(values, data, table)
       == Step(values, Step(values, Step(values, Step(values, Step(values,
            Step(values, data, table[0]), table[1]), table[2]), table[3]), table[4]), table[5]))
  {
    if table != [] {
      ApplyUnfolds(values, Step(values, data, table[0]), table[1..]);
    }
  }

  // ---------------------------------------------------------------------
  // What the reducers compute, field by field.
  // ---------------------------------------------------------------------

  function Lookup(data: map<string, real>, k: string): Option<real>
  {
    if k in data then Some(data[k]) else None
  }

  /** Position of the rule for field `k` in the table, or -1 when it has none. */
  function IndexOf(table: Table, k: string): (i: int)
    ensures -1 <= i < |table|
    ensures i >= 0 ==> table[i].0 == k
    ensures i < 0 ==> forall j :: 0 <= j < |table| ==> table[j].0 != k
  {
    if table == [] then -1
    else if table[0].0 == k then 0
    else var i := IndexOf(table[1..], k); if i < 0 then -1 else i + 1
  }

  /** Field `k` of the result, read off the table: a field without a rule keeps
      the value it has in `base`, a dropped field is absent, a delta over a
      single input leaves the field as it was, and every other rule writes its
      value. */
  function Expected(values: seq<Record>, base: map<string, real>, table: Table, k: string): Option<real>
    requires Readable(values, table)
  {
    var i := IndexOf(table, k);
    if i < 0 then Lookup(base, k)
    else if table[i].1 == Drop then None
    else if table[i].1 == Delta && |values| == 1 then Lookup(base, k)
    else Some(FieldValue(values, table[i]))
  }

  /** Applying a table with one rule per field gives every field the value the
      table assigns it, and leaves every field without a rule unchanged. */
  lemma {:induction false} ApplyAt(values: seq<Record>, base: map<string, real>, table: Table, k: string)
    requires Readable(values, table) && DistinctFields(table)
    ensures Lookup(Apply(values, base, table), k) == Expected(values, base, table, k)
    decreases |table|
  {
    if table != [] {
      var rest := table[1..];
      assert Readable(values, rest) by {
        forall j | 0 <= j < |rest| ensures Supports(values, rest[j]) {
          assert rest[j] == table[j + 1];
        }
      }
      assert DistinctFields(rest) by {
        forall i, j | 0 <= i < j < |rest| ensures rest[i].0 != rest[j].0 {
          assert rest[i] == table[i + 1] && rest[j] == table[j + 1];
        }
      }
      ApplyAt(values, Step(values, base, table[0]), rest, k);
      if table[0].0 == k {
        assert IndexOf(rest, k) < 0 by {
          forall j | 0 <= j < |rest| ensures rest[j].0 != k {
            assert rest[j] == table[j + 1];
          }
        }
      } else {
        var i := IndexOf(rest, k);
        assert IndexOf(table, k) == if i < 0 then -1 else i + 1;
        assert i >= 0 ==> table[i + 1] == rest[i];
      }
    }
  }

  /** The field-by-field meaning of a reducer result. */
  lemma ReductionAt(values: seq<Record>, table: Table, k: string)
    requires Readable(values, table) && DistinctFields(table)
    ensures Lookup(Reduction(values, table).data, k) == Expected(values, values[0].data, table, k)
  {
    ApplyAt(values, values[0].data, table, k);
  }

  /** For a device type neither reducer knows, `data` is the first record's. */
  lemma UnknownTypeKeepsData(values: seq<Record>)
    requires |values| >= 1
    requires values[0].devType !in {TemperatureType, MeterType, DirectionalType, StorageType, InverterType}
    ensures Reduction(values, DailyTable(values[0].devType)).data == values[0].data
    ensures Reduction(values, RollupTable(values[0].devType)).data == values[0].data
  {
  }

  /** Rules that give back the input's own value when there is one input. */
  predicate Preserving(rule: Rule)
  {
    rule == Mean || rule == Total || rule == Delta
  }

  lemma {:induction false} SingleInputApply(values: seq<Record>, table: Table)
    requires |values| == 1 && Readable(values, table)
    requires forall j :: 0 <= j < |table| ==> Preserving(table[j].1)
    ensures Apply(values, values[0].data, table) == values[0].data
    decreases |table|
  {
    if table != [] {
      var data := values[0].data;
      var (k, rule) := table[0];
      assert Supports(values, table[0]);
      if rule != Delta {
        assert values[..0] == [];
        assert Sum(values, k) == data[k];
        assert data[k := data[k]] == data;
      }
      assert Step(values, data, table[0]) == data;
      var rest := table[1..];
      assert Readable(values, rest) && forall j :: 0 <= j < |rest| ==> Preserving(rest[j].1) by {
        forall j | 0 <= j < |rest| ensures Supports(values, rest[j]) && Preserving(rest[j].1) {
          assert rest[j] == table[j + 1];
        }
      }
      SingleInputApply(values, rest);
    }
  }

  /** `dataReduce` over a single record gives back that record's `data`. */
  lemma RollupSingleInputKeepsData(values: seq<Record>)
    requires |values| == 1 && Readable(values, RollupTable(values[0].devType))
    ensures Reduction(values, RollupTable(values[0].devType)).data == values[0].data
  {
    SingleInputApply(values, RollupTable(values[0].devType));
  }

  /** So does `dailyDataReduce`, except for `040B01000001`, whose power is
      recomputed and whose volt, current and direction fields are dropped. */
  lemma DailySingleInputKeepsData(values: seq<Record>)
    requires |values| == 1 && values[0].devType != DirectionalType
    requires Readable(values, DailyTable(values[0].devType))
    ensures Reduction(values, DailyTable(values[0].devType)).data == values[0].data
  {
    SingleInputApply(values, DailyTable(values[0].devType));
  }

  lemma {:induction false} SumBounds(values: seq<Record>, k: string, lo: real, hi: real)
    requires AllHave(values, k)
    requires forall i :: 0 <= i < |values| ==> lo <= values[i].data[k] <= hi
    ensures |values| as real * lo <= Sum(values, k) <= |values| as real * hi
    decreases |values|
  {
    if |values| > 0 {
      SumBounds(values[..|values| - 1], k, lo, hi);
    }
  }

  lemma MeanWithin(s: real, n: real, lo: real, hi: real)
    requires n > 0.0 && n * lo <= s <= n * hi
    ensures lo <= s / n <= hi
  {
    assert lo * n <= s && s <= hi * n;
  }

  /** An averaged field of the result lies between the smallest and the
      largest value the inputs carry. */
  lemma AveragedFieldWithinRange(values: seq<Record>, table: Table, k: string, lo: real, hi: real)
    requires Readable(values, table) && DistinctFields(table)
    requires IndexOf(table, k) >= 0 && table[IndexOf(table, k)].1 == Mean
    requires forall i :: 0 <= i < |values| ==> k in values[i].data && lo <= values[i].data[k] <= hi
    ensures k in Reduction(values, table).data
    ensures lo <= Reduction(values, table).data[k] <= hi
  {
    ReductionAt(values, table, k);
    assert Supports(values, table[IndexOf(table, k)]);
    var mean := Sum(values, k) / |values| as real;
    assert k in Reduction(values, table).data && Reduction(values, table).data[k] == mean;
    SumBounds(values, k, lo, hi);
    MeanWithin(Sum(values, k), |values| as real, lo, hi);
  }

  /** The record with its flow direction reversed (16 and 17 swapped). */
  function Flipped(r: Record): Record
  {
    if Forward(r) then r.(data := r.data[DIRECT := 17.0])
    else if Reverse(r) then r.(data := r.data[DIRECT := 16.0])
    else r
  }

  function FlippedAll(values: seq<Record>): (f: seq<Record>)
    ensures |f| == |values|
    ensures forall i :: 0 <= i < |values| ==> f[i] == Flipped(values[i])
  {
    seq(|values|, i requires 0 <= i < |values| => Flipped(values[i]))
  }

  lemma {:induction false} SignedSumFlipped(values: seq<Record>, k: string)
    requires SignedHave(values, k) && k != DIRECT
    ensures SignedHave(FlippedAll(values), k)
    ensures SignedSum(FlippedAll(values), k) == -SignedSum(values, k)
    decreases |values|
  {
    var f := FlippedAll(values);
    assert SignedHave(f, k) by {
      forall i | 0 <= i < |f| ensures (Forward(f[i]) || Reverse(f[i])) ==> k in f[i].data {
        assert f[i] == Flipped(values[i]);
      }
    }
    if |values| > 0 {
      var m := |values| - 1;
      var prefix := values[..m];
      SignedSumFlipped(prefix, k);
      assert f[..m] == FlippedAll(prefix);
      assert Forward(values[m]) ==> Reverse(f[m]) && !Forward(f[m]);
      assert Reverse(values[m]) ==> Forward(f[m]);
      assert Signed(f[m], k) == -Signed(values[m], k);
    }
  }

  lemma FlippedReadable(values: seq<Record>)
    requires Readable(values, DailyTable(DirectionalType))
    ensures Readable(FlippedAll(values), DailyTable(DirectionalType))
  {
    var table := DailyTable(DirectionalType);
    var f := FlippedAll(values);
    assert Supports(values, table[0]) && Supports(values, table[4]) && Supports(values, table[5]);
    SignedSumFlipped(values, EFFECTIVE_VOLT);
    SignedSumFlipped(values, EFFECTIVE_CURRENT);
    assert f[0] == Flipped(values[0]) && f[|f| - 1] == Flipped(values[|values| - 1]);
    assert Supports(f, table[0]) && Supports(f, table[4]) && Supports(f, table[5]);
    assert Supports(f, table[1]) && Supports(f, table[2]) && Supports(f, table[3]);
  }

  /** The field of a table's first rule, when that rule writes a value. */
  lemma FirstRuleValue(values: seq<Record>, table: Table)
    requires Readable(values, table) && DistinctFields(table) && |table| >= 1
    requires table[0].1 != Drop && table[0].1 != Delta
    ensures table[0].0 in Reduction(values, table).data
    ensures Reduction(values, table).data[table[0].0] == FieldValue(values, table[0])
  {
    assert Supports(values, table[0]);
    assert IndexOf(table, table[0].0) == 0;
    ReductionAt(values, table, table[0].0);
  }

  /** The hourly power of an `040B01000001` reduction. */
  lemma DirectionalPowerAt(values: seq<Record>)
    requires Readable(values, DailyTable(DirectionalType))
    ensures POWER in Reduction(values, DailyTable(DirectionalType)).data
    ensures Reduction(values, DailyTable(DirectionalType)).data[POWER]
         == FieldValue(values, (POWER, DirectionalPower))
  {
    var table := DailyTable(DirectionalType);
    assert table[0] == (POWER, DirectionalPower);
    FirstRuleValue(values, table);
  }

  lemma ProductOfNegations(v: real, c: real, n: real)
    requires n > 0.0
    ensures (-v / n) * (-c / n) / 100.0 == (v / n) * (c / n) / 100.0
  {
    assert -v / n == -(v / n) && -c / n == -(c / n);
  }

  /** The hourly power of `040B01000001` is the product of two signed means,
      so reversing the direction of every record leaves it unchanged: the
      rollup cannot tell a reversed flow from a forward one. */
  lemma DirectionalPowerIgnoresFlip(values: seq<Record>)
    requires Readable(values, DailyTable(DirectionalType))
    ensures Readable(FlippedAll(values), DailyTable(DirectionalType))
    ensures POWER in Reduction(values, DailyTable(DirectionalType)).data
    ensures POWER in Reduction(FlippedAll(values), DailyTable(DirectionalType)).data
    ensures Reduction(FlippedAll(values), DailyTable(DirectionalType)).data[POWER]
         == Reduction(values, DailyTable(DirectionalType)).data[POWER]
  {
    var table := DailyTable(DirectionalType);
    var f := FlippedAll(values);
    FlippedReadable(values);
    assert Supports(values, table[0]);
    SignedSumFlipped(values, EFFECTIVE_VOLT);
    SignedSumFlipped(values, EFFECTIVE_CURRENT);
    DirectionalPowerAt(values);
    DirectionalPowerAt(f);
    ProductOfNegations(SignedSum(values, EFFECTIVE_VOLT), SignedSum(values, EFFECTIVE_CURRENT), |values| as real);
  }
}
