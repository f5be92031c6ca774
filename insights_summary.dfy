/** The insights summary (`InsightsService.getInsightsSummary`): aggregate rows
    of the current and the previous period are folded into one value per event
    type and period, from which counts, rates and deviations are derived. */
module InsightsSummary {
  import opened Wrappers
  import opened InsightsShared

  /** An aggregate row as the by-period repository returns it: the period name
      (`current` or `previous`), the numeric type code and the summed value,
      None when the sum is null or zero. */
  datatype AggregateRow = AggregateRow(period: string, typeCode: int, totalValue: Option<int>)

  datatype SummaryPeriod = Current | Previous

  /** The period a row's period name selects, if any (`data[period]`). */
  function PeriodOf(name: string): (p: Option<SummaryPeriod>)
    ensures p == Some(Current) <==> name == "current"
    ensures p == Some(Previous) <==> name == "previous"
  {
    if name == "current" then Some(Current)
    else if name == "previous" then Some(Previous)
    else None
  }

  /** `total_value ? Number(total_value) : 0`. */
  function RowValue(row: AggregateRow): int {
    if row.totalValue.Some? then row.totalValue.value else 0
  }

  /** The row writes the entry of type `t` in period `p`. A code unknown to
      the table writes an entry under an undefined type, which is never read. */
  predicate Writes(row: AggregateRow, codes: TypeCodes, p: SummaryPeriod, t: TypeUnit) {
    PeriodOf(row.period) == Some(p) && row.typeCode in codes && codes[row.typeCode] == t
  }

  /** The `byType` map of period `p` after the rows have been folded in order. */
  function ByType(rows: seq<AggregateRow>, codes: TypeCodes, p: SummaryPeriod): map<TypeUnit, int>
    decreases |rows|
  {
    if rows == [] then map[]
    else
      var before := ByType(rows[..|rows| - 1], codes, p);
      var row := rows[|rows| - 1];
      if PeriodOf(row.period) == Some(p) && row.typeCode in codes
      then before[codes[row.typeCode] := RowValue(row)]
      else before
  }

  /** The last row that writes an entry decides its value: later rows
      overwrite earlier ones. */
  lemma {:induction false} LastWriteWins(rows: seq<AggregateRow>, codes: TypeCodes, p: SummaryPeriod, t: TypeUnit, i: nat)
    requires i < |rows| && Writes(rows[i], codes, p, t)
    requires forall j :: i < j < |rows| ==> !Writes(rows[j], codes, p, t)
    ensures t in ByType(rows, codes, p) && ByType(rows, codes, p)[t] == RowValue(rows[i])
  {
    if i < |rows| - 1 {
      LastWriteWins(rows[..|rows| - 1], codes, p, t, i);
    }
  }

  /** An entry that no row writes is absent (and so reads as 0). */
  lemma {:induction false} UnwrittenIsAbsent(rows: seq<AggregateRow>, codes: TypeCodes, p: SummaryPeriod, t: TypeUnit)
    requires forall j :: 0 <= j < |rows| ==> !Writes(rows[j], codes, p, t)
    ensures t !in ByType(rows, codes, p)
  {
    if rows != [] {
      UnwrittenIsAbsent(rows[..|rows| - 1], codes, p, t);
    }
  }

  /** `getValueByType`: a missing entry reads as 0. */
  function ValueOf(byType: map<TypeUnit, int>, t: TypeUnit): int {
    if t in byType then byType[t] else 0
  }

  /** A ratio guarded against a non-positive total (`total > 0 ? part / total : 0`),
      exact and without the source's rounding to two decimals. */
  function GuardedRatio(part: int, total: int): (r: real)
    ensures total <= 0 ==> r == 0.0
    ensures total > 0 ==> r * total as real == part as real
    ensures 0 <= part <= total ==> 0.0 <= r <= 1.0
  {
    if total > 0 then part as real / total as real else 0.0
  }

  datatype MetricUnit = Time | Count | Ratio

  /** A metric of the summary: its value in the current period, its unit, and
      its change from the previous period. */
  datatype CountMetric = CountMetric(value: int, unit: MetricUnit, deviation: int)
  datatype RatioMetric = RatioMetric(value: real, unit: MetricUnit, deviation: real)

  /** `InsightsSummary`. */
  datatype Summary = Summary(
    averageRunTime: RatioMetric,
    failed: CountMetric,
    failureRate: RatioMetric,
    timeSaved: CountMetric,
    total: CountMetric)

  /** The total number of recorded executions of a period. */
  function Total(byType: map<TypeUnit, int>): int {
    ValueOf(byType, TypeSuccess) + ValueOf(byType, TypeFailure)
  }

  /** The metrics derived from the folded entries of both periods. */
  function SummaryOf(current: map<TypeUnit, int>, previous: map<TypeUnit, int>): (s: Summary)
    // the total counts successes and failures; every deviation is current minus previous
    ensures s.total == CountMetric(Total(current), Count, Total(current) - Total(previous))
    ensures s.failed == CountMetric(ValueOf(current, TypeFailure), Count,
                                    ValueOf(current, TypeFailure) - ValueOf(previous, TypeFailure))
    ensures s.timeSaved == CountMetric(ValueOf(current, TypeTimeSavedMin), Time,
                                       ValueOf(current, TypeTimeSavedMin) - ValueOf(previous, TypeTimeSavedMin))
    // a period without executions has rate 0 and average runtime 0: no division by zero
    ensures Total(current) <= 0 ==> s.failureRate.value == 0.0 && s.averageRunTime.value == 0.0
    // otherwise the rate is the share of failures and the average the runtime per execution
    ensures Total(current) > 0 ==>
      && s.failureRate.value * Total(current) as real == ValueOf(current, TypeFailure) as real
      && s.averageRunTime.value * Total(current) as real == ValueOf(current, TypeRuntimeMs) as real
    ensures s.failureRate.deviation == s.failureRate.value - GuardedRatio(ValueOf(previous, TypeFailure), Total(previous))
    ensures s.averageRunTime.deviation == s.averageRunTime.value - GuardedRatio(ValueOf(previous, TypeRuntimeMs), Total(previous))
    ensures s.failureRate.unit == Ratio && s.averageRunTime.unit == Time
    // with non-negative counts the failure rate is a proportion
    ensures ValueOf(current, TypeSuccess) >= 0 && ValueOf(current, TypeFailure) >= 0 ==>
      0.0 <= s.failureRate.value <= 1.0
  {
    var currentFailureRate := GuardedRatio(ValueOf(current, TypeFailure), Total(current));
    var previousFailureRate := GuardedRatio(ValueOf(previous, TypeFailure), Total(previous));
    var currentAvgRuntime := GuardedRatio(ValueOf(current, TypeRuntimeMs), Total(current));
    var previousAvgRuntime := GuardedRatio(ValueOf(previous, TypeRuntimeMs), Total(previous));
    Summary(
      averageRunTime := RatioMetric(currentAvgRuntime, Time, currentAvgRuntime - previousAvgRuntime),
      failed := CountMetric(ValueOf(current, TypeFailure), Count,
                            ValueOf(current, TypeFailure) - ValueOf(previous, TypeFailure)),
      failureRate := RatioMetric(currentFailureRate, Ratio, currentFailureRate - previousFailureRate),
      timeSaved := CountMetric(ValueOf(current, TypeTimeSavedMin), Time,
                               ValueOf(current, TypeTimeSavedMin) - ValueOf(previous, TypeTimeSavedMin)),
      total := CountMetric(Total(current), Count, Total(current) - Total(previous)))
  }

  /** `getInsightsSummary`: folds the aggregate rows into the per-period maps
      in one pass, then derives the metrics. */
  method GetInsightsSummary(rows: seq<AggregateRow>, codes: TypeCodes) returns (s: Summary)
    ensures s == SummaryOf(ByType(rows, codes, Current), ByType(rows, codes, Previous))
  {
    var current: map<TypeUnit, int> := map[];
    var previous: map<TypeUnit, int> := map[];
    for i := 0 to |rows|
      invariant current == ByType(rows[..i], codes, Current)
      invariant previous == ByType(rows[..i], codes, Previous)
    {
      var row := rows[i];
      assert rows[..i + 1][..i] == rows[..i];
      var period := PeriodOf(row.period);
      if period.None? {
        continue;
      }
      if row.typeCode in codes {
        var value := RowValue(row);
        if period.value == Current {
          current := current[codes[row.typeCode] := value];
        } else {
          previous := previous[codes[row.typeCode] := value];
        }
      }
    }
    assert rows[..|rows|] == rows;
    s := SummaryOf(current, previous);
  }

  /** The summary of the four aggregate rows of five compacted events: two
      successes and two failures in the current period, one success and 123 ms
      of runtime in the previous one. */
  lemma CompactedDataSummary(codes: TypeCodes, success: int, failure: int, runtime: int)
    requires success in codes && codes[success] == TypeSuccess
    requires failure in codes && codes[failure] == TypeFailure
    requires runtime in codes && codes[runtime] == TypeRuntimeMs
    ensures
      var rows := [AggregateRow("current", success, Some(2)), AggregateRow("current", failure, Some(2)),
                   AggregateRow("previous", success, Some(1)), AggregateRow("previous", runtime, Some(123))];
      SummaryOf(ByType(rows, codes, Current), ByType(rows, codes, Previous)) ==
      Summary(
        averageRunTime := RatioMetric(0.0, Time, -123.0),
        failed := CountMetric(2, Count, 2),
        failureRate := RatioMetric(0.5, Ratio, 0.5),
        timeSaved := CountMetric(0, Time, 0),
        total := CountMetric(4, Count, 3))
  {
    var rows := [AggregateRow("current", success, Some(2)), AggregateRow("current", failure, Some(2)),
                 AggregateRow("previous", success, Some(1)), AggregateRow("previous", runtime, Some(123))];
    assert rows[..4] == rows;
    assert rows[..4][..3] == rows[..3] && rows[..3][..2] == rows[..2];
    assert rows[..2][..1] == rows[..1] && rows[..1][..0] == [];
    assert PeriodOf("current") == Some(Current) && PeriodOf("previous") == Some(Previous);
    assert ByType(rows[..1], codes, Current) == map[TypeSuccess := 2];
    assert ByType(rows[..2], codes, Current) == map[TypeSuccess := 2, TypeFailure := 2];
    assert ByType(rows[..3], codes, Current) == map[TypeSuccess := 2, TypeFailure := 2];
    assert ByType(rows, codes, Current) == map[TypeSuccess := 2, TypeFailure := 2];
    assert ByType(rows[..1], codes, Previous) == map[];
    assert ByType(rows[..2], codes, Previous) == map[];
    assert ByType(rows[..3], codes, Previous) == map[TypeSuccess := 1];
    assert ByType(rows, codes, Previous) == map[TypeSuccess := 1, TypeRuntimeMs := 123];
  }
}
