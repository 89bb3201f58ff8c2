/**
 * The daily assessment of an hourly record: daily metrics, then streaks and
 * risk states, then the risk multiplier with its default weights.
 */
module Pipeline {
  import opened HourlyMetrics
  import opened DailyMetrics
  import opened RiskStates

  /** The daily-metric part of each classified row. */
  function Days(rows: seq<RiskRow>): seq<DailyRecord> {
    seq(|rows|, k requires 0 <= k < |rows| => rows[k].annotated.day)
  }

  /** The cumulative loads of a daily table are non-negative and never fall from one day to a later one. */
  lemma CumulativeLoadsRise(daily: seq<DailyRecord>, i: nat, j: nat)
    requires forall load :: AllNonNegative(CumulativeColumn(daily, load)) && NonDecreasing(CumulativeColumn(daily, load))
    requires i <= j < |daily|
    ensures 0.0 <= daily[i].cumulativeCfl <= daily[j].cumulativeCfl
    ensures 0.0 <= daily[i].cumulativePhwe <= daily[j].cumulativePhwe
  {
    assert CumulativeColumn(daily, Cfl)[i] == daily[i].cumulativeCfl;
    assert CumulativeColumn(daily, Cfl)[j] == daily[j].cumulativeCfl;
    assert CumulativeColumn(daily, Phwe)[i] == daily[i].cumulativePhwe;
    assert CumulativeColumn(daily, Phwe)[j] == daily[j].cumulativePhwe;
  }

  /**
   * From one day to the next, the risk state can lose severity and the risk
   * multiplier can fall only on a day whose compound streak is 0: the
   * cumulative loads never fall, so a broken streak is the only way down.
   */
  lemma OnlyBrokenStreakLowersRisk(rows: seq<RiskRow>, multipliers: seq<real>, k: nat)
    requires forall load :: AllNonNegative(CumulativeColumn(Days(rows), load)) && NonDecreasing(CumulativeColumn(Days(rows), load))
    requires IsStreakAnnotation(Days(rows), Annotations(rows))
    requires forall j :: 0 <= j < |rows| ==>
               rows[j].riskState == Classify(rows[j].annotated.day.cumulativeCfl, rows[j].annotated.day.cumulativePhwe,
                                             rows[j].annotated.consecutiveCompoundCycles)
    requires multipliers == ComputeRiskMultiplier(rows, DefaultNormCfl, DefaultNormPhwe, DefaultStreakFactor)
    requires 0 < k < |rows|
    ensures Severity(rows[k].riskState) < Severity(rows[k - 1].riskState) ==> rows[k].annotated.consecutiveCompoundCycles == 0
    ensures multipliers[k] < multipliers[k - 1] ==> rows[k].annotated.consecutiveCompoundCycles == 0
  {
    var prev, cur := rows[k - 1].annotated, rows[k].annotated;
    assert Days(rows)[k - 1] == prev.day && Days(rows)[k] == cur.day;
    CumulativeLoadsRise(Days(rows), k - 1, k);
    var flags, counts := FlagColumn(Annotations(rows), Compound), CountColumn(Annotations(rows), Compound);
    assert counts[k] == if Truthy(flags[k]) then (if k == 0 then 0 else counts[k - 1]) + 1 else 0;
    assert counts[k] == cur.consecutiveCompoundCycles && counts[k - 1] == prev.consecutiveCompoundCycles;
    if cur.consecutiveCompoundCycles != 0 {
      ClassifyMonotone(prev.day.cumulativeCfl, prev.day.cumulativePhwe, prev.consecutiveCompoundCycles,
                       cur.day.cumulativeCfl, cur.day.cumulativePhwe, cur.consecutiveCompoundCycles);
      RiskMultiplierMonotone(prev.day.cumulativeCfl, prev.day.cumulativePhwe, prev.consecutiveCompoundCycles,
                             cur.day.cumulativeCfl, cur.day.cumulativePhwe, cur.consecutiveCompoundCycles,
                             DefaultNormCfl, DefaultNormPhwe, DefaultStreakFactor);
    }
  }

  /**
   * The whole daily assessment of a well-formed hourly record: one row per
   * calendar day from the first hour's to the last hour's, carrying the daily
   * table of the record's frame, its streak columns and its risk state, and a
   * risk multiplier of at least 1 per day.
   */
  method Assess(cfg: Config, hours: seq<HourlyRecord>) returns (rows: seq<RiskRow>, multipliers: seq<real>)
    requires WellFormedInput(hours)
    ensures IsDailyTable(Days(rows), HourRows(cfg, hours), FirstDay(hours), LastDay(hours) - FirstDay(hours) + 1)
    ensures IsStreakAnnotation(Days(rows), Annotations(rows))
    ensures forall k :: 0 <= k < |rows| ==>
              rows[k].riskState == Classify(rows[k].annotated.day.cumulativeCfl, rows[k].annotated.day.cumulativePhwe,
                                            rows[k].annotated.consecutiveCompoundCycles)
    ensures multipliers == ComputeRiskMultiplier(rows, DefaultNormCfl, DefaultNormPhwe, DefaultStreakFactor)
    ensures forall k :: 0 <= k < |multipliers| ==> multipliers[k] >= 1.0
  {
    var daily := ComputeDailyMetrics(cfg, hours);
    rows := AssignRiskState(daily);
    assert Days(rows) == daily;
    multipliers := ComputeRiskMultiplier(rows, DefaultNormCfl, DefaultNormPhwe, DefaultStreakFactor);
    forall k | 0 <= k < |multipliers|
      ensures multipliers[k] >= 1.0
    {
      CumulativeLoadsRise(daily, k, k);
    }
  }
}
