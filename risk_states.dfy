/**
 * Streak tracking and risk classification over the daily table: two "hot"
 * flags per day and their conjunction, a run-length counter per flag, a
 * three-level risk state with Failure taking precedence over Straining, and a
 * linear risk multiplier.
 */
module RiskStates {
  import opened Wrappers
  import opened DailyMetrics

  // A day is hot when its load strictly exceeds these.
  const HotDayCfl: real := 6.0
  const HotNightPhwe: real := 3.0

  // Straining tier: any one of these on a day.
  const StrainingMinCfl: real := 40.0
  const StrainingMinPhwe: real := 20.0
  const StrainingMinCompoundStreak: nat := 2

  // Failure tier: any one of these on a day.
  const FailureMinCfl: real := 80.0
  const FailureMinPhwe: real := 40.0
  const FailureMinCompoundStreak: nat := 4

  // Defaults of the risk multiplier.
  const DefaultNormCfl: real := 40.0
  const DefaultNormPhwe: real := 20.0
  const DefaultStreakFactor: real := 0.5

  /** A flag value counts as set only when present and true; a missing value counts as false. */
  predicate Truthy(v: Option<bool>) {
    v == Some(true)
  }

  /**
   * `s` is the run-length counter of `flags`: 0 where the flag is not set, and
   * one more than the previous day's count (0 before the first day) where it is.
   */
  ghost predicate IsStreak(flags: seq<Option<bool>>, s: seq<nat>) {
    && |s| == |flags|
    && forall k {:trigger flags[k]} :: 0 <= k < |flags| ==>
         s[k] == if Truthy(flags[k]) then (if k == 0 then 0 else s[k - 1]) + 1 else 0
  }

  /** Every flag in the positions `lo` to `hi - 1` is set. */
  ghost predicate AllSet(flags: seq<Option<bool>>, lo: int, hi: int)
    requires 0 <= lo <= hi <= |flags|
  {
    forall j :: lo <= j < hi ==> Truthy(flags[j])
  }

  /**
   * Each `s[k]` is the length of the run of set flags ending at day `k`: at
   * most `k + 1`, all of the last `s[k]` flags up to day `k` are set, and the
   * flag just before them (if any) is not.
   */
  ghost predicate CountsTrailingRun(flags: seq<Option<bool>>, s: seq<nat>) {
    && |s| == |flags|
    && forall k :: 0 <= k < |flags| ==>
         && s[k] <= k + 1
         && AllSet(flags, k + 1 - s[k], k + 1)
         && (s[k] == k + 1 || !Truthy(flags[k - s[k]]))
  }

  /**
   * The run-length counter of a flag column: a forward scan with one counter,
   * reset on an unset flag and incremented on a set one.
   */
  method Streak(flags: seq<Option<bool>>) returns (streak: seq<nat>)
    ensures IsStreak(flags, streak)
    ensures CountsTrailingRun(flags, streak)
  {
    streak := [];
    var current: nat := 0;
    for k := 0 to |flags|
      invariant |streak| == k
      invariant current == if k == 0 then 0 else streak[k - 1]
      invariant forall j {:trigger flags[j]} :: 0 <= j < k ==>
                  streak[j] == if Truthy(flags[j]) then (if j == 0 then 0 else streak[j - 1]) + 1 else 0
    {
      if Truthy(flags[k]) {
        current := current + 1;
      } else {
        current := 0;
      }
      streak := streak + [current];
    }
    StreakIsTrailingRun(flags, streak);
  }

  /** The counter defined by the recurrence measures the trailing run at every day. */
  lemma StreakIsTrailingRun(flags: seq<Option<bool>>, s: seq<nat>)
    requires IsStreak(flags, s)
    ensures CountsTrailingRun(flags, s)
  {
    forall k | 0 <= k < |flags|
      ensures s[k] <= k + 1 && AllSet(flags, k + 1 - s[k], k + 1) && (s[k] == k + 1 || !Truthy(flags[k - s[k]]))
    {
      TrailingRunAt(flags, s, k);
    }
  }

  lemma {:induction false} TrailingRunAt(flags: seq<Option<bool>>, s: seq<nat>, k: nat)
    requires IsStreak(flags, s) && k < |flags|
    ensures s[k] <= k + 1 && AllSet(flags, k + 1 - s[k], k + 1) && (s[k] == k + 1 || !Truthy(flags[k - s[k]]))
  {
    assert s[k] == if Truthy(flags[k]) then (if k == 0 then 0 else s[k - 1]) + 1 else 0;
    if k > 0 && Truthy(flags[k]) {
      TrailingRunAt(flags, s, k - 1);
      assert forall j :: k - s[k - 1] <= j < k ==> Truthy(flags[j]);
    }
  }

  /**
   * A flag that is set whenever another is has a counter at least as large,
   * day by day.
   */
  lemma {:induction false} StreakDominated(a: seq<Option<bool>>, sa: seq<nat>, b: seq<Option<bool>>, sb: seq<nat>, k: nat)
    requires IsStreak(a, sa) && IsStreak(b, sb) && |a| == |b|
    requires forall j :: 0 <= j < |a| ==> Truthy(a[j]) ==> Truthy(b[j])
    requires k < |a|
    ensures sa[k] <= sb[k]
  {
    assert sa[k] == if Truthy(a[k]) then (if k == 0 then 0 else sa[k - 1]) + 1 else 0;
    assert sb[k] == if Truthy(b[k]) then (if k == 0 then 0 else sb[k - 1]) + 1 else 0;
    if k > 0 {
      StreakDominated(a, sa, b, sb, k - 1);
    }
  }

  /** Four set flags in a row from the first day count 1, 2, 3, 4, and the fourth day is in the Failure tier. */
  lemma FourCompoundDays(flags: seq<Option<bool>>, s: seq<nat>)
    requires IsStreak(flags, s) && |flags| >= 4
    requires forall j :: 0 <= j < 4 ==> Truthy(flags[j])
    ensures s[..4] == [1, 2, 3, 4]
    ensures forall cfl: real, phwe: real :: Classify(cfl, phwe, s[3]) == Failure
  {
    assert s[0] == 1 by { assert Truthy(flags[0]); }
    assert s[1] == 2 by { assert Truthy(flags[1]); }
    assert s[2] == 3 by { assert Truthy(flags[2]); }
    assert s[3] == 4 by { assert Truthy(flags[3]); }
  }

  /** The three streak axes of a day. */
  datatype Axis = HotDay | HotNight | Compound

  /** A daily record with its hot flags and their run-length counters added. */
  datatype StreakRow = StreakRow(
    day: DailyRecord,
    hotDay: bool,
    hotNight: bool,
    compound: bool,
    consecutiveHotDays: nat,
    consecutiveHotNights: nat,
    consecutiveCompoundCycles: nat)

  function Flag(r: StreakRow, axis: Axis): bool {
    match axis
    case HotDay => r.hotDay
    case HotNight => r.hotNight
    case Compound => r.compound
  }

  function Count(r: StreakRow, axis: Axis): nat {
    match axis
    case HotDay => r.consecutiveHotDays
    case HotNight => r.consecutiveHotNights
    case Compound => r.consecutiveCompoundCycles
  }

  function FlagColumn(out: seq<StreakRow>, axis: Axis): seq<Option<bool>> {
    seq(|out|, k requires 0 <= k < |out| => Some(Flag(out[k], axis)))
  }

  function CountColumn(out: seq<StreakRow>, axis: Axis): seq<nat> {
    seq(|out|, k requires 0 <= k < |out| => Count(out[k], axis))
  }

  /**
   * Whether a day is hot on an axis: by day when its CFL is strictly above
   * 6.0, by night when its PHWe is strictly above 3.0, compound when both. A
   * load exactly at its threshold is not hot.
   */
  function IsHot(d: DailyRecord, axis: Axis): (hot: bool)
    decreases if axis == Compound then 1 else 0
    ensures axis != HotNight && d.dailyCfl <= HotDayCfl ==> !hot
    ensures axis != HotDay && d.dailyPhwe <= HotNightPhwe ==> !hot
    ensures axis == Compound ==> (hot <==> d.dailyCfl > HotDayCfl && d.dailyPhwe > HotNightPhwe)
  {
    match axis
    case HotDay => d.dailyCfl > HotDayCfl
    case HotNight => d.dailyPhwe > HotNightPhwe
    case Compound => IsHot(d, HotDay) && IsHot(d, HotNight)
  }

  /**
   * The flag column of one axis. A comparison always yields a value, so no
   * flag is missing, and a compound flag is set only on days hot on both axes.
   */
  function HotFlags(daily: seq<DailyRecord>, axis: Axis): (flags: seq<Option<bool>>)
    ensures |flags| == |daily|
    ensures forall k :: 0 <= k < |flags| ==> flags[k].Some?
    ensures axis == Compound ==>
              forall k :: 0 <= k < |flags| && Truthy(flags[k]) ==> IsHot(daily[k], HotDay) && IsHot(daily[k], HotNight)
  {
    seq(|daily|, k requires 0 <= k < |daily| => Some(IsHot(daily[k], axis)))
  }

  /**
   * `out` is `daily` with the six streak columns added: the existing columns
   * and the row order are unchanged; a day is hot by day when its CFL strictly
   * exceeds 6.0, hot by night when its PHWe strictly exceeds 3.0, compound
   * when both; each counter is the run-length counter of its flag.
   */
  ghost predicate IsStreakAnnotation(daily: seq<DailyRecord>, out: seq<StreakRow>) {
    && |out| == |daily|
    && (forall k :: 0 <= k < |out| ==>
          && out[k].day == daily[k]
          && out[k].hotDay == (daily[k].dailyCfl > HotDayCfl)
          && out[k].hotNight == (daily[k].dailyPhwe > HotNightPhwe)
          && out[k].compound == (out[k].hotDay && out[k].hotNight))
    && (forall axis :: IsStreak(FlagColumn(out, axis), CountColumn(out, axis)))
  }

  /** Adds the hot flags and their counters to a copy of the daily table. */
  method ComputeCompoundStreaks(daily: seq<DailyRecord>) returns (out: seq<StreakRow>)
    ensures IsStreakAnnotation(daily, out)
  {
    var days := Streak(HotFlags(daily, HotDay));
    var nights := Streak(HotFlags(daily, HotNight));
    var cycles := Streak(HotFlags(daily, Compound));
    out := seq(|daily|, k requires 0 <= k < |daily| =>
      StreakRow(daily[k], IsHot(daily[k], HotDay), IsHot(daily[k], HotNight), IsHot(daily[k], Compound),
                days[k], nights[k], cycles[k]));
    AnnotationColumns(daily, out, days, nights, cycles);
  }

  lemma AnnotationColumns(daily: seq<DailyRecord>, out: seq<StreakRow>, days: seq<nat>, nights: seq<nat>, cycles: seq<nat>)
    requires IsStreak(HotFlags(daily, HotDay), days)
    requires IsStreak(HotFlags(daily, HotNight), nights)
    requires IsStreak(HotFlags(daily, Compound), cycles)
    requires |out| == |daily|
    requires forall k :: 0 <= k < |out| ==>
               out[k] == StreakRow(daily[k], IsHot(daily[k], HotDay), IsHot(daily[k], HotNight), IsHot(daily[k], Compound),
                                   days[k], nights[k], cycles[k])
    ensures IsStreakAnnotation(daily, out)
  {
    forall axis
      ensures IsStreak(FlagColumn(out, axis), CountColumn(out, axis))
    {
      assert FlagColumn(out, axis) == HotFlags(daily, axis);
      match axis
      case HotDay => assert CountColumn(out, axis) == days;
      case HotNight => assert CountColumn(out, axis) == nights;
      case Compound => assert CountColumn(out, axis) == cycles;
    }
  }

  /** A compound streak never exceeds either of the streaks it combines. */
  lemma CompoundWithinStreaks(daily: seq<DailyRecord>, out: seq<StreakRow>)
    requires IsStreakAnnotation(daily, out)
    ensures forall k :: 0 <= k < |out| ==>
              out[k].consecutiveCompoundCycles <= out[k].consecutiveHotDays
              && out[k].consecutiveCompoundCycles <= out[k].consecutiveHotNights
  {
    forall k | 0 <= k < |out|
      ensures out[k].consecutiveCompoundCycles <= out[k].consecutiveHotDays
      ensures out[k].consecutiveCompoundCycles <= out[k].consecutiveHotNights
    {
      StreakDominated(FlagColumn(out, Compound), CountColumn(out, Compound), FlagColumn(out, HotDay), CountColumn(out, HotDay), k);
      StreakDominated(FlagColumn(out, Compound), CountColumn(out, Compound), FlagColumn(out, HotNight), CountColumn(out, HotNight), k);
    }
  }

  /** In an annotated table every counter is the length of the run of set flags ending at its day. */
  lemma AnnotationCountsTrailingRun(daily: seq<DailyRecord>, out: seq<StreakRow>, axis: Axis)
    requires IsStreakAnnotation(daily, out)
    ensures CountsTrailingRun(FlagColumn(out, axis), CountColumn(out, axis))
  {
    StreakIsTrailingRun(FlagColumn(out, axis), CountColumn(out, axis));
  }

  /** The three risk states, from least to most severe. */
  datatype RiskState = Stable | Straining | Failure

  function Severity(s: RiskState): nat {
    match s
    case Stable => 0
    case Straining => 1
    case Failure => 2
  }

  /** The Failure tier; every Failure-tier day is also in the Straining tier. */
  function FailureTier(cfl: real, phwe: real, streak: nat): (tier: bool)
    ensures tier ==> StrainingTier(cfl, phwe, streak)
  {
    cfl >= FailureMinCfl || phwe >= FailureMinPhwe || streak >= FailureMinCompoundStreak
  }

  /** The Straining tier; a day outside it is below every Failure threshold. */
  function StrainingTier(cfl: real, phwe: real, streak: nat): (tier: bool)
    ensures !tier ==> cfl < FailureMinCfl && phwe < FailureMinPhwe && streak < FailureMinCompoundStreak
  {
    cfl >= StrainingMinCfl || phwe >= StrainingMinPhwe || streak >= StrainingMinCompoundStreak
  }

  /**
   * The state of one day from its cumulative loads and compound streak.
   * Failure exactly when a Failure-tier condition holds, whatever the
   * Straining tier says; Straining exactly when the Straining tier holds and
   * the Failure tier does not; Stable otherwise.
   */
  function Classify(cfl: real, phwe: real, streak: nat): (state: RiskState)
    ensures state == Failure <==> FailureTier(cfl, phwe, streak)
    ensures state == Straining <==> StrainingTier(cfl, phwe, streak) && !FailureTier(cfl, phwe, streak)
    ensures state == Stable <==> !StrainingTier(cfl, phwe, streak) && !FailureTier(cfl, phwe, streak)
  {
    if FailureTier(cfl, phwe, streak) then Failure
    else if StrainingTier(cfl, phwe, streak) then Straining
    else Stable
  }

  /** Every Failure threshold is at least its Straining counterpart, so the Failure tier implies the Straining tier. */
  lemma FailureTierImpliesStraining(cfl: real, phwe: real, streak: nat)
    ensures Severity(Classify(cfl, phwe, streak)) >= 1 <==> StrainingTier(cfl, phwe, streak)
  {
  }

  /** Raising the cumulative loads or the streak never lowers the severity. */
  lemma ClassifyMonotone(cfl: real, phwe: real, streak: nat, cfl': real, phwe': real, streak': nat)
    requires cfl <= cfl' && phwe <= phwe' && streak <= streak'
    ensures Severity(Classify(cfl, phwe, streak)) <= Severity(Classify(cfl', phwe', streak'))
  {
  }

  /** A day of the annotated table with its risk state added. */
  datatype RiskRow = RiskRow(annotated: StreakRow, riskState: RiskState)

  function Annotations(out: seq<RiskRow>): seq<StreakRow> {
    seq(|out|, k requires 0 <= k < |out| => out[k].annotated)
  }

  /**
   * Adds the streak columns and the risk state to the daily table. The state
   * column starts as Stable everywhere; the Failure days are then overwritten,
   * then the days in the Straining tier and not in the Failure tier.
   */
  method AssignRiskState(daily: seq<DailyRecord>) returns (out: seq<RiskRow>)
    ensures IsStreakAnnotation(daily, Annotations(out))
    ensures forall k :: 0 <= k < |out| ==>
              out[k].riskState == Classify(daily[k].cumulativeCfl, daily[k].cumulativePhwe, out[k].annotated.consecutiveCompoundCycles)
  {
    var annotated := ComputeCompoundStreaks(daily);
    var n := |annotated|;
    var state := new RiskState[n](_ => Stable);

    for k := 0 to n
      modifies state
      invariant forall j :: 0 <= j < n ==>
                  var a := annotated[j];
                  state[j] == if j < k && FailureTier(a.day.cumulativeCfl, a.day.cumulativePhwe, a.consecutiveCompoundCycles)
                              then Failure else Stable
    {
      var a := annotated[k];
      if FailureTier(a.day.cumulativeCfl, a.day.cumulativePhwe, a.consecutiveCompoundCycles) {
        state[k] := Failure;
      }
    }

    for k := 0 to n
      modifies state
      invariant forall j :: 0 <= j < n ==>
                  var a := annotated[j];
                  state[j] == if FailureTier(a.day.cumulativeCfl, a.day.cumulativePhwe, a.consecutiveCompoundCycles) then Failure
                              else if j < k && StrainingTier(a.day.cumulativeCfl, a.day.cumulativePhwe, a.consecutiveCompoundCycles)
                              then Straining else Stable
    {
      var a := annotated[k];
      if StrainingTier(a.day.cumulativeCfl, a.day.cumulativePhwe, a.consecutiveCompoundCycles)
         && !FailureTier(a.day.cumulativeCfl, a.day.cumulativePhwe, a.consecutiveCompoundCycles) {
        state[k] := Straining;
      }
    }

    var states := state[..];
    out := seq(n, k requires 0 <= k < n => RiskRow(annotated[k], states[k]));
    assert Annotations(out) == annotated;
  }

  /**
   * A day record with the given loads. Only the loads and their running sums
   * matter to the classification; the other fields are placeholders (an EWL
   * range of 0.9 to 1.8 m with every night hour at or below 1.0 m, so no
   * severe excess, and no rain or discharge).
   */
  function ScenarioDay(date: nat, cfl: real, phwe: real, cumCfl: real, cumPhwe: real): DailyRecord {
    DailyRecord(date, cfl, phwe, 0.0, cumCfl, cumPhwe, 0.0, Some(1.8), Some(0.9), Some(0.0), 0.0, Some(0.0))
  }

  /**
   * Five days: four with daily CFL 6.5 and daily PHWe 3.5 (hot by day and by
   * night), then a calm one, with the running sums of a daily table.
   */
  function DeescalationDays(): seq<DailyRecord> {
    [ ScenarioDay(0, 6.5, 3.5, 6.5, 3.5),
      ScenarioDay(1, 6.5, 3.5, 13.0, 7.0),
      ScenarioDay(2, 6.5, 3.5, 19.5, 10.5),
      ScenarioDay(3, 6.5, 3.5, 26.0, 14.0),
      ScenarioDay(4, 0.5, 0.5, 26.5, 14.5) ]
  }

  /** The five scenario days carry the running sums of their daily loads. */
  lemma DeescalationDaysArePrefixSums()
    ensures IsPrefixSum(DailyColumn(DeescalationDays(), Cfl), CumulativeColumn(DeescalationDays(), Cfl))
    ensures IsPrefixSum(DailyColumn(DeescalationDays(), Phwe), CumulativeColumn(DeescalationDays(), Phwe))
  {
    var days := DeescalationDays();
    assert DailyColumn(days, Cfl) == [6.5, 6.5, 6.5, 6.5, 0.5];
    assert CumulativeColumn(days, Cfl) == [6.5, 13.0, 19.5, 26.0, 26.5];
    assert DailyColumn(days, Phwe) == [3.5, 3.5, 3.5, 3.5, 0.5];
    assert CumulativeColumn(days, Phwe) == [3.5, 7.0, 10.5, 14.0, 14.5];
  }

  /** Four set flags and then an unset one count 1, 2, 3, 4 and then 0. */
  lemma {:induction false} FourThenBreak(flags: seq<Option<bool>>, s: seq<nat>)
    requires IsStreak(flags, s) && |flags| == 5
    requires forall k :: 0 <= k < 4 ==> Truthy(flags[k])
    requires !Truthy(flags[4])
    ensures s == [1, 2, 3, 4, 0]
  {
    assert s[0] == 1 by { assert Truthy(flags[0]); }
    assert s[1] == 2 by { assert Truthy(flags[1]); }
    assert s[2] == 3 by { assert Truthy(flags[2]); }
    assert s[3] == 4 by { assert Truthy(flags[3]); }
    assert s[4] == 0 by { assert !Truthy(flags[4]); }
  }

  /**
   * The state has no memory: on the five scenario days (a daily table, by
   * `DeescalationDaysArePrefixSums`) the fourth compound day is a Failure, and
   * the calm fifth day is Stable again although both cumulative loads have
   * risen, because its compound streak is broken.
   */
  method DeescalationScenario() returns (out: seq<RiskRow>)
    ensures |out| == 5
    ensures out[3].annotated.consecutiveCompoundCycles == 4 && out[3].riskState == Failure
    ensures out[4].annotated.consecutiveCompoundCycles == 0 && out[4].riskState == Stable
  {
    var days := DeescalationDays();
    out := AssignRiskState(days);
    var a := Annotations(out);
    forall k | 0 <= k < 5
      ensures Truthy(FlagColumn(a, Compound)[k]) <==> k < 4
    {
      assert a[k].day == days[k];
    }
    FourThenBreak(FlagColumn(a, Compound), CountColumn(a, Compound));
    assert CountColumn(a, Compound)[3] == out[3].annotated.consecutiveCompoundCycles;
    assert CountColumn(a, Compound)[4] == out[4].annotated.consecutiveCompoundCycles;
    assert out[3].annotated.day == days[3] && out[4].annotated.day == days[4];
  }

  /**
   * The risk multiplier of one day: 1 plus the normalised cumulative loads
   * plus the weighted compound streak. It is at least 1 for non-negative loads,
   * positive norms and a non-negative streak factor.
   */
  function RiskMultiplier(cfl: real, phwe: real, streak: nat, normCfl: real, normPhwe: real, streakFactor: real): (m: real)
    requires normCfl != 0.0 && normPhwe != 0.0
    ensures cfl >= 0.0 && phwe >= 0.0 && normCfl > 0.0 && normPhwe > 0.0 && streakFactor >= 0.0 ==> m >= 1.0
  {
    assert cfl >= 0.0 && normCfl > 0.0 ==> cfl / normCfl >= 0.0;
    assert phwe >= 0.0 && normPhwe > 0.0 ==> phwe / normPhwe >= 0.0;
    assert streakFactor >= 0.0 ==> (streak as real) * streakFactor >= 0.0;
    1.0 + cfl / normCfl + phwe / normPhwe + (streak as real) * streakFactor
  }

  /**
   * With positive norms and factor, the multiplier rises with each of its
   * inputs; it falls only when one of them falls, which for the cumulative
   * loads never happens, so only a broken compound streak lowers it.
   */
  lemma RiskMultiplierMonotone(cfl: real, phwe: real, streak: nat, cfl': real, phwe': real, streak': nat,
                               normCfl: real, normPhwe: real, streakFactor: real)
    requires normCfl > 0.0 && normPhwe > 0.0 && streakFactor >= 0.0
    requires cfl <= cfl' && phwe <= phwe' && streak <= streak'
    ensures RiskMultiplier(cfl, phwe, streak, normCfl, normPhwe, streakFactor)
         <= RiskMultiplier(cfl', phwe', streak', normCfl, normPhwe, streakFactor)
  {
    assert cfl / normCfl <= cfl' / normCfl;
    assert phwe / normPhwe <= phwe' / normPhwe;
    assert (streak as real) * streakFactor <= (streak' as real) * streakFactor;
  }

  /** The multiplier column of a classified table, computed row by row. */
  function ComputeRiskMultiplier(rows: seq<RiskRow>, normCfl: real, normPhwe: real, streakFactor: real): (rm: seq<real>)
    requires normCfl != 0.0 && normPhwe != 0.0
    ensures |rm| == |rows|
    ensures forall k :: 0 <= k < |rows| ==>
              var a := rows[k].annotated;
              rm[k] == RiskMultiplier(a.day.cumulativeCfl, a.day.cumulativePhwe, a.consecutiveCompoundCycles, normCfl, normPhwe, streakFactor)
    ensures normCfl > 0.0 && normPhwe > 0.0 && streakFactor >= 0.0 ==>
              forall k :: 0 <= k < |rows| && rows[k].annotated.day.cumulativeCfl >= 0.0 && rows[k].annotated.day.cumulativePhwe >= 0.0
                ==> rm[k] >= 1.0
  {
    seq(|rows|, k requires 0 <= k < |rows| =>
      var a := rows[k].annotated;
      RiskMultiplier(a.day.cumulativeCfl, a.day.cumulativePhwe, a.consecutiveCompoundCycles, normCfl, normPhwe, streakFactor))
  }
}
