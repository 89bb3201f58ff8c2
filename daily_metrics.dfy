/**
 * Daily part of the metrics computation: the hourly frame is grouped into
 * UTC calendar days (every day from the first hour's to the last hour's, also
 * the days without data), each day's terms are summed, and the daily sums are
 * turned into running cumulative sums.
 */
module DailyMetrics {
  import opened Wrappers
  import opened HourlyMetrics

  /** Timestamps strictly increase along the input (sorted and de-duplicated). */
  predicate StrictlyIncreasing(hours: seq<HourlyRecord>) {
    forall i, j :: 0 <= i < j < |hours| ==> hours[i].t < hours[j].t
  }

  /** What the engine expects of its input. */
  predicate WellFormedInput(hours: seq<HourlyRecord>) {
    |hours| > 0 && StrictlyIncreasing(hours)
  }

  function FirstDay(hours: seq<HourlyRecord>): nat
    requires |hours| > 0
  {
    DayOf(hours[0].t)
  }

  function LastDay(hours: seq<HourlyRecord>): nat
    requires |hours| > 0
  {
    DayOf(hours[|hours| - 1].t)
  }

  /** Every hour of a well-formed input falls between the first and the last day. */
  lemma HoursWithinDayRange(hours: seq<HourlyRecord>)
    requires WellFormedInput(hours)
    ensures FirstDay(hours) <= LastDay(hours)
    ensures forall i :: 0 <= i < |hours| ==> FirstDay(hours) <= DayOf(hours[i].t) <= LastDay(hours)
  {
    forall i | 0 <= i < |hours|
      ensures FirstDay(hours) <= DayOf(hours[i].t) <= LastDay(hours)
    {
      DayOfMonotone(hours[0].t, hours[i].t);
      DayOfMonotone(hours[i].t, hours[|hours| - 1].t);
    }
  }

  /**
   * The rows of the frame that fall on calendar day `d`, in frame order
   * (`RowsOfDayMultiplicity` counts each row's occurrences).
   */
  function RowsOfDay(rows: seq<HourRow>, d: nat): (r: seq<HourRow>)
    ensures |r| <= |rows|
    ensures forall x :: x in r ==> x in rows && DayOf(x.t) == d
    ensures forall i :: 0 <= i < |rows| && DayOf(rows[i].t) == d ==> rows[i] in r
  {
    if |rows| == 0 then []
    else
      var init := RowsOfDay(rows[..|rows| - 1], d);
      var last := rows[|rows| - 1];
      if DayOf(last.t) == d then init + [last] else init
  }

  /**
   * A day's group holds each row of that day exactly as often as the frame
   * does, and no row of another day, so its length is the day's hour count.
   */
  lemma {:induction false} RowsOfDayMultiplicity(rows: seq<HourRow>, d: nat)
    ensures forall x :: multiset(RowsOfDay(rows, d))[x] == if DayOf(x.t) == d then multiset(rows)[x] else 0
  {
    if |rows| > 0 {
      var last := rows[|rows| - 1];
      RowsOfDayMultiplicity(rows[..|rows| - 1], d);
      assert rows == rows[..|rows| - 1] + [last];
    }
  }

  /** The three flood loads an hour contributes to. */
  datatype Load = Cfl | Phwe | SeverePhwe

  function LoadOf(r: HourRow, load: Load): real {
    match load
    case Cfl => r.cflHour
    case Phwe => r.phweHour
    case SeverePhwe => r.severePhweHour
  }

  /** The column of one load over some rows. */
  function LoadValues(rows: seq<HourRow>, load: Load): seq<real> {
    seq(|rows|, i requires 0 <= i < |rows| => LoadOf(rows[i], load))
  }

  function RainfallValues(rows: seq<HourRow>): seq<real> {
    seq(|rows|, i requires 0 <= i < |rows| => rows[i].rainfallMm)
  }

  function DischargeValues(rows: seq<HourRow>): seq<real> {
    seq(|rows|, i requires 0 <= i < |rows| => rows[i].dischargeM3s)
  }

  /** Sum of one load over some rows: the total of that load's column (0 over no rows). */
  function SumLoad(rows: seq<HourRow>, load: Load): (s: real)
    ensures s == SumReal(LoadValues(rows, load))
  {
    if |rows| == 0 then 0.0
    else
      var init := rows[..|rows| - 1];
      assert LoadValues(init, load) == LoadValues(rows, load)[..|rows| - 1];
      SumLoad(init, load) + LoadOf(rows[|rows| - 1], load)
  }

  /** Sum of the rainfall over some rows: the total of the rainfall column. */
  function SumRainfall(rows: seq<HourRow>): (s: real)
    ensures s == SumReal(RainfallValues(rows))
  {
    if |rows| == 0 then 0.0
    else
      var init := rows[..|rows| - 1];
      assert RainfallValues(init) == RainfallValues(rows)[..|rows| - 1];
      SumRainfall(init) + rows[|rows| - 1].rainfallMm
  }

  /** Sum of the discharge over some rows: the total of the discharge column. */
  function SumDischarge(rows: seq<HourRow>): (s: real)
    ensures s == SumReal(DischargeValues(rows))
  {
    if |rows| == 0 then 0.0
    else
      var init := rows[..|rows| - 1];
      assert DischargeValues(init) == DischargeValues(rows)[..|rows| - 1];
      SumDischarge(init) + rows[|rows| - 1].dischargeM3s
  }

  /** Rows whose loads are all clipped at zero, as every frame row is. */
  predicate NonNegativeLoads(rows: seq<HourRow>) {
    forall i :: 0 <= i < |rows| ==> rows[i].cflHour >= 0.0 && rows[i].phweHour >= 0.0 && rows[i].severePhweHour >= 0.0
  }

  lemma {:induction false} SumLoadNonNegative(rows: seq<HourRow>, load: Load)
    requires NonNegativeLoads(rows)
    ensures SumLoad(rows, load) >= 0.0
  {
    if |rows| > 0 {
      SumLoadNonNegative(rows[..|rows| - 1], load);
    }
  }

  /** A sum over rows whose each term is at most another's is at most the other sum. */
  lemma {:induction false} SumLoadDominated(rows: seq<HourRow>, small: Load, large: Load)
    requires forall i :: 0 <= i < |rows| ==> LoadOf(rows[i], small) <= LoadOf(rows[i], large)
    ensures SumLoad(rows, small) <= SumLoad(rows, large)
  {
    if |rows| > 0 {
      SumLoadDominated(rows[..|rows| - 1], small, large);
    }
  }

  /** Largest EWL among the rows, absent for no rows. */
  function MaxEwl(rows: seq<HourRow>): (m: Option<real>)
    ensures m.None? <==> |rows| == 0
    ensures m.Some? ==> forall i :: 0 <= i < |rows| ==> rows[i].ewlM <= m.value
    ensures m.Some? ==> exists i :: 0 <= i < |rows| && rows[i].ewlM == m.value
  {
    if |rows| == 0 then None
    else
      var last := rows[|rows| - 1].ewlM;
      match MaxEwl(rows[..|rows| - 1])
      case None => Some(last)
      case Some(m) => if last > m then Some(last) else Some(m)
  }

  /** Smallest EWL among the rows, absent for no rows. */
  function MinEwl(rows: seq<HourRow>): (m: Option<real>)
    ensures m.None? <==> |rows| == 0
    ensures m.Some? ==> forall i :: 0 <= i < |rows| ==> m.value <= rows[i].ewlM
    ensures m.Some? ==> exists i :: 0 <= i < |rows| && rows[i].ewlM == m.value
  {
    if |rows| == 0 then None
    else
      var last := rows[|rows| - 1].ewlM;
      match MinEwl(rows[..|rows| - 1])
      case None => Some(last)
      case Some(m) => if last < m then Some(last) else Some(m)
  }

  /** On a day with data the minimum EWL never exceeds the maximum. */
  lemma MinNotAboveMax(rows: seq<HourRow>)
    requires |rows| > 0
    ensures MinEwl(rows).Some? && MaxEwl(rows).Some?
    ensures MinEwl(rows).value <= MaxEwl(rows).value
  {
    assert MinEwl(rows).value <= rows[0].ewlM <= MaxEwl(rows).value;
  }

  /** Mean of `count` values adding up to `sum`; undefined for no values. */
  function Mean(sum: real, count: nat): (m: Option<real>)
    ensures m.None? <==> count == 0
    ensures m.Some? ==> m.value * (count as real) == sum
  {
    if count == 0 then None else Some(sum / count as real)
  }

  /** One row of the daily table. `date` is the UTC day number. */
  datatype DailyRecord = DailyRecord(
    date: nat,
    dailyCfl: real,
    dailyPhwe: real,
    dailySeverePhwe: real,
    cumulativeCfl: real,
    cumulativePhwe: real,
    cumulativeSeverePhwe: real,
    maxEwlM: Option<real>,
    minEwlM: Option<real>,
    meanRainfallMm: Option<real>,
    sumRainfallMm: real,
    meanDischargeM3s: Option<real>)

  function DailyLoad(rec: DailyRecord, load: Load): real {
    match load
    case Cfl => rec.dailyCfl
    case Phwe => rec.dailyPhwe
    case SeverePhwe => rec.dailySeverePhwe
  }

  function CumulativeLoad(rec: DailyRecord, load: Load): real {
    match load
    case Cfl => rec.cumulativeCfl
    case Phwe => rec.cumulativePhwe
    case SeverePhwe => rec.cumulativeSeverePhwe
  }

  function DailyColumn(daily: seq<DailyRecord>, load: Load): seq<real> {
    seq(|daily|, k requires 0 <= k < |daily| => DailyLoad(daily[k], load))
  }

  function CumulativeColumn(daily: seq<DailyRecord>, load: Load): seq<real> {
    seq(|daily|, k requires 0 <= k < |daily| => CumulativeLoad(daily[k], load))
  }

  /** The per-day (non-cumulative) fields of `rec` are the aggregates of that day's rows. */
  ghost predicate Aggregates(rec: DailyRecord, dayRows: seq<HourRow>) {
    && rec.dailyCfl == SumLoad(dayRows, Cfl)
    && rec.dailyPhwe == SumLoad(dayRows, Phwe)
    && rec.dailySeverePhwe == SumLoad(dayRows, SeverePhwe)
    && rec.maxEwlM == MaxEwl(dayRows)
    && rec.minEwlM == MinEwl(dayRows)
    && rec.sumRainfallMm == SumRainfall(dayRows)
    && rec.meanRainfallMm == Mean(SumRainfall(dayRows), |dayRows|)
    && rec.meanDischargeM3s == Mean(SumDischarge(dayRows), |dayRows|)
  }

  /** Sum of a sequence of reals, adding from the front. */
  function SumReal(xs: seq<real>): real {
    if |xs| == 0 then 0.0 else SumReal(xs[..|xs| - 1]) + xs[|xs| - 1]
  }

  ghost predicate AllNonNegative(xs: seq<real>) {
    forall k :: 0 <= k < |xs| ==> xs[k] >= 0.0
  }

  /** Later entries are never smaller than earlier ones. */
  ghost predicate NonDecreasing(xs: seq<real>) {
    forall i, j :: 0 <= i <= j < |xs| ==> xs[i] <= xs[j]
  }

  /** `cum` is the running sum of `xs`: it starts at `xs[0]` and adds each next term. */
  ghost predicate IsPrefixSum(xs: seq<real>, cum: seq<real>) {
    && |cum| == |xs|
    && (|xs| > 0 ==> cum[0] == xs[0])
    && (forall k {:trigger xs[k]} :: 0 < k < |xs| ==> cum[k] == cum[k - 1] + xs[k])
  }

  /** Extending a prefix by one term adds that term to its sum. */
  lemma SumRealExtend(xs: seq<real>, k: nat)
    requires k < |xs|
    ensures SumReal(xs[..k + 1]) == SumReal(xs[..k]) + xs[k]
  {
    assert xs[..k + 1][..k] == xs[..k];
  }

  /**
   * Running sum of a column (pandas `cumsum`): the last entry is the column's
   * total, and with non-negative terms the result is non-negative and never
   * decreases.
   */
  method CumulativeSum(xs: seq<real>) returns (cum: seq<real>)
    ensures IsPrefixSum(xs, cum)
    ensures |xs| > 0 ==> cum[|xs| - 1] == SumReal(xs)
    ensures AllNonNegative(xs) ==> AllNonNegative(cum) && NonDecreasing(cum)
  {
    cum := [];
    var running := 0.0;
    for k := 0 to |xs|
      invariant |cum| == k
      invariant running == SumReal(xs[..k])
      invariant k > 0 ==> cum[k - 1] == running && cum[0] == xs[0]
      invariant forall j {:trigger xs[j]} :: 0 < j < k ==> cum[j] == cum[j - 1] + xs[j]
    {
      SumRealExtend(xs, k);
      running := running + xs[k];
      cum := cum + [running];
    }
    assert xs[..|xs|] == xs;
    PrefixSumNonDecreasing(xs, cum);
  }

  /** A running sum of non-negative terms never decreases between any two days. */
  lemma {:induction false} PrefixSumMonotone(xs: seq<real>, cum: seq<real>, i: nat, j: nat)
    requires IsPrefixSum(xs, cum)
    requires AllNonNegative(xs)
    requires i <= j < |xs|
    ensures cum[i] <= cum[j]
  {
    if i < j {
      PrefixSumMonotone(xs, cum, i, j - 1);
      assert cum[j] == cum[j - 1] + xs[j];
    }
  }

  /** The running sum of a non-negative column is non-decreasing. */
  lemma PrefixSumNonDecreasing(xs: seq<real>, cum: seq<real>)
    requires IsPrefixSum(xs, cum)
    ensures AllNonNegative(xs) ==> NonDecreasing(cum) && AllNonNegative(cum)
  {
    if !AllNonNegative(xs) {
      return;
    }
    forall j | 0 <= j < |cum|
      ensures cum[j] >= 0.0
    {
      PrefixSumMonotone(xs, cum, 0, j);
    }
    forall i, j | 0 <= i <= j < |cum|
      ensures cum[i] <= cum[j]
    {
      PrefixSumMonotone(xs, cum, i, j);
    }
  }

  /** The daily sums of one load over `n` consecutive days starting at day `first`. */
  function DayLoads(rows: seq<HourRow>, load: Load, first: nat, n: nat): (r: seq<real>)
    ensures |r| == n
  {
    seq(n, k requires 0 <= k < n => SumLoad(RowsOfDay(rows, first + k), load))
  }

  /** Each day's share of rows with non-negative loads has a non-negative sum. */
  lemma DayLoadsNonNegative(rows: seq<HourRow>, load: Load, first: nat, n: nat)
    requires NonNegativeLoads(rows)
    ensures AllNonNegative(DayLoads(rows, load, first, n))
  {
    forall k | 0 <= k < n
      ensures DayLoads(rows, load, first, n)[k] >= 0.0
    {
      var group := RowsOfDay(rows, first + k);
      forall i | 0 <= i < |group|
        ensures group[i].cflHour >= 0.0 && group[i].phweHour >= 0.0 && group[i].severePhweHour >= 0.0
      {
        assert group[i] in rows;
      }
      SumLoadNonNegative(group, load);
      assert DayLoads(rows, load, first, n)[k] == SumLoad(group, load);
    }
  }

  lemma {:induction false} SumRealOfZeros(xs: seq<real>)
    requires forall k :: 0 <= k < |xs| ==> xs[k] == 0.0
    ensures SumReal(xs) == 0.0
  {
    if |xs| > 0 {
      SumRealOfZeros(xs[..|xs| - 1]);
    }
  }

  /** Raising one term of a sum by `v` raises the sum by `v`. */
  lemma {:induction false} SumRealBump(xs: seq<real>, j: nat, v: real)
    requires j < |xs|
    ensures SumReal(xs[j := xs[j] + v]) == SumReal(xs) + v
  {
    var ys := xs[j := xs[j] + v];
    if j < |xs| - 1 {
      assert ys[..|ys| - 1] == xs[..|xs| - 1][j := xs[j] + v];
      SumRealBump(xs[..|xs| - 1], j, v);
    } else {
      assert ys[..|ys| - 1] == xs[..|xs| - 1];
    }
  }

  /** Appending a row adds its load to exactly the day it falls on. */
  lemma DayLoadsAppend(rows: seq<HourRow>, r: HourRow, load: Load, first: nat, n: nat)
    requires first <= DayOf(r.t) < first + n
    ensures DayLoads(rows + [r], load, first, n)
         == DayLoads(rows, load, first, n)[DayOf(r.t) - first := DayLoads(rows, load, first, n)[DayOf(r.t) - first] + LoadOf(r, load)]
  {
    var all := rows + [r];
    assert all[..|all| - 1] == rows;
    var before, after := DayLoads(rows, load, first, n), DayLoads(all, load, first, n);
    forall k | 0 <= k < n
      ensures after[k] == before[k] + (if DayOf(r.t) == first + k then LoadOf(r, load) else 0.0)
    {
      var init := RowsOfDay(rows, first + k);
      assert before[k] == SumLoad(init, load);
      assert after[k] == SumLoad(RowsOfDay(all, first + k), load);
      if DayOf(r.t) == first + k {
        assert RowsOfDay(all, first + k) == init + [r];
        assert (init + [r])[..|init|] == init;
      } else {
        assert RowsOfDay(all, first + k) == init;
      }
    }
  }

  /**
   * No hour is lost and none is counted twice: when every row falls within the
   * `n` days starting at `first`, the daily sums add up to the sum over all rows.
   */
  lemma {:induction false} DayLoadsConserve(rows: seq<HourRow>, load: Load, first: nat, n: nat)
    requires forall i :: 0 <= i < |rows| ==> first <= DayOf(rows[i].t) < first + n
    ensures SumReal(DayLoads(rows, load, first, n)) == SumLoad(rows, load)
  {
    if |rows| == 0 {
      var zeros := DayLoads(rows, load, first, n);
      forall k | 0 <= k < n
        ensures zeros[k] == 0.0
      {
        assert RowsOfDay(rows, first + k) == [];
        assert zeros[k] == SumLoad(RowsOfDay(rows, first + k), load);
      }
      SumRealOfZeros(zeros);
    } else {
      var init, r := rows[..|rows| - 1], rows[|rows| - 1];
      assert rows == init + [r];
      DayLoadsConserve(init, load, first, n);
      DayLoadsAppend(init, r, load, first, n);
      SumRealBump(DayLoads(init, load, first, n), DayOf(r.t) - first, LoadOf(r, load));
    }
  }

  /** The frame of a well-formed input has non-negative loads and spans its first to its last day. */
  lemma FrameWithinDayRange(cfg: Config, hours: seq<HourlyRecord>)
    requires WellFormedInput(hours)
    ensures FirstDay(hours) <= LastDay(hours)
    ensures NonNegativeLoads(HourRows(cfg, hours))
    ensures forall i :: 0 <= i < |hours| ==> FirstDay(hours) <= DayOf(HourRows(cfg, hours)[i].t) <= LastDay(hours)
  {
    HoursWithinDayRange(hours);
    var rows := HourRows(cfg, hours);
    forall i | 0 <= i < |hours|
      ensures rows[i].t == hours[i].t
      ensures rows[i].cflHour >= 0.0 && rows[i].phweHour >= 0.0 && rows[i].severePhweHour >= 0.0
    {
      assert rows[i] == HourRowOf(cfg, hours[i]);
    }
  }

  /**
   * `daily` is the daily table of the frame `rows` over the `n` calendar days
   * starting at `first`: one record per day in ascending order with no gaps;
   * each day's sums and extrema over its own rows; running sums of the three
   * loads, non-negative and non-decreasing, whose last entries are the loads'
   * totals over every row.
   */
  ghost predicate IsDailyTable(daily: seq<DailyRecord>, rows: seq<HourRow>, first: nat, n: nat) {
    && |daily| == n > 0
    && (forall k :: 0 <= k < n ==> daily[k].date == first + k)
    && (forall k :: 0 <= k < n ==> Aggregates(daily[k], RowsOfDay(rows, first + k)))
    && (forall load :: IsPrefixSum(DailyColumn(daily, load), CumulativeColumn(daily, load)))
    && (forall load :: AllNonNegative(DailyColumn(daily, load)) && AllNonNegative(CumulativeColumn(daily, load)))
    && (forall load :: NonDecreasing(CumulativeColumn(daily, load)))
    && (forall load :: CumulativeLoad(daily[n - 1], load) == SumLoad(rows, load))
  }

  /**
   * The daily metrics of an hourly input: the daily table of its frame over
   * every calendar day from the first hour's day to the last hour's.
   */
  method ComputeDailyMetrics(cfg: Config, hours: seq<HourlyRecord>) returns (daily: seq<DailyRecord>)
    requires WellFormedInput(hours)
    ensures IsDailyTable(daily, HourRows(cfg, hours), FirstDay(hours), LastDay(hours) - FirstDay(hours) + 1)
  {
    var rows := HourlyColumns(cfg, hours);
    var first := FirstDay(hours);
    FrameWithinDayRange(cfg, hours);
    daily := AggregateDays(rows, first, LastDay(hours) - first + 1);
  }

  /**
   * Groups the frame into the `n` calendar days starting at `first` (the days
   * without data included), sums each day's loads and accumulates them.
   */
  method AggregateDays(rows: seq<HourRow>, first: nat, n: nat) returns (daily: seq<DailyRecord>)
    requires n > 0 && NonNegativeLoads(rows)
    requires forall i :: 0 <= i < |rows| ==> first <= DayOf(rows[i].t) < first + n
    ensures IsDailyTable(daily, rows, first, n)
  {
    var cfl := DayLoads(rows, Cfl, first, n);
    var phwe := DayLoads(rows, Phwe, first, n);
    var severe := DayLoads(rows, SeverePhwe, first, n);
    forall load
      ensures AllNonNegative(DayLoads(rows, load, first, n))
      ensures SumReal(DayLoads(rows, load, first, n)) == SumLoad(rows, load)
    {
      DayLoadsNonNegative(rows, load, first, n);
      DayLoadsConserve(rows, load, first, n);
    }

    var cumCfl := CumulativeSum(cfl);
    var cumPhwe := CumulativeSum(phwe);
    var cumSevere := CumulativeSum(severe);

    daily := Assemble(rows, first, n, cumCfl, cumPhwe, cumSevere);

    forall load
      ensures IsPrefixSum(DailyColumn(daily, load), CumulativeColumn(daily, load))
      ensures AllNonNegative(DailyColumn(daily, load)) && AllNonNegative(CumulativeColumn(daily, load))
      ensures NonDecreasing(CumulativeColumn(daily, load))
      ensures CumulativeLoad(daily[n - 1], load) == SumLoad(rows, load)
    {
      assert CumulativeLoad(daily[n - 1], load) == CumulativeColumn(daily, load)[n - 1];
      match load
      case Cfl => assert CumulativeColumn(daily, load) == cumCfl;
      case Phwe => assert CumulativeColumn(daily, load) == cumPhwe;
      case SeverePhwe => assert CumulativeColumn(daily, load) == cumSevere;
    }
  }

  /**
   * The daily records of the `n` days starting at `first`: each day's own
   * aggregates over its rows, zipped with the given running-sum columns.
   */
  function Assemble(rows: seq<HourRow>, first: nat, n: nat, cumCfl: seq<real>, cumPhwe: seq<real>, cumSevere: seq<real>)
    : (daily: seq<DailyRecord>)
    requires |cumCfl| == |cumPhwe| == |cumSevere| == n
    ensures |daily| == n
    ensures forall load :: DailyColumn(daily, load) == DayLoads(rows, load, first, n)
    ensures CumulativeColumn(daily, Cfl) == cumCfl && CumulativeColumn(daily, Phwe) == cumPhwe
    ensures CumulativeColumn(daily, SeverePhwe) == cumSevere
    ensures forall k :: 0 <= k < n ==> daily[k].date == first + k
    ensures forall k :: 0 <= k < n ==> Aggregates(daily[k], RowsOfDay(rows, first + k))
  {
    seq(n, k requires 0 <= k < n =>
      var group := RowsOfDay(rows, first + k);
      DailyRecord(
        first + k,
        SumLoad(group, Cfl), SumLoad(group, Phwe), SumLoad(group, SeverePhwe),
        cumCfl[k], cumPhwe[k], cumSevere[k],
        MaxEwl(group), MinEwl(group),
        Mean(SumRainfall(group), |group|), SumRainfall(group),
        Mean(SumDischarge(group), |group|)))
  }

  /** A day on which no row falls gets no rows. */
  lemma {:induction false} RowsOfDayEmpty(rows: seq<HourRow>, d: nat)
    requires forall i :: 0 <= i < |rows| ==> DayOf(rows[i].t) != d
    ensures RowsOfDay(rows, d) == []
  {
    if |rows| > 0 {
      RowsOfDayEmpty(rows[..|rows| - 1], d);
    }
  }

  /**
   * A day on which no hour falls still has its record (in a daily table, as
   * `IsDailyTable` states for every day and load): its loads are 0, its
   * extrema and means are undefined, and its running sums repeat the previous day's.
   */
  lemma DayWithoutData(daily: seq<DailyRecord>, rows: seq<HourRow>, first: nat, k: nat, load: Load)
    requires k < |daily|
    requires Aggregates(daily[k], RowsOfDay(rows, first + k))
    requires IsPrefixSum(DailyColumn(daily, load), CumulativeColumn(daily, load))
    requires forall i :: 0 <= i < |rows| ==> DayOf(rows[i].t) != first + k
    ensures DailyLoad(daily[k], load) == 0.0 && daily[k].sumRainfallMm == 0.0
    ensures daily[k].maxEwlM == None && daily[k].minEwlM == None
    ensures daily[k].meanRainfallMm == None && daily[k].meanDischargeM3s == None
    ensures k > 0 ==> CumulativeLoad(daily[k], load) == CumulativeLoad(daily[k - 1], load)
  {
    RowsOfDayEmpty(rows, first + k);
    if k > 0 {
      assert DailyColumn(daily, load)[k] == DailyLoad(daily[k], load);
    }
  }

  /**
   * On a day with data, the day's minimum and maximum EWL exist and bound the
   * EWL of every hour of that day.
   */
  lemma DayExtremaBoundHours(daily: seq<DailyRecord>, rows: seq<HourRow>, first: nat, n: nat, k: nat, i: nat)
    requires IsDailyTable(daily, rows, first, n)
    requires k < n && i < |rows| && DayOf(rows[i].t) == first + k
    ensures daily[k].minEwlM.Some? && daily[k].maxEwlM.Some?
    ensures daily[k].minEwlM.value <= rows[i].ewlM <= daily[k].maxEwlM.value
  {
    var group := RowsOfDay(rows, first + k);
    assert Aggregates(daily[k], group);
    assert rows[i] in group;
    var j :| 0 <= j < |group| && group[j] == rows[i];
    MinNotAboveMax(group);
  }

  /** Running sums of a pointwise smaller column stay pointwise smaller. */
  lemma {:induction false} PrefixSumDominated(xs: seq<real>, cx: seq<real>, ys: seq<real>, cy: seq<real>, k: nat)
    requires IsPrefixSum(xs, cx) && IsPrefixSum(ys, cy) && |xs| == |ys|
    requires forall j :: 0 <= j < |xs| ==> xs[j] <= ys[j]
    requires k < |xs|
    ensures cx[k] <= cy[k]
  {
    if k > 0 {
      PrefixSumDominated(xs, cx, ys, cy, k - 1);
      assert cx[k] == cx[k - 1] + xs[k] && cy[k] == cy[k - 1] + ys[k];
    }
  }

  /** With a night baseline no higher than the severe one, every frame row's severe excess is at most its night excess. */
  lemma FrameSevereBelowPhwe(cfg: Config, hours: seq<HourlyRecord>)
    requires cfg.baselineNightM <= SevereBaselineNightM
    ensures forall i :: 0 <= i < |hours| ==> LoadOf(HourRows(cfg, hours)[i], SeverePhwe) <= LoadOf(HourRows(cfg, hours)[i], Phwe)
  {
    forall i | 0 <= i < |hours|
      ensures LoadOf(HourRows(cfg, hours)[i], SeverePhwe) <= LoadOf(HourRows(cfg, hours)[i], Phwe)
    {
      assert HourRows(cfg, hours)[i] == HourRowOf(cfg, hours[i]);
    }
  }

  /** A day's severe excess is at most its night excess when that holds of every row. */
  lemma DailySevereBelowPhwe(daily: seq<DailyRecord>, rows: seq<HourRow>, first: nat, n: nat, k: nat)
    requires IsDailyTable(daily, rows, first, n) && k < n
    requires forall i :: 0 <= i < |rows| ==> LoadOf(rows[i], SeverePhwe) <= LoadOf(rows[i], Phwe)
    ensures daily[k].dailySeverePhwe <= daily[k].dailyPhwe
  {
    var group := RowsOfDay(rows, first + k);
    assert Aggregates(daily[k], group);
    forall i | 0 <= i < |group|
      ensures LoadOf(group[i], SeverePhwe) <= LoadOf(group[i], Phwe)
    {
      assert group[i] in rows;
    }
    SumLoadDominated(group, SeverePhwe, Phwe);
  }

  /**
   * When every row's severe excess is at most its night excess, the same holds
   * of the daily table, day by day and cumulatively.
   */
  lemma SevereNeverExceedsPhwe(daily: seq<DailyRecord>, rows: seq<HourRow>, first: nat, n: nat)
    requires IsDailyTable(daily, rows, first, n)
    requires forall i :: 0 <= i < |rows| ==> LoadOf(rows[i], SeverePhwe) <= LoadOf(rows[i], Phwe)
    ensures forall k :: 0 <= k < n ==> daily[k].dailySeverePhwe <= daily[k].dailyPhwe
    ensures forall k :: 0 <= k < n ==> daily[k].cumulativeSeverePhwe <= daily[k].cumulativePhwe
  {
    var xs, ys := DailyColumn(daily, SeverePhwe), DailyColumn(daily, Phwe);
    var cx, cy := CumulativeColumn(daily, SeverePhwe), CumulativeColumn(daily, Phwe);
    forall k | 0 <= k < n
      ensures xs[k] <= ys[k]
      ensures daily[k].dailySeverePhwe <= daily[k].dailyPhwe
    {
      DailySevereBelowPhwe(daily, rows, first, n, k);
    }
    assert IsPrefixSum(xs, cx) && IsPrefixSum(ys, cy);
    forall k | 0 <= k < n
      ensures daily[k].cumulativeSeverePhwe <= daily[k].cumulativePhwe
    {
      PrefixSumDominated(xs, cx, ys, cy, k);
      assert cx[k] == daily[k].cumulativeSeverePhwe && cy[k] == daily[k].cumulativePhwe;
    }
  }
}
