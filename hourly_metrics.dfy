/**
 * Per-hour part of the daily metrics computation: the effective water level
 * (EWL) of an hour and the three clipped excess terms every hour contributes
 * to its calendar day.
 */
module HourlyMetrics {
  import opened Wrappers

  /** Length of a UTC calendar day in hours. */
  const HoursPerDay: nat := 24

  /**
   * One hourly observation. `t` counts whole hours since the epoch (UTC);
   * the sea-level-rise and wave-setup adjustments may be absent.
   */
  datatype HourlyRecord = HourlyRecord(
    t: nat,
    waterLevelM: real,
    dischargeM3s: real,
    rainfallMm: real,
    slrAdjustM: Option<real>,
    waveSetupM: Option<real>)

  /** The tunable parameters of the aggregation, with their defaults in `Defaults`. */
  datatype Config = Config(
    baselineDayM: real,
    baselineNightM: real,
    nightStartHour: int,
    nightEndHour: int)

  const Defaults := Config(1.0, 0.7, 20, 8)

  /** The fixed night baseline used for the severe excess term. */
  const SevereBaselineNightM: real := 1.0

  /** UTC calendar day of an instant: the day whose 24 hours contain it. */
  function DayOf(t: nat): (d: nat)
    ensures d * HoursPerDay <= t < d * HoursPerDay + HoursPerDay
  {
    t / HoursPerDay
  }

  /** UTC hour of the day of an instant. */
  function HourOf(t: nat): (h: nat)
    ensures h < HoursPerDay
    ensures t == DayOf(t) * HoursPerDay + h
  {
    t % HoursPerDay
  }

  /** A later instant never falls on an earlier calendar day. */
  lemma DayOfMonotone(t: nat, u: nat)
    requires t <= u
    ensures DayOf(t) <= DayOf(u)
  {
  }

  /**
   * Effective water level: the observed level plus the additive adjustments.
   * With no adjustment present it is the observed level, and non-negative
   * adjustments never bring it below the observed level.
   */
  function EffectiveWaterLevel(h: HourlyRecord): (ewl: real)
    ensures h.slrAdjustM.None? && h.waveSetupM.None? ==> ewl == h.waterLevelM
    ensures h.slrAdjustM.UnwrapOr(0.0) >= 0.0 && h.waveSetupM.UnwrapOr(0.0) >= 0.0 ==> ewl >= h.waterLevelM
    ensures h.slrAdjustM.UnwrapOr(0.0) <= 0.0 && h.waveSetupM.UnwrapOr(0.0) <= 0.0 ==> ewl <= h.waterLevelM
  {
    h.waterLevelM + h.slrAdjustM.UnwrapOr(0.0) + h.waveSetupM.UnwrapOr(0.0)
  }

  /**
   * An absent adjustment counts as 0.0, and the adjustments are pure offsets:
   * raising the observed level by `d` raises the EWL by exactly `d`.
   */
  lemma EffectiveWaterLevelOffsets(h: HourlyRecord, d: real)
    ensures h.slrAdjustM == None && h.waveSetupM == None ==> EffectiveWaterLevel(h) == h.waterLevelM
    ensures h.slrAdjustM == Some(0.0) && h.waveSetupM == Some(0.0) ==> EffectiveWaterLevel(h) == h.waterLevelM
    ensures EffectiveWaterLevel(h.(waterLevelM := h.waterLevelM + d)) == EffectiveWaterLevel(h) + d
    ensures EffectiveWaterLevel(h) - h.waterLevelM == h.slrAdjustM.UnwrapOr(0.0) + h.waveSetupM.UnwrapOr(0.0)
  {
  }

  /** Clipping at zero from below: the larger of `x` and 0. */
  function Clip(x: real): (r: real)
    ensures r >= 0.0 && r >= x
    ensures r == 0.0 || r == x
  {
    if x < 0.0 then 0.0 else x
  }

  /**
   * The night window: the hours from the start hour on, together with the
   * hours before the end hour. When the end hour does not come after the start
   * hour the window wraps midnight, and night is every hour outside the day
   * hours from end to start. Otherwise the two parts cover the whole day and
   * every hour counts as night.
   */
  function IsNight(cfg: Config, hour: nat): (night: bool)
    ensures cfg.nightEndHour <= cfg.nightStartHour ==>
              (night <==> !(cfg.nightEndHour <= hour < cfg.nightStartHour))
    ensures cfg.nightStartHour < cfg.nightEndHour ==> night
  {
    hour >= cfg.nightStartHour || hour < cfg.nightEndHour
  }

  /** With the default window the night hours are exactly 20..23 and 0..7. */
  lemma DefaultNightWindow(hour: nat)
    requires hour < HoursPerDay
    ensures IsNight(Defaults, hour) <==> (20 <= hour <= 23 || hour <= 7)
    ensures !IsNight(Defaults, hour) <==> 8 <= hour <= 19
  {
  }

  /** An hour of the working frame: the record's time, its EWL and its three excess terms. */
  datatype HourRow = HourRow(
    t: nat,
    ewlM: real,
    cflHour: real,
    phweHour: real,
    severePhweHour: real,
    rainfallMm: real,
    dischargeM3s: real)

  /**
   * The frame row an hourly record becomes. The day excess counts on every
   * hour; the two night excesses count on night hours only.
   */
  function HourRowOf(cfg: Config, h: HourlyRecord): (r: HourRow)
    ensures r.t == h.t && r.ewlM == EffectiveWaterLevel(h)
    ensures r.rainfallMm == h.rainfallMm && r.dischargeM3s == h.dischargeM3s
    ensures r.cflHour >= 0.0 && r.phweHour >= 0.0 && r.severePhweHour >= 0.0
    ensures r.cflHour >= r.ewlM - cfg.baselineDayM && (r.cflHour == 0.0 || r.cflHour == r.ewlM - cfg.baselineDayM)
    ensures !IsNight(cfg, HourOf(h.t)) ==> r.phweHour == 0.0 && r.severePhweHour == 0.0
    ensures IsNight(cfg, HourOf(h.t)) ==>
              r.phweHour >= r.ewlM - cfg.baselineNightM && (r.phweHour == 0.0 || r.phweHour == r.ewlM - cfg.baselineNightM)
    ensures IsNight(cfg, HourOf(h.t)) ==>
              r.severePhweHour >= r.ewlM - SevereBaselineNightM && (r.severePhweHour == 0.0 || r.severePhweHour == r.ewlM - SevereBaselineNightM)
    ensures cfg.baselineNightM <= SevereBaselineNightM ==> r.severePhweHour <= r.phweHour
    ensures IsNight(cfg, HourOf(h.t)) && cfg.baselineNightM <= cfg.baselineDayM ==> r.cflHour <= r.phweHour
  {
    var ewl := EffectiveWaterLevel(h);
    var night := IsNight(cfg, HourOf(h.t));
    HourRow(
      h.t,
      ewl,
      Clip(ewl - cfg.baselineDayM),
      if night then Clip(ewl - cfg.baselineNightM) else 0.0,
      if night then Clip(ewl - SevereBaselineNightM) else 0.0,
      h.rainfallMm,
      h.dischargeM3s)
  }

  /**
   * The whole working frame: one row per record in the same order, each
   * carrying its record's time and EWL and three non-negative excess terms.
   */
  function HourRows(cfg: Config, hours: seq<HourlyRecord>): (rows: seq<HourRow>)
    ensures |rows| == |hours|
    ensures forall i :: 0 <= i < |hours| ==> rows[i].t == hours[i].t && rows[i].ewlM == EffectiveWaterLevel(hours[i])
    ensures forall i :: 0 <= i < |hours| ==>
              rows[i].cflHour >= 0.0 && rows[i].phweHour >= 0.0 && rows[i].severePhweHour >= 0.0
  {
    seq(|hours|, i requires 0 <= i < |hours| => HourRowOf(cfg, hours[i]))
  }

  /**
   * A night-only excess column: every entry starts at 0.0 and the entries of
   * the night hours are then overwritten with the clipped excess over `baselineM`.
   */
  method NightExcessColumn(cfg: Config, hours: seq<HourlyRecord>, ewl: seq<real>, baselineM: real)
    returns (col: seq<real>)
    requires |ewl| == |hours|
    ensures |col| == |hours|
    ensures forall i :: 0 <= i < |hours| && IsNight(cfg, HourOf(hours[i].t)) ==> col[i] == Clip(ewl[i] - baselineM)
    ensures forall i :: 0 <= i < |hours| && !IsNight(cfg, HourOf(hours[i].t)) ==> col[i] == 0.0
  {
    var a := new real[|hours|](_ => 0.0);
    for i := 0 to |hours|
      invariant forall j :: 0 <= j < i && IsNight(cfg, HourOf(hours[j].t)) ==> a[j] == Clip(ewl[j] - baselineM)
      invariant forall j :: 0 <= j < |hours| && (i <= j || !IsNight(cfg, HourOf(hours[j].t))) ==> a[j] == 0.0
    {
      if IsNight(cfg, HourOf(hours[i].t)) {
        a[i] := Clip(ewl[i] - baselineM);
      }
    }
    col := a[..];
  }

  /** Adds the EWL column and the three excess columns to the frame. */
  method HourlyColumns(cfg: Config, hours: seq<HourlyRecord>) returns (rows: seq<HourRow>)
    ensures rows == HourRows(cfg, hours)
  {
    var n := |hours|;
    var ewl := seq(n, i requires 0 <= i < n => EffectiveWaterLevel(hours[i]));
    var cfl := seq(n, i requires 0 <= i < n => Clip(ewl[i] - cfg.baselineDayM));
    var phwe := NightExcessColumn(cfg, hours, ewl, cfg.baselineNightM);
    var severe := NightExcessColumn(cfg, hours, ewl, SevereBaselineNightM);
    rows := seq(n, i requires 0 <= i < n =>
      HourRow(hours[i].t, ewl[i], cfl[i], phwe[i], severe[i], hours[i].rainfallMm, hours[i].dischargeM3s));
  }
}
