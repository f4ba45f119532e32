/** The metrics deriver of the dashboard page: from one daily summary and at
    most one sleep session, in mixed units, to hours for every stage, a
    percentage for efficiency, whole minutes for latency and a four-way stage
    breakdown. Each quantity is first given as a function stating its fallback
    chain; `DeriveMetrics` then computes them the way the page does, by
    reassigning locals, and is proved to agree. */
module SleepMetrics {
  import opened JsMath
  import opened Records
  import opened Units

  /** A raw efficiency at most this large is a fraction, not a percentage. */
  const FractionLimit: real := 1.0
  /** A raw latency above this many units is in seconds, not minutes. */
  const SecondsThreshold: real := 120.0
  /** An inferred light-sleep amount at most this many hours is noise. */
  const LightNoiseFloor: real := 0.01

  datatype Stage = Rem | Deep | Light

  // The field names probed for each quantity, in the order they are tried.
  const SessionTotalKeys: seq<string> := ["total_sleep_duration"]
  const DailyTotalKeys: seq<string> := ["total_sleep"]
  const DailyTibMinutesKeys: seq<string> := ["time_in_bed"]
  const DailyTibSecondsKeys: seq<string> := ["time_in_bed_duration"]
  const SessionTibKeys: seq<string> := ["time_in_bed", "time_in_bed_duration"]
  const SessionAwakeKeys: seq<string> := ["awake_duration", "awake_time"]
  const DailyAwakeKeys: seq<string> := ["awake_time"]
  const EfficiencyKeys: seq<string> := ["efficiency"]
  const DailyLatencyKeys: seq<string> := ["latency", "sleep_latency"]
  const SessionLatencyKeys: seq<string> := ["latency"]
  const ScoreKeys: seq<string> := ["score"]

  /** The session field of a stage, in seconds. */
  function SessionStageKeys(st: Stage): seq<string> {
    match st
    case Rem => ["rem_sleep_duration"]
    case Deep => ["deep_sleep_duration"]
    case Light => ["light_sleep_duration"]
  }

  /** The daily field of a stage, in minutes. */
  function DailyStageKeys(st: Stage): seq<string> {
    match st
    case Rem => ["rem_sleep"]
    case Deep => ["deep_sleep"]
    case Light => ["light_sleep"]
  }

  function SessionStage(sleep: Option<SleepItem>, st: Stage): real {
    S2H(Pick(SessionFields(sleep), SessionStageKeys(st)))
  }

  function DailyStage(daily: Option<DailyItem>, st: Stage): real {
    M2H(Pick(DailyFields(daily), DailyStageKeys(st)))
  }

  function SessionTotal(sleep: Option<SleepItem>): real {
    S2H(Pick(SessionFields(sleep), SessionTotalKeys))
  }

  function DailyTotal(daily: Option<DailyItem>): real {
    M2H(Pick(DailyFields(daily), DailyTotalKeys))
  }

  function SessionStageSum(sleep: Option<SleepItem>): real {
    SessionStage(sleep, Rem) + SessionStage(sleep, Deep) + SessionStage(sleep, Light)
  }

  function DailyStageSum(daily: Option<DailyItem>): real {
    DailyStage(daily, Rem) + DailyStage(daily, Deep) + DailyStage(daily, Light)
  }

  /** Total sleep in hours: the first of session total, daily total, session
      stage sum and daily stage sum that is not zero; zero if all are. */
  function TotalHours(daily: Option<DailyItem>, sleep: Option<SleepItem>): (r: real)
    ensures SessionTotal(sleep) != 0.0 ==> r == SessionTotal(sleep)
    ensures SessionTotal(sleep) == 0.0 && DailyTotal(daily) != 0.0 ==> r == DailyTotal(daily)
    ensures SessionTotal(sleep) == 0.0 && DailyTotal(daily) == 0.0 && SessionStageSum(sleep) != 0.0 ==>
      r == SessionStageSum(sleep)
    ensures SessionTotal(sleep) == 0.0 && DailyTotal(daily) == 0.0 && SessionStageSum(sleep) == 0.0 ==>
      r == DailyStageSum(daily)
  {
    var c := [SessionTotal(sleep), DailyTotal(daily), SessionStageSum(sleep), DailyStageSum(daily)];
    assert c[1] == DailyTotal(daily) && c[2] == SessionStageSum(sleep) && c[3] == DailyStageSum(daily);
    FirstNonZero(c)
  }

  /** Hours of one stage as the provider reports it: the session's seconds
      when not zero, otherwise the daily minutes (zero when both are). */
  function StageHours(daily: Option<DailyItem>, sleep: Option<SleepItem>, st: Stage): (r: real)
    ensures SessionStage(sleep, st) != 0.0 ==> r == SessionStage(sleep, st)
    ensures SessionStage(sleep, st) == 0.0 ==> r == DailyStage(daily, st)
  {
    var c := [SessionStage(sleep, st), DailyStage(daily, st)];
    assert c[1] == DailyStage(daily, st);
    FirstNonZero(c)
  }

  /** Hours between the session's bedtimes, from dayjs' whole-minute
      difference, never negative; zero unless both bedtimes are present. */
  function BedtimeSpanHours(sleep: Option<SleepItem>): (r: real)
    ensures r >= 0.0
    ensures sleep.None? || sleep.value.bedtimeStart.None? || sleep.value.bedtimeEnd.None? ==> r == 0.0
    ensures sleep.Some? && sleep.value.bedtimeStart.Some? && sleep.value.bedtimeEnd.Some? ==>
      var minutes := WholeMinutes(sleep.value.bedtimeEnd.value - sleep.value.bedtimeStart.value);
      r * 60.0 == (if minutes >= 0 then minutes as real else 0.0)
  {
    if sleep.Some? && sleep.value.bedtimeStart.Some? && sleep.value.bedtimeEnd.Some? then
      ClampLow(WholeMinutes(sleep.value.bedtimeEnd.value - sleep.value.bedtimeStart.value) as real / 60.0, 0.0)
    else 0.0
  }

  function DailyTibMinutes(daily: Option<DailyItem>): real {
    M2H(Pick(DailyFields(daily), DailyTibMinutesKeys))
  }

  function DailyTibSeconds(daily: Option<DailyItem>): real {
    S2H(Pick(DailyFields(daily), DailyTibSecondsKeys))
  }

  function SessionTib(sleep: Option<SleepItem>): real {
    S2H(Pick(SessionFields(sleep), SessionTibKeys))
  }

  /** Time in bed in hours: the first of daily minutes, daily seconds, session
      seconds and the bedtime span that is not zero. */
  function TimeInBedHours(daily: Option<DailyItem>, sleep: Option<SleepItem>): (r: real)
    ensures DailyTibMinutes(daily) != 0.0 ==> r == DailyTibMinutes(daily)
    ensures DailyTibMinutes(daily) == 0.0 && DailyTibSeconds(daily) != 0.0 ==> r == DailyTibSeconds(daily)
    ensures DailyTibMinutes(daily) == 0.0 && DailyTibSeconds(daily) == 0.0 && SessionTib(sleep) != 0.0 ==>
      r == SessionTib(sleep)
    ensures DailyTibMinutes(daily) == 0.0 && DailyTibSeconds(daily) == 0.0 && SessionTib(sleep) == 0.0 ==>
      r == BedtimeSpanHours(sleep)
  {
    var c := [DailyTibMinutes(daily), DailyTibSeconds(daily), SessionTib(sleep), BedtimeSpanHours(sleep)];
    assert c[1] == DailyTibSeconds(daily) && c[2] == SessionTib(sleep) && c[3] == BedtimeSpanHours(sleep);
    FirstNonZero(c)
  }

  /** Awake hours the provider measured: session `awake_duration` or
      `awake_time` seconds, otherwise daily `awake_time` minutes. */
  function MeasuredAwakeHours(daily: Option<DailyItem>, sleep: Option<SleepItem>): (r: real)
    ensures S2H(Pick(SessionFields(sleep), SessionAwakeKeys)) != 0.0 ==>
      r == S2H(Pick(SessionFields(sleep), SessionAwakeKeys))
    ensures S2H(Pick(SessionFields(sleep), SessionAwakeKeys)) == 0.0 ==>
      r == M2H(Pick(DailyFields(daily), DailyAwakeKeys))
  {
    var c := [S2H(Pick(SessionFields(sleep), SessionAwakeKeys)),
              M2H(Pick(DailyFields(daily), DailyAwakeKeys))];
    assert c[1] == M2H(Pick(DailyFields(daily), DailyAwakeKeys));
    FirstNonZero(c)
  }

  /** Awake hours: the measured value when it is not zero; otherwise, when
      time in bed and total sleep are both positive, the time in bed not spent
      asleep, never negative; otherwise zero. */
  function AwakeHours(measured: real, tib: real, total: real): (r: real)
    ensures measured != 0.0 ==> r == measured
    ensures measured == 0.0 ==> r >= 0.0
    ensures measured == 0.0 && tib > 0.0 && total > 0.0 ==> r >= tib - total && (r == 0.0 || r + total == tib)
    ensures measured == 0.0 && !(tib > 0.0 && total > 0.0) ==> r == 0.0
  {
    if measured != 0.0 then measured
    else if tib > 0.0 && total > 0.0 then ClampLow(tib - total, 0.0)
    else 0.0
  }

  /** Light-sleep hours: the reported value when it is not zero; otherwise,
      when total sleep is positive, what total sleep leaves after REM and deep
      if that exceeds the noise floor; otherwise zero. An inferred value is
      never negative and makes the three stages add up to the total. */
  function LightHours(reported: real, total: real, rem: real, deep: real): (r: real)
    ensures reported != 0.0 ==> r == reported
    ensures reported == 0.0 ==> r >= 0.0
    ensures reported == 0.0 && total > 0.0 && total - rem - deep > LightNoiseFloor ==> r + rem + deep == total
    ensures reported == 0.0 && !(total > 0.0 && total - rem - deep > LightNoiseFloor) ==> r == 0.0
  {
    if reported != 0.0 then reported
    else if total > 0.0 && total - rem - deep > LightNoiseFloor then total - rem - deep
    else 0.0
  }

  /** Efficiency in percent, before rounding: a non-zero raw value at most 1 is
      a fraction and is scaled by 100; a raw value above 1 is a percentage and
      is kept as it is, unclamped. Without a raw value, or with a zero one, it
      is total sleep over time in bed, clamped to [0, 100], when both are
      positive, and zero otherwise. */
  function EfficiencyPercent(raw: Option<real>, tib: real, total: real): (r: real)
    ensures raw.Some? && raw.value != 0.0 && raw.value <= FractionLimit ==> r == raw.value * 100.0
    ensures raw.Some? && raw.value > FractionLimit ==> r == raw.value
    ensures (raw.None? || raw.value == 0.0) && tib > 0.0 && total > 0.0 ==>
      0.0 <= r <= 100.0 && (total <= tib ==> r * tib == total * 100.0) && (total >= tib ==> r == 100.0)
    ensures (raw.None? || raw.value == 0.0) && !(tib > 0.0 && total > 0.0) ==> r == 0.0
  {
    if raw.Some? && raw.value != 0.0 then
      (if raw.value <= FractionLimit then raw.value * 100.0 else raw.value)
    else if tib > 0.0 && total > 0.0 then
      RatioPercent(total, tib)
    else 0.0
  }

  /** `clamp(total / tib * 100, 0, 100)` for a positive time in bed. */
  function RatioPercent(total: real, tib: real): (r: real)
    requires tib > 0.0
    ensures 0.0 <= r <= 100.0
    ensures 0.0 <= total <= tib ==> r * tib == total * 100.0
    ensures total >= tib ==> r == 100.0
  {
    var q := total / tib * 100.0;
    assert q * tib == total * 100.0;
    assert total >= tib ==> q >= 100.0;
    assert 0.0 <= total <= tib ==> 0.0 <= q <= 100.0;
    Clamp(q, 0.0, 100.0)
  }

  function RawEfficiency(daily: Option<DailyItem>): Option<real> {
    Pick(DailyFields(daily), EfficiencyKeys)
  }

  function DailyLatency(daily: Option<DailyItem>): Option<real> {
    Pick(DailyFields(daily), DailyLatencyKeys)
  }

  function SessionLatency(sleep: Option<SleepItem>): Option<real> {
    Pick(SessionFields(sleep), SessionLatencyKeys)
  }

  /** A raw latency in whole minutes: above 120 it is taken as seconds,
      otherwise as minutes, and rounded to the nearest minute. */
  function LatencyToMinutes(raw: real): (r: int)
    ensures raw > SecondsThreshold ==> r as real - 0.5 <= raw / 60.0 < r as real + 0.5
    ensures raw <= SecondsThreshold ==> r as real - 0.5 <= raw < r as real + 0.5
  {
    Round(if raw > SecondsThreshold then raw / 60.0 else raw)
  }

  /** Latency in whole minutes, or none when neither the daily value nor the
      session value is present; a daily value wins even when it is zero. */
  function LatencyMinutes(dailyRaw: Option<real>, sessionRaw: Option<real>): (r: Option<int>)
    ensures r.None? <==> dailyRaw.None? && sessionRaw.None?
    ensures dailyRaw.Some? ==> r == Some(LatencyToMinutes(dailyRaw.value))
    ensures dailyRaw.None? && sessionRaw.Some? ==> r == Some(LatencyToMinutes(sessionRaw.value))
  {
    var raw := dailyRaw.OrElse(sessionRaw);
    if raw.None? then None else Some(LatencyToMinutes(raw.value))
  }

  datatype Shares = Shares(awake: real, rem: real, light: real, deep: real)

  /** The stage distribution: each stage's share of the four-stage sum, in
      percent; all zero when that sum is zero, so nothing is divided by zero. */
  function StageShares(awake: real, rem: real, light: real, deep: real): (p: Shares)
    ensures awake + rem + light + deep == 0.0 ==> p == Shares(0.0, 0.0, 0.0, 0.0)
    ensures awake + rem + light + deep != 0.0 ==> p.awake + p.rem + p.light + p.deep == 100.0
    ensures awake + rem + light + deep != 0.0 ==>
      var sum := awake + rem + light + deep;
      p.awake * sum == awake * 100.0 && p.rem * sum == rem * 100.0 &&
      p.light * sum == light * 100.0 && p.deep * sum == deep * 100.0
  {
    var sum := awake + rem + light + deep;
    if sum == 0.0 then Shares(0.0, 0.0, 0.0, 0.0)
    else
      var p := Shares(awake / sum * 100.0, rem / sum * 100.0, light / sum * 100.0, deep / sum * 100.0);
      SharesSum(awake, rem, light, deep);
      p
  }

  lemma SharesSum(a: real, r: real, l: real, d: real)
    requires a + r + l + d != 0.0
    ensures var s := a + r + l + d;
      a / s * 100.0 + r / s * 100.0 + l / s * 100.0 + d / s * 100.0 == 100.0
  {
  }

  /** When every stage amount is non-negative and one is positive, every share
      lies in [0, 100]. */
  lemma {:induction false} SharesBounded(awake: real, rem: real, light: real, deep: real)
    requires awake >= 0.0 && rem >= 0.0 && light >= 0.0 && deep >= 0.0
    requires awake + rem + light + deep > 0.0
    ensures var p := StageShares(awake, rem, light, deep);
      0.0 <= p.awake <= 100.0 && 0.0 <= p.rem <= 100.0 && 0.0 <= p.light <= 100.0 && 0.0 <= p.deep <= 100.0
  {
    var s := awake + rem + light + deep;
    var p := StageShares(awake, rem, light, deep);
    ShareBounded(awake, s, p.awake);
    ShareBounded(rem, s, p.rem);
    ShareBounded(light, s, p.light);
    ShareBounded(deep, s, p.deep);
  }

  lemma ShareBounded(x: real, s: real, q: real)
    requires 0.0 <= x <= s && s > 0.0
    requires q * s == x * 100.0
    ensures 0.0 <= q <= 100.0
  {
  }

  /** The page's view model of one day. */
  datatype Metrics = Metrics(
    score: Option<real>,
    efficiency: real,
    latencyMin: Option<int>,
    bedtime: Option<int>,
    waketime: Option<int>,
    total: real,
    rem: real,
    light: real,
    deep: real,
    awake: real,
    awakePct: real,
    remPct: real,
    lightPct: real,
    deepPct: real)

  /** The unrounded hours of one night, and the time in bed used to estimate
      them: the fallback chains for total, REM and deep, then light and awake
      completed from them where the provider left them out. */
  datatype Hours = Hours(total: real, rem: real, deep: real, light: real, tib: real, awake: real)

  function NightHours(daily: Option<DailyItem>, sleep: Option<SleepItem>): Hours {
    var total, tib := TotalHours(daily, sleep), TimeInBedHours(daily, sleep);
    var rem, deep := StageHours(daily, sleep, Rem), StageHours(daily, sleep, Deep);
    Hours(total, rem, deep,
          LightHours(StageHours(daily, sleep, Light), total, rem, deep),
          tib,
          AwakeHours(MeasuredAwakeHours(daily, sleep), tib, total))
  }

  /** The first half of the `metrics` computation: hours are read through
      their fallback chains, then awake and light are corrected in place as on
      the page. */
  method DeriveHours(daily: Option<DailyItem>, sleep: Option<SleepItem>) returns (h: Hours)
    ensures h == NightHours(daily, sleep)
  {
    // totals and stages, in hours
    var totalH := TotalHours(daily, sleep);
    var remH := StageHours(daily, sleep, Rem);
    var deepH := StageHours(daily, sleep, Deep);
    var lightH := StageHours(daily, sleep, Light);

    var tibH := TimeInBedHours(daily, sleep);

    // awake: estimated from time in bed when nothing was measured
    var awakeH := MeasuredAwakeHours(daily, sleep);
    if awakeH == 0.0 && tibH > 0.0 && totalH > 0.0 {
      awakeH := ClampLow(tibH - totalH, 0.0);
    }
    assert awakeH == AwakeHours(MeasuredAwakeHours(daily, sleep), tibH, totalH);

    // light: inferred from the other stages when it is missing
    if lightH == 0.0 && totalH > 0.0 {
      var inferred := totalH - remH - deepH;
      lightH := if inferred > LightNoiseFloor then inferred else 0.0;
    }
    assert lightH == LightHours(StageHours(daily, sleep, Light), totalH, remH, deepH);

    h := Hours(totalH, remH, deepH, lightH, tibH, awakeH);
  }

  /** The efficiency step of the `metrics` computation: the raw value is
      normalised, then replaced by the time-in-bed ratio when it is missing or
      zero, as on the page. */
  method DeriveEfficiency(rawEff: Option<real>, tibH: real, totalH: real) returns (e: real)
    ensures e == EfficiencyPercent(rawEff, tibH, totalH)
  {
    var efficiency: Option<real> := None;
    if rawEff.Some? {
      efficiency := Some(if rawEff.value <= FractionLimit then rawEff.value * 100.0 else rawEff.value);
    }
    if (efficiency.None? || efficiency.value == 0.0) && tibH > 0.0 && totalH > 0.0 {
      efficiency := Some(Clamp(totalH / tibH * 100.0, 0.0, 100.0));
    }
    e := efficiency.GetOr(0.0);
  }

  /** For records without negative numbers every derived duration, time in
      bed included, is non-negative: the fallbacks only pick, convert and add
      such numbers, and both estimates are clamped or cut off at zero. */
  lemma NightHoursNonNegative(daily: Option<DailyItem>, sleep: Option<SleepItem>)
    requires NonNegative(DailyFields(daily)) && NonNegative(SessionFields(sleep))
    ensures var h := NightHours(daily, sleep);
      h.total >= 0.0 && h.rem >= 0.0 && h.deep >= 0.0 && h.light >= 0.0 && h.tib >= 0.0 && h.awake >= 0.0
  {
    var df, sf := DailyFields(daily), SessionFields(sleep);
    PickNonNegative(sf, SessionTotalKeys);
    PickNonNegative(df, DailyTotalKeys);
    PickNonNegative(df, DailyTibMinutesKeys);
    PickNonNegative(df, DailyTibSecondsKeys);
    PickNonNegative(sf, SessionTibKeys);
    PickNonNegative(sf, SessionAwakeKeys);
    PickNonNegative(df, DailyAwakeKeys);
    forall st: Stage ensures SessionStage(sleep, st) >= 0.0 && DailyStage(daily, st) >= 0.0 {
      PickNonNegative(sf, SessionStageKeys(st));
      PickNonNegative(df, DailyStageKeys(st));
    }
  }

  /** The `metrics` computation: after the hours, efficiency is set and then
      corrected step by step as on the page; the result agrees, field by
      field, with the functions above, durations and efficiency rounded to
      one decimal. */
  method DeriveMetrics(daily: Option<DailyItem>, sleep: Option<SleepItem>) returns (m: Metrics)
    ensures m.score == Pick(DailyFields(daily), ScoreKeys)
    ensures m.bedtime == (if sleep.Some? then sleep.value.bedtimeStart else None)
    ensures m.waketime == (if sleep.Some? then sleep.value.bedtimeEnd else None)
    ensures var h := NightHours(daily, sleep);
      && m.total == Round1(h.total)
      && m.rem == Round1(h.rem)
      && m.deep == Round1(h.deep)
      && m.light == Round1(h.light)
      && m.awake == Round1(h.awake)
      && m.efficiency == Round1(EfficiencyPercent(RawEfficiency(daily), h.tib, h.total))
      && Shares(m.awakePct, m.remPct, m.lightPct, m.deepPct) == StageShares(h.awake, h.rem, h.light, h.deep)
    ensures m.latencyMin == LatencyMinutes(DailyLatency(daily), SessionLatency(sleep))
  {
    var df, sf := DailyFields(daily), SessionFields(sleep);
    var h := DeriveHours(daily, sleep);

    var rawEff := PickFirst(df, EfficiencyKeys);
    var efficiency := DeriveEfficiency(rawEff, h.tib, h.total);

    // latency: daily first (even a zero), then the session
    var dailyLat := PickFirst(df, DailyLatencyKeys);
    var sessionLat := PickFirst(sf, SessionLatencyKeys);
    var latencyMin := LatencyMinutes(dailyLat, sessionLat);

    // distribution
    var shares := StageShares(h.awake, h.rem, h.light, h.deep);

    var score := PickFirst(df, ScoreKeys);
    m := Metrics(score, Round1(efficiency), latencyMin,
                 if sleep.Some? then sleep.value.bedtimeStart else None,
                 if sleep.Some? then sleep.value.bedtimeEnd else None,
                 Round1(h.total), Round1(h.rem), Round1(h.light), Round1(h.deep), Round1(h.awake),
                 shares.awake, shares.rem, shares.light, shares.deep);
  }
}
