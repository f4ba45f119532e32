/** The scaling inside `StackedBar`, the four-colour bar of the stage
    distribution: each percentage is clamped to [0, 100] and the four are
    rescaled so that the bar is filled exactly, or left empty. */
module StageBar {
  import opened JsMath
  import opened Records
  import SleepMetrics

  /** `clamp(n) = Math.max(0, Math.min(100, n))` for a finite `n`. */
  function ClampPercent(n: real): (r: real)
    ensures 0.0 <= r <= 100.0
    ensures 0.0 <= n <= 100.0 ==> r == n
    ensures n < 0.0 ==> r == 0.0
    ensures n > 100.0 ==> r == 100.0
  {
    Max(0.0, Min(100.0, n))
  }

  datatype Widths = Widths(awake: real, rem: real, light: real, deep: real)

  /** The widths of the four segments, in percent of the bar: the clamped
      inputs rescaled to fill the bar, or all zero when the clamped sum is
      zero. */
  function BarWidths(awakePct: real, remPct: real, lightPct: real, deepPct: real): (w: Widths)
    ensures var sum := ClampPercent(awakePct) + ClampPercent(remPct) + ClampPercent(lightPct) + ClampPercent(deepPct);
      && (sum > 0.0 ==> w.awake + w.rem + w.light + w.deep == 100.0)
      && (sum == 0.0 ==> w == Widths(0.0, 0.0, 0.0, 0.0))
    ensures 0.0 <= w.awake <= 100.0 && 0.0 <= w.rem <= 100.0 && 0.0 <= w.light <= 100.0 && 0.0 <= w.deep <= 100.0
  {
    Rescale(ClampPercent(awakePct), ClampPercent(remPct), ClampPercent(lightPct), ClampPercent(deepPct))
  }

  /** `sum = a + r + l + d; scale = sum > 0 ? 100 / sum : 0` and the four
      segments `x * scale`, for amounts that are not negative. */
  function Rescale(a: real, r: real, l: real, d: real): (w: Widths)
    requires a >= 0.0 && r >= 0.0 && l >= 0.0 && d >= 0.0
    ensures var sum := a + r + l + d;
      && (sum > 0.0 ==> w.awake + w.rem + w.light + w.deep == 100.0)
      && (sum > 0.0 ==> w.awake * sum == a * 100.0 && w.rem * sum == r * 100.0 &&
                        w.light * sum == l * 100.0 && w.deep * sum == d * 100.0)
      && (sum == 0.0 ==> w == Widths(0.0, 0.0, 0.0, 0.0))
    ensures 0.0 <= w.awake <= 100.0 && 0.0 <= w.rem <= 100.0 && 0.0 <= w.light <= 100.0 && 0.0 <= w.deep <= 100.0
  {
    var sum := a + r + l + d;
    var scale := if sum > 0.0 then 100.0 / sum else 0.0;
    if sum > 0.0 then
      ScaledPart(a, sum, scale);
      ScaledPart(r, sum, scale);
      ScaledPart(l, sum, scale);
      ScaledPart(d, sum, scale);
      assert a * scale + r * scale + l * scale + d * scale == sum * scale;
      Widths(a * scale, r * scale, l * scale, d * scale)
    else
      Widths(a * scale, r * scale, l * scale, d * scale)
  }

  /** One segment `x * (100 / sum)` of a positive sum it is part of. */
  lemma ScaledPart(x: real, sum: real, scale: real)
    requires 0.0 <= x <= sum && sum > 0.0 && scale == 100.0 / sum
    ensures 0.0 <= x * scale <= 100.0
    ensures x * scale * sum == x * 100.0
    ensures sum * scale == 100.0
  {
    assert x * scale <= sum * scale;
  }

  /** The bar draws the deriver's stage shares as they are: for stage amounts
      that are not negative and not all zero, the shares already lie in
      [0, 100] and add up to 100, so clamping and rescaling change nothing. */
  lemma {:induction false} BarShowsShares(awake: real, rem: real, light: real, deep: real)
    requires awake >= 0.0 && rem >= 0.0 && light >= 0.0 && deep >= 0.0
    requires awake + rem + light + deep > 0.0
    ensures var p := SleepMetrics.StageShares(awake, rem, light, deep);
      BarWidths(p.awake, p.rem, p.light, p.deep) == Widths(p.awake, p.rem, p.light, p.deep)
  {
    var p := SleepMetrics.StageShares(awake, rem, light, deep);
    SleepMetrics.SharesBounded(awake, rem, light, deep);
    assert ClampPercent(p.awake) == p.awake && ClampPercent(p.rem) == p.rem;
    assert ClampPercent(p.light) == p.light && ClampPercent(p.deep) == p.deep;
    RescaleFull(p.awake, p.rem, p.light, p.deep);
  }

  /** Amounts that already add up to 100 are drawn as they are. */
  lemma RescaleFull(a: real, r: real, l: real, d: real)
    requires a >= 0.0 && r >= 0.0 && l >= 0.0 && d >= 0.0
    requires a + r + l + d == 100.0
    ensures Rescale(a, r, l, d) == Widths(a, r, l, d)
  {
  }

  /** For a day whose records hold no negative numbers, the bar draws the
      page's stage percentages exactly: all zero, or in [0, 100] and filling
      the bar, and in either case unchanged by clamping and rescaling. */
  lemma NightBarShowsShares(daily: Option<DailyItem>, sleep: Option<SleepItem>)
    requires NonNegative(DailyFields(daily)) && NonNegative(SessionFields(sleep))
    ensures var h := SleepMetrics.NightHours(daily, sleep);
      var p := SleepMetrics.StageShares(h.awake, h.rem, h.light, h.deep);
      BarWidths(p.awake, p.rem, p.light, p.deep) == Widths(p.awake, p.rem, p.light, p.deep)
  {
    var h := SleepMetrics.NightHours(daily, sleep);
    SleepMetrics.NightHoursNonNegative(daily, sleep);
    if h.awake + h.rem + h.light + h.deep > 0.0 {
      BarShowsShares(h.awake, h.rem, h.light, h.deep);
    }
  }
}
