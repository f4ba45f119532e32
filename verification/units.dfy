/** Unit conversions of the dashboard: the deriver's `m2h`/`s2h` and the
    page-level `toH` and `pct` helpers. */
module Units {
  import opened JsMath

  /** `m2h`: minutes to hours, an absent value counting as zero hours. */
  function M2H(m: Option<real>): (r: real)
    ensures m.None? ==> r == 0.0
    ensures m.Some? ==> r * 60.0 == m.value
  {
    if m.None? then 0.0 else m.value / 60.0
  }

  /** `s2h`: seconds to hours, an absent value counting as zero hours. */
  function S2H(s: Option<real>): (r: real)
    ensures s.None? ==> r == 0.0
    ensures s.Some? ==> r * 3600.0 == s.value
  {
    if s.None? then 0.0 else s.value / 3600.0
  }

  datatype TimeUnit = Min | Sec

  /** `toH(v, unit)`: a falsy value (absent or zero) gives zero hours,
      otherwise minutes or seconds are converted to hours. */
  function ToH(v: Option<real>, unit: TimeUnit): (r: real)
    ensures r == 0.0 <==> v.None? || v.value == 0.0
    ensures v.Some? && unit == Min ==> r * 60.0 == v.value
    ensures v.Some? && unit == Sec ==> r * 3600.0 == v.value
  {
    if v.None? || v.value == 0.0 then 0.0
    else if unit == Min then v.value / 60.0
    else v.value / 3600.0
  }

  /** `pct(v)`: an absent value is 0; a value at most 1 is a fraction and is
      scaled to a whole percentage; a larger one is already a percentage and is
      only rounded. */
  function Pct(v: Option<real>): (r: int)
    ensures v.None? ==> r == 0
    ensures v.Some? && v.value <= 1.0 ==> r as real - 0.5 <= v.value * 100.0 < r as real + 0.5
    ensures v.Some? && v.value > 1.0 ==> r as real - 0.5 <= v.value < r as real + 0.5
  {
    if v.None? then 0
    else if v.value <= 1.0 then Round(v.value * 100.0)
    else Round(v.value)
  }

  /** A percentage above 1 and the same quantity written as a fraction give
      the same `pct`. */
  lemma FractionAndPercentAgree(p: real)
    requires 1.0 < p <= 100.0
    ensures Pct(Some(p / 100.0)) == Pct(Some(p))
  {
  }
}
