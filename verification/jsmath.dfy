/** The small pieces of JavaScript number semantics the dashboard leans on:
    optional values and `??`, the numeric `||` fallback, `Math.round`, the
    one-decimal `round1` helper, the clamps and dayjs' whole-minute difference.
    Numbers are modelled as `real`; NaN and the infinities are not modelled. */
module JsMath {

  datatype Option<+T> = None | Some(value: T) {
    /** JavaScript `this ?? other`: keep a present value, even a zero one. */
    function OrElse(other: Option<T>): Option<T> {
      if Some? then this else other
    }

    function GetOr(default: T): T {
      if Some? then value else default
    }
  }

  /** JavaScript `c[0] || c[1] || ... || 0` on numbers: the first candidate
      that is not zero, or zero when every candidate is zero. */
  function FirstNonZero(c: seq<real>): (r: real)
    ensures r == 0.0 <==> forall i :: 0 <= i < |c| ==> c[i] == 0.0
    ensures forall i :: 0 <= i < |c| && c[i] != 0.0 && (forall j :: 0 <= j < i ==> c[j] == 0.0) ==> r == c[i]
  {
    if c == [] then 0.0
    else if c[0] != 0.0 then c[0]
    else
      var r := FirstNonZero(c[1..]);
      assert forall i :: 1 <= i < |c| ==> c[i] == c[1..][i - 1];
      r
  }

  /** `Math.round`: the nearest integer, halves rounded up. */
  function Round(x: real): (r: int)
    ensures r as real - 0.5 <= x < r as real + 0.5
  {
    (x + 0.5).Floor
  }

  /** `round1(n) = Math.round(n * 10) / 10`: the nearest multiple of 0.1. */
  function Round1(x: real): (r: real)
    ensures (r * 10.0).Floor as real == r * 10.0
    ensures r - 0.05 <= x < r + 0.05
    ensures x >= 0.0 ==> r >= 0.0
    ensures x <= 100.0 ==> r <= 100.0
  {
    var k := Round(x * 10.0);
    assert k as real / 10.0 * 10.0 == k as real;
    k as real / 10.0
  }

  function Max(a: real, b: real): (r: real)
    ensures r >= a && r >= b && (r == a || r == b)
  {
    if a >= b then a else b
  }

  function Min(a: real, b: real): (r: real)
    ensures r <= a && r <= b && (r == a || r == b)
  {
    if a <= b then a else b
  }

  /** `clamp(n, lo) = Math.min(Infinity, Math.max(lo, n))`: only a lower bound. */
  function ClampLow(n: real, lo: real): (r: real)
    ensures r >= lo
    ensures n >= lo ==> r == n
    ensures n < lo ==> r == lo
  {
    Max(lo, n)
  }

  /** `clamp(n, lo, hi) = Math.min(hi, Math.max(lo, n))`. */
  function Clamp(n: real, lo: real, hi: real): (r: real)
    ensures lo <= hi ==> lo <= r <= hi
    ensures lo <= n <= hi ==> r == n
    ensures lo <= hi && n < lo ==> r == lo
    ensures n > hi ==> r == hi
  {
    Min(hi, Max(lo, n))
  }

  const MillisPerMinute: int := 60_000

  /** dayjs `end.diff(start, "minute")` for timestamps in milliseconds: the
      elapsed whole minutes, truncated toward zero. */
  function WholeMinutes(ms: int): (r: int)
    ensures ms >= 0 ==> 0 <= r * MillisPerMinute <= ms < r * MillisPerMinute + MillisPerMinute
    ensures ms < 0 ==> r * MillisPerMinute - MillisPerMinute < ms <= r * MillisPerMinute <= 0
  {
    if ms >= 0 then ms / MillisPerMinute else -((-ms) / MillisPerMinute)
  }
}
