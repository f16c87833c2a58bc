/** The two numeric helpers every interpolating task uses. */
module Easing {

  /** Linear blend from `start` (at time 0) to `end` (at time 1). */
  function Lerp(start: real, end: real, time: real): (r: real)
    ensures time == 0.0 ==> r == start
    ensures time == 1.0 ==> r == end
    ensures start == end ==> r == start
  {
    start * (1.0 - time) + end * time
  }

  /** `Math.min(hi, Math.max(v, lo))`: `hi` wins when the bounds are crossed. */
  function Clamp(v: real, lo: real, hi: real): (r: real)
    ensures r <= hi
    ensures lo <= hi ==> lo <= r
    ensures lo <= v <= hi ==> r == v
    ensures v >= hi ==> r == hi
    ensures v <= lo && lo <= hi ==> r == lo
  {
    var m := if v >= lo then v else lo;
    if hi <= m then hi else m
  }

  /** The fraction of a task of length `d` completed after `total` time. */
  function Progress(total: real, d: real): (u: real)
    requires d > 0.0
    ensures 0.0 <= u <= 1.0
    ensures total >= d ==> u == 1.0
    ensures total <= 0.0 ==> u == 0.0
    ensures 0.0 <= total <= d ==> u * d == total
  {
    assert total / d * d == total;
    assert 0.0 <= total <= d ==> 0.0 <= total / d <= 1.0;
    Clamp(total / d, 0.0, 1.0)
  }

  /** For a fraction in [0, 1], the blend lies between its two ends. */
  lemma LerpBetween(a: real, b: real, t: real)
    requires 0.0 <= t <= 1.0
    ensures a <= b ==> a <= Lerp(a, b, t) <= b
    ensures b <= a ==> b <= Lerp(a, b, t) <= a
  {
    assert Lerp(a, b, t) == a + (b - a) * t;
    ScaledFraction(b - a, t);
    ScaledFraction(a - b, t);
  }

  /** A fraction of a non-negative amount lies between zero and that amount. */
  lemma ScaledFraction(k: real, t: real)
    requires 0.0 <= t <= 1.0
    ensures k >= 0.0 ==> 0.0 <= k * t <= k
    ensures k <= 0.0 ==> k <= k * t <= 0.0
  {
  }
}
