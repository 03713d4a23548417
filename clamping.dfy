/** The clamp `max(lo, min(hi, x))` that every simulation model applies to out-of-range inputs. */
module Clamping {

  function Min(a: real, b: real): real { if a <= b then a else b }

  function Max(a: real, b: real): real { if a >= b then a else b }

  /** `x` pulled into `[lo, hi]`: left alone when it already lies there, otherwise the nearer bound. */
  function Clamp(x: real, lo: real, hi: real): (r: real)
    requires lo <= hi
    ensures lo <= r <= hi
    ensures lo <= x <= hi ==> r == x
    ensures x < lo ==> r == lo
    ensures hi < x ==> r == hi
  {
    Max(lo, Min(hi, x))
  }
}
