/**
 * The bounding primitives: the engine's `_clamp` and the console's `clamp01`.
 * Both accept any Python value, so the value is modelled by what `float()`
 * makes of it, and the Python `min`/`max` semantics with NaN are written out:
 * `min(a, b)` returns `a` unless `b < a`, and `max(a, b)` returns `a` unless `b > a`.
 */
module Numeric {
  import opened Wrappers

  /** A Python float: a finite real, an infinity or NaN. */
  datatype Float = Finite(r: real) | PosInf | NegInf | NaN

  /** An argument of a clamp: a float already, or another object together with
      what `float()` turns it into (`None` when `float()` raises). */
  datatype PyValue = FloatValue(f: Float) | OtherValue(asFloat: Option<Float>)

  /** `max(lo, min(hi, x))` on a finite `x`, the common case of both clamps. */
  function Clamp(x: real, lo: real, hi: real): (r: real)
    ensures r >= lo
    ensures lo <= hi ==> r <= hi
    ensures lo <= x <= hi ==> r == x
    ensures x <= lo ==> r == lo
    ensures lo <= hi <= x ==> r == hi
    ensures hi < lo ==> r == lo
  {
    var m := if x < hi then x else hi;
    if m > lo then m else lo
  }

  /** `_clamp` with its default bounds 0.0 and 1.0 (advanced_psycho_engine.py:504). */
  function Unit(x: real): (r: real)
    ensures 0.0 <= r <= 1.0
    ensures 0.0 <= x <= 1.0 ==> r == x
    ensures x <= 0.0 ==> r == 0.0
    ensures x >= 1.0 ==> r == 1.0
  {
    Clamp(x, 0.0, 1.0)
  }

  /** `max(lo, min(hi, f))` on any float: NaN is never smaller than `hi`, so it
      behaves like positive infinity. */
  function ClampFloat(f: Float, lo: real, hi: real): (r: real)
    ensures r >= lo
    ensures lo <= hi ==> r <= hi
    ensures f == NaN || f == PosInf ==> r == (if hi > lo then hi else lo)
    ensures f == NegInf ==> r == lo
  {
    match f
    case Finite(x) => Clamp(x, lo, hi)
    case PosInf => if hi > lo then hi else lo
    case NegInf => lo
    case NaN => if hi > lo then hi else lo
  }

  /** `_clamp(x, lo, hi)`: a float NaN and anything `float()` rejects give `lo`;
      everything else is converted and bounded. */
  function ClampValue(x: PyValue, lo: real, hi: real): (r: real)
    ensures lo <= hi ==> lo <= r <= hi
    ensures x == FloatValue(NaN) ==> r == lo
    ensures x == OtherValue(None) ==> r == lo
    ensures x == OtherValue(Some(NaN)) && lo < hi ==> r == hi
    ensures x.FloatValue? && x.f.Finite? && lo <= x.f.r <= hi ==> r == x.f.r
  {
    match x
    case FloatValue(f) => if f == NaN then lo else ClampFloat(f, lo, hi)
    case OtherValue(conv) =>
      match conv
      case None => lo
      case Some(f) => ClampFloat(f, lo, hi)
  }

  /** `clamp01` of main.py: no NaN test, so a NaN comes out as 1.0; an
      unconvertible value gives 0.0. */
  function Clamp01(x: PyValue): (r: real)
    ensures 0.0 <= r <= 1.0
    ensures x == OtherValue(None) ==> r == 0.0
    ensures x == FloatValue(NaN) ==> r == 1.0
    ensures x.FloatValue? && x.f.Finite? && 0.0 <= x.f.r <= 1.0 ==> r == x.f.r
  {
    match x
    case FloatValue(f) => ClampFloat(f, 0.0, 1.0)
    case OtherValue(conv) =>
      match conv
      case None => 0.0
      case Some(f) => ClampFloat(f, 0.0, 1.0)
  }

  /** Python `max(0.0, x)` on a finite `x`. */
  function AtLeastZero(x: real): (r: real)
    ensures r >= 0.0 && r >= x
    ensures x >= 0.0 ==> r == x
  {
    if x > 0.0 then x else 0.0
  }

  /** Python `min(1.0, x)` on a finite `x`. */
  function AtMostOne(x: real): (r: real)
    ensures r <= 1.0 && r <= x
    ensures x <= 1.0 ==> r == x
  {
    if x < 1.0 then x else 1.0
  }

  /** Clamping is monotone: the fact behind every "never increases" property. */
  lemma ClampMonotone(x: real, y: real, lo: real, hi: real)
    requires x <= y
    ensures Clamp(x, lo, hi) <= Clamp(y, lo, hi)
  {
  }
}
