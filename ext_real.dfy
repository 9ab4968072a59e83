/**
  Extended reals: numpy's float64 values without NaN. Coefficient bounds
  default to -inf and +inf, and clipping against an infinite or inverted
  bound can yield an infinity, so weights range over the same type.
*/
module ExtReal {

  datatype Ext = NegInf | Fin(r: real) | PosInf

  /** The order of the extended real line. */
  predicate Le(a: Ext, b: Ext) {
    match (a, b)
    case (NegInf, _) => true
    case (_, PosInf) => true
    case (Fin(x), Fin(y)) => x <= y
    case _ => false
  }

  /** numpy.maximum on two non-NaN values. */
  function Max(a: Ext, b: Ext): (m: Ext)
    ensures Le(a, m) && Le(b, m)
    ensures m == a || m == b
  {
    if Le(a, b) then b else a
  }

  /** numpy.minimum on two non-NaN values. */
  function Min(a: Ext, b: Ext): (m: Ext)
    ensures Le(m, a) && Le(m, b)
    ensures m == a || m == b
  {
    if Le(a, b) then a else b
  }

  /**
    numpy.clip(x, lo, hi), which numpy computes as minimum(maximum(x, lo), hi).
    With lo <= hi the result lies in [lo, hi], values inside are kept and
    values outside move to the nearer bound; with lo > hi it is hi.
  */
  function Clip(x: Ext, lo: Ext, hi: Ext): (r: Ext)
    ensures Le(lo, hi) ==> Le(lo, r) && Le(r, hi)
    ensures Le(lo, x) && Le(x, hi) ==> r == x
    ensures Le(lo, hi) && Le(x, lo) ==> r == lo
    ensures Le(lo, hi) && Le(hi, x) ==> r == hi
    ensures !Le(lo, hi) ==> r == hi
  {
    Min(Max(x, lo), hi)
  }

  /** The values Clip leaves alone are exactly those in [lo, hi] (or hi itself when lo > hi). */
  lemma ClipFixedPoint(x: Ext, lo: Ext, hi: Ext)
    ensures Clip(x, lo, hi) == x <==> if Le(lo, hi) then Le(lo, x) && Le(x, hi) else x == hi
  {
  }

  /** Clipping twice is clipping once. */
  lemma ClipIdempotent(x: Ext, lo: Ext, hi: Ext)
    ensures Clip(Clip(x, lo, hi), lo, hi) == Clip(x, lo, hi)
  {
  }
}
