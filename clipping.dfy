/**
  The clipping step of the constrained training loop, on values: row i of the
  first weight matrix is clipped elementwise into [lo[i], hi[i]] for every i
  that both bound vectors cover (Python's zip stops at the shorter one).
*/
module Clipping {
  import opened ExtReal
  import opened Wrappers

  /** A weight matrix as a sequence of rows. */
  type Matrix = seq<seq<Ext>>

  /** The number of (min, max) pairs that zip(min_coef_, max_coef_) yields. */
  function RowsCovered(lo: seq<Ext>, hi: seq<Ext>): (m: nat)
    ensures m <= |lo| && m <= |hi| && (m == |lo| || m == |hi|)
  {
    if |lo| <= |hi| then |lo| else |hi|
  }

  /** The abstract value of a 2-D array. */
  ghost function Entries(a: array2<Ext>): (w: Matrix)
    reads a
    ensures |w| == a.Length0
    ensures forall i :: 0 <= i < |w| ==> |w[i]| == a.Length1
    ensures forall i, j :: 0 <= i < a.Length0 && 0 <= j < a.Length1 ==> w[i][j] == a[i, j]
  {
    seq(a.Length0, i requires 0 <= i < a.Length0 reads a =>
      seq(a.Length1, j requires 0 <= j < a.Length1 reads a => a[i, j]))
  }

  /** Every covered entry of w lies within its row's bounds (or equals hi when lo > hi). */
  ghost predicate WithinBounds(w: Matrix, lo: seq<Ext>, hi: seq<Ext>) {
    forall i, j :: 0 <= i < |w| && i < RowsCovered(lo, hi) && 0 <= j < |w[i]| ==>
      if Le(lo[i], hi[i]) then Le(lo[i], w[i][j]) && Le(w[i][j], hi[i]) else w[i][j] == hi[i]
  }

  /**
    The matrix after _update_coef_using_constrain: covered rows clipped into
    their bounds, in-bound entries and uncovered rows left as they were.
  */
  function ClipRows(w: Matrix, lo: seq<Ext>, hi: seq<Ext>): (r: Matrix)
    ensures |r| == |w|
    ensures forall i :: 0 <= i < |w| ==> |r[i]| == |w[i]|
    ensures forall i :: RowsCovered(lo, hi) <= i < |w| ==> r[i] == w[i]
    ensures WithinBounds(r, lo, hi)
    ensures forall i, j ::
      (0 <= i < |w| && i < RowsCovered(lo, hi) && 0 <= j < |w[i]| && Le(lo[i], w[i][j]) && Le(w[i][j], hi[i]))
      ==> r[i][j] == w[i][j]
  {
    seq(|w|, i requires 0 <= i < |w| =>
      if i < RowsCovered(lo, hi) then seq(|w[i]|, j requires 0 <= j < |w[i]| => Clip(w[i][j], lo[i], hi[i]))
      else w[i])
  }

  /** A matrix is a fixed point of the clip exactly when it is within its bounds. */
  lemma {:induction false} FixedPointIffWithinBounds(w: Matrix, lo: seq<Ext>, hi: seq<Ext>)
    ensures ClipRows(w, lo, hi) == w <==> WithinBounds(w, lo, hi)
  {
    var r := ClipRows(w, lo, hi);
    if WithinBounds(w, lo, hi) {
      forall i | 0 <= i < |w| ensures r[i] == w[i] {
        if i < RowsCovered(lo, hi) {
          forall j | 0 <= j < |w[i]| ensures r[i][j] == w[i][j] {
            ClipFixedPoint(w[i][j], lo[i], hi[i]);
          }
        }
      }
    }
  }

  /** Clipping is idempotent: a second clip changes nothing. */
  lemma ClipRowsIdempotent(w: Matrix, lo: seq<Ext>, hi: seq<Ext>)
    ensures ClipRows(ClipRows(w, lo, hi), lo, hi) == ClipRows(w, lo, hi)
  {
    FixedPointIffWithinBounds(ClipRows(w, lo, hi), lo, hi);
  }

  /** n copies of v: the default bound vector of fit. */
  function Repeat(v: Ext, n: nat): (s: seq<Ext>)
    ensures |s| == n && forall i :: 0 <= i < n ==> s[i] == v
  {
    seq(n, _ => v)
  }

  /**
    With the default bounds (-inf, +inf) for every feature the clip is the
    identity, so an unconstrained fit follows the unconstrained optimizer.
  */
  lemma DefaultBoundsKeepWeights(w: Matrix, n: nat)
    ensures ClipRows(w, Repeat(NegInf, n), Repeat(PosInf, n)) == w
  {
    FixedPointIffWithinBounds(w, Repeat(NegInf, n), Repeat(PosInf, n));
  }

  /** Shape errors in the bounds given to fit. */
  datatype BoundError = WrongBoundLength(expected: nat, got: nat)

  /**
    One bound per feature: the given vector when it has one entry per
    feature, n copies of the default when none is given, an error otherwise.
  */
  function VerifyCoef(n: nat, given: Option<seq<Ext>>, default: Ext): (r: Result<seq<Ext>, BoundError>)
    ensures r.Ok? ==> |r.value| == n
    ensures given.None? ==> r == Ok(Repeat(default, n))
    ensures given.Some? ==> (r.Ok? <==> |given.value| == n) && (r.Ok? ==> r.value == given.value)
  {
    match given
    case None => Ok(Repeat(default, n))
    case Some(v) => if |v| == n then Ok(v) else Err(WrongBoundLength(n, |v|))
  }
}
