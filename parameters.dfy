/**
  The network's parameters as values, and what training does to them: the
  optimizer's update_params step, the clipped step of the constrained loop,
  one epoch of batches and a run of epochs. Beside the constrained run
  stands the unconstrained one, the same loop without the clip.
*/
module Parameters {
  import opened ExtReal
  import opened Clipping
  import opened Batching
  import opened Layers
  import opened LoopControl

  /** coefs_ and intercepts_ as values: one matrix and one vector per layer. */
  datatype Params = Params(coefs: seq<Matrix>, intercepts: seq<seq<Ext>>)

  /** _initialize's choice of starting weights, as a collaborator: value of layer l at (i, j), or at j. */
  datatype Initializer = Initializer(coef: (nat, nat, nat) -> Ext, intercept: (nat, nat) -> Ext)

  /** A matrix of the given shape. */
  ghost predicate HasShape(w: Matrix, s: Shape) {
    |w| == s.rows && forall i :: 0 <= i < |w| ==> |w[i]| == s.cols
  }

  /** Row i of the matrix of layer l: the initializer's first n values. */
  function InitialRow(init: Initializer, l: nat, i: nat, n: nat): (r: seq<Ext>)
    ensures |r| == n
  {
    if n == 0 then [] else InitialRow(init, l, i, n - 1) + [init.coef(l, i, n - 1)]
  }

  /** The first rows rows of the matrix of layer l, each with cols entries. */
  function InitialMatrix(init: Initializer, l: nat, rows: nat, cols: nat): (w: Matrix)
    ensures |w| == rows
  {
    if rows == 0 then [] else InitialMatrix(init, l, rows - 1, cols) + [InitialRow(init, l, rows - 1, cols)]
  }

  /** The first n entries of the intercept vector of layer l. */
  function InitialVector(init: Initializer, l: nat, n: nat): (b: seq<Ext>)
    ensures |b| == n
  {
    if n == 0 then [] else InitialVector(init, l, n - 1) + [init.intercept(l, n - 1)]
  }

  /** The weight matrices of the first k layers, layer l being units[l] x units[l + 1]. */
  function InitialLayers(units: seq<nat>, init: Initializer, k: nat): (ws: seq<Matrix>)
    requires k < |units|
    ensures |ws| == k
  {
    if k == 0 then [] else InitialLayers(units, init, k - 1) + [InitialMatrix(init, k - 1, units[k - 1], units[k])]
  }

  /** The intercept vectors of the first k layers, layer l having units[l + 1] entries. */
  function InitialIntercepts(units: seq<nat>, init: Initializer, k: nat): (bs: seq<seq<Ext>>)
    requires k < |units|
    ensures |bs| == k
  {
    if k == 0 then [] else InitialIntercepts(units, init, k - 1) + [InitialVector(init, k - 1, units[k])]
  }

  /**
    The parameters _initialize creates for layer_units: one matrix per
    consecutive pair of layers and one vector per layer after the input.
  */
  function InitialParams(units: seq<nat>, init: Initializer): (p: Params)
    requires |units| >= 2
    ensures |p.coefs| == |p.intercepts| == |units| - 1
  {
    Params(InitialLayers(units, init, |units| - 1), InitialIntercepts(units, init, |units| - 1))
  }

  lemma {:induction false} InitialRowAt(init: Initializer, l: nat, i: nat, n: nat, j: nat)
    requires j < n
    ensures InitialRow(init, l, i, n)[j] == init.coef(l, i, j)
  {
    if j < n - 1 {
      InitialRowAt(init, l, i, n - 1, j);
    }
  }

  lemma {:induction false} InitialMatrixAt(init: Initializer, l: nat, rows: nat, cols: nat, i: nat)
    requires i < rows
    ensures InitialMatrix(init, l, rows, cols)[i] == InitialRow(init, l, i, cols)
  {
    if i < rows - 1 {
      InitialMatrixAt(init, l, rows - 1, cols, i);
    }
  }

  lemma {:induction false} InitialVectorAt(init: Initializer, l: nat, n: nat, j: nat)
    requires j < n
    ensures InitialVector(init, l, n)[j] == init.intercept(l, j)
  {
    if j < n - 1 {
      InitialVectorAt(init, l, n - 1, j);
    }
  }

  lemma {:induction false} InitialLayersAt(units: seq<nat>, init: Initializer, k: nat, l: nat)
    requires l < k < |units|
    ensures InitialLayers(units, init, k)[l] == InitialMatrix(init, l, units[l], units[l + 1])
    ensures InitialIntercepts(units, init, k)[l] == InitialVector(init, l, units[l + 1])
  {
    if l < k - 1 {
      InitialLayersAt(units, init, k - 1, l);
    }
  }

  /**
    Layer l of the initial parameters has the shape the network requires
    (units[l] x units[l + 1], and units[l + 1] intercepts), and every entry
    is the initializer's value for it.
  */
  lemma InitialParamsAt(units: seq<nat>, init: Initializer, l: nat)
    requires l < |units| - 1
    ensures var p := InitialParams(units, init);
      && HasShape(p.coefs[l], CoefShapes(units)[l]) && |p.intercepts[l]| == InterceptSizes(units)[l]
      && (forall i, j :: 0 <= i < units[l] && 0 <= j < units[l + 1] ==> p.coefs[l][i][j] == init.coef(l, i, j))
      && (forall j :: 0 <= j < units[l + 1] ==> p.intercepts[l][j] == init.intercept(l, j))
  {
    var p := InitialParams(units, init);
    InitialLayersAt(units, init, |units| - 1, l);
    var w := p.coefs[l];
    forall i | 0 <= i < units[l]
      ensures |w[i]| == units[l + 1]
      ensures forall j :: 0 <= j < units[l + 1] ==> w[i][j] == init.coef(l, i, j)
    {
      InitialMatrixAt(init, l, units[l], units[l + 1], i);
      forall j | 0 <= j < units[l + 1] ensures w[i][j] == init.coef(l, i, j) {
        InitialRowAt(init, l, i, units[l + 1], j);
      }
    }
    forall j | 0 <= j < units[l + 1] ensures p.intercepts[l][j] == init.intercept(l, j) {
      InitialVectorAt(init, l, units[l + 1], j);
    }
  }

  /** update_params on row i of the matrix of layer l: every entry takes the optimizer's value from its old one. */
  function UpdatedRow(row: seq<Ext>, c: Collaborators, s: Step, l: nat, i: nat): (r: seq<Ext>)
    ensures |r| == |row|
  {
    if row == [] then []
    else UpdatedRow(row[..|row| - 1], c, s, l, i) + [c.coefUpdate(s, l, i, |row| - 1, row[|row| - 1])]
  }

  /** update_params on the matrix of layer l, row by row. */
  function UpdatedMatrix(w: Matrix, c: Collaborators, s: Step, l: nat): (r: Matrix)
    ensures |r| == |w|
  {
    if w == [] then [] else UpdatedMatrix(w[..|w| - 1], c, s, l) + [UpdatedRow(w[|w| - 1], c, s, l, |w| - 1)]
  }

  /** update_params on the intercept vector of layer l. */
  function UpdatedVector(b: seq<Ext>, c: Collaborators, s: Step, l: nat): (r: seq<Ext>)
    ensures |r| == |b|
  {
    if b == [] then [] else UpdatedVector(b[..|b| - 1], c, s, l) + [c.interceptUpdate(s, l, |b| - 1, b[|b| - 1])]
  }

  /** Entry j of an updated row is the optimizer's value for entry j. */
  lemma {:induction false} UpdatedRowAt(row: seq<Ext>, c: Collaborators, s: Step, l: nat, i: nat, j: nat)
    requires j < |row|
    ensures UpdatedRow(row, c, s, l, i)[j] == c.coefUpdate(s, l, i, j, row[j])
  {
    if j < |row| - 1 {
      UpdatedRowAt(row[..|row| - 1], c, s, l, i, j);
    }
  }

  /** Row i of an updated matrix is row i updated. */
  lemma {:induction false} UpdatedMatrixRow(w: Matrix, c: Collaborators, s: Step, l: nat, i: nat)
    requires i < |w|
    ensures UpdatedMatrix(w, c, s, l)[i] == UpdatedRow(w[i], c, s, l, i)
  {
    if i < |w| - 1 {
      UpdatedMatrixRow(w[..|w| - 1], c, s, l, i);
    }
  }

  /** Every entry of an updated matrix is the optimizer's value for that entry; the shape is kept. */
  lemma UpdatedMatrixAt(w: Matrix, c: Collaborators, s: Step, l: nat)
    ensures forall i :: 0 <= i < |w| ==> |UpdatedMatrix(w, c, s, l)[i]| == |w[i]|
    ensures forall i, j :: 0 <= i < |w| && 0 <= j < |w[i]| ==>
      UpdatedMatrix(w, c, s, l)[i][j] == c.coefUpdate(s, l, i, j, w[i][j])
  {
    forall i | 0 <= i < |w|
      ensures |UpdatedMatrix(w, c, s, l)[i]| == |w[i]|
      ensures forall j :: 0 <= j < |w[i]| ==> UpdatedMatrix(w, c, s, l)[i][j] == c.coefUpdate(s, l, i, j, w[i][j])
    {
      UpdatedMatrixRow(w, c, s, l, i);
      forall j | 0 <= j < |w[i]| ensures UpdatedRow(w[i], c, s, l, i)[j] == c.coefUpdate(s, l, i, j, w[i][j]) {
        UpdatedRowAt(w[i], c, s, l, i, j);
      }
    }
  }

  /** Entry j of an updated intercept vector is the optimizer's value for entry j. */
  lemma {:induction false} UpdatedVectorAt(b: seq<Ext>, c: Collaborators, s: Step, l: nat, j: nat)
    requires j < |b|
    ensures UpdatedVector(b, c, s, l)[j] == c.interceptUpdate(s, l, j, b[j])
  {
    if j < |b| - 1 {
      UpdatedVectorAt(b[..|b| - 1], c, s, l, j);
    }
  }

  /** update_params on the weight matrices of layers 0 to |ws| - 1. */
  function UpdatedLayers(ws: seq<Matrix>, c: Collaborators, s: Step): (r: seq<Matrix>)
    ensures |r| == |ws|
  {
    if ws == [] then [] else UpdatedLayers(ws[..|ws| - 1], c, s) + [UpdatedMatrix(ws[|ws| - 1], c, s, |ws| - 1)]
  }

  /** update_params on the intercept vectors of layers 0 to |bs| - 1. */
  function UpdatedIntercepts(bs: seq<seq<Ext>>, c: Collaborators, s: Step): (r: seq<seq<Ext>>)
    ensures |r| == |bs|
  {
    if bs == [] then [] else UpdatedIntercepts(bs[..|bs| - 1], c, s) + [UpdatedVector(bs[|bs| - 1], c, s, |bs| - 1)]
  }

  /** Layer l of the updated matrices is layer l updated. */
  lemma {:induction false} UpdatedLayersAt(ws: seq<Matrix>, c: Collaborators, s: Step, l: nat)
    requires l < |ws|
    ensures UpdatedLayers(ws, c, s)[l] == UpdatedMatrix(ws[l], c, s, l)
  {
    if l < |ws| - 1 {
      UpdatedLayersAt(ws[..|ws| - 1], c, s, l);
    }
  }

  /** Layer l of the updated intercepts is layer l updated. */
  lemma {:induction false} UpdatedInterceptsAt(bs: seq<seq<Ext>>, c: Collaborators, s: Step, l: nat)
    requires l < |bs|
    ensures UpdatedIntercepts(bs, c, s)[l] == UpdatedVector(bs[l], c, s, l)
  {
    if l < |bs| - 1 {
      UpdatedInterceptsAt(bs[..|bs| - 1], c, s, l);
    }
  }

  /** Matrices that are, layer by layer, the old ones updated are the updated layers. */
  lemma UpdatedLayersFrom(ws: seq<Matrix>, before: seq<Matrix>, c: Collaborators, s: Step)
    requires |ws| == |before|
    requires forall l :: 0 <= l < |ws| ==> ws[l] == UpdatedMatrix(before[l], c, s, l)
    ensures ws == UpdatedLayers(before, c, s)
  {
    forall l | 0 <= l < |ws| ensures ws[l] == UpdatedLayers(before, c, s)[l] {
      UpdatedLayersAt(before, c, s, l);
    }
  }

  /** Vectors that are, layer by layer, the old ones updated are the updated intercepts. */
  lemma UpdatedInterceptsFrom(vs: seq<seq<Ext>>, before: seq<seq<Ext>>, c: Collaborators, s: Step)
    requires |vs| == |before|
    requires forall l :: 0 <= l < |vs| ==> vs[l] == UpdatedVector(before[l], c, s, l)
    ensures vs == UpdatedIntercepts(before, c, s)
  {
    forall l | 0 <= l < |vs| ensures vs[l] == UpdatedIntercepts(before, c, s)[l] {
      UpdatedInterceptsAt(before, c, s, l);
    }
  }

  /** update_params(params, grads): every weight and every intercept takes the optimizer's value. */
  function OptimizerStep(p: Params, c: Collaborators, s: Step): (q: Params)
    ensures |q.coefs| == |p.coefs| && |q.intercepts| == |p.intercepts|
  {
    Params(UpdatedLayers(p.coefs, c, s), UpdatedIntercepts(p.intercepts, c, s))
  }

  /** Every layer of the optimizer's result is that layer updated. */
  lemma OptimizerStepAt(p: Params, c: Collaborators, s: Step)
    ensures forall l :: 0 <= l < |p.coefs| ==> OptimizerStep(p, c, s).coefs[l] == UpdatedMatrix(p.coefs[l], c, s, l)
    ensures forall l :: 0 <= l < |p.intercepts| ==>
      OptimizerStep(p, c, s).intercepts[l] == UpdatedVector(p.intercepts[l], c, s, l)
  {
    forall l | 0 <= l < |p.coefs| ensures OptimizerStep(p, c, s).coefs[l] == UpdatedMatrix(p.coefs[l], c, s, l) {
      UpdatedLayersAt(p.coefs, c, s, l);
    }
    forall l | 0 <= l < |p.intercepts|
      ensures OptimizerStep(p, c, s).intercepts[l] == UpdatedVector(p.intercepts[l], c, s, l)
    {
      UpdatedInterceptsAt(p.intercepts, c, s, l);
    }
  }

  /**
    One batch of the constrained loop: update_params, then the clip. Only
    the first matrix differs from the optimizer's result; it is its clip,
    and so lies within the bounds.
  */
  function BatchStep(p: Params, c: Collaborators, s: Step, lo: seq<Ext>, hi: seq<Ext>): (q: Params)
    ensures var u := OptimizerStep(p, c, s);
      && |q.coefs| == |u.coefs| && q.intercepts == u.intercepts
      && (forall l :: 1 <= l < |q.coefs| ==> q.coefs[l] == u.coefs[l])
      && (|q.coefs| >= 1 ==> q.coefs[0] == ClipRows(u.coefs[0], lo, hi) && WithinBounds(q.coefs[0], lo, hi))
  {
    var u := OptimizerStep(p, c, s);
    if |u.coefs| == 0 then u else u.(coefs := u.coefs[0 := ClipRows(u.coefs[0], lo, hi)])
  }

  /**
    The parameters after the first k batches of an epoch. The layer count
    never changes, and after any batch the first matrix is within bounds.
  */
  function EpochParams(p: Params, c: Collaborators, epoch: nat, bs: seq<Slice>, k: nat, lo: seq<Ext>, hi: seq<Ext>)
    : (q: Params)
    requires k <= |bs|
    ensures |q.coefs| == |p.coefs| && |q.intercepts| == |p.intercepts|
    ensures k >= 1 && |p.coefs| >= 1 ==> WithinBounds(q.coefs[0], lo, hi)
  {
    if k == 0 then p
    else BatchStep(EpochParams(p, c, epoch, bs, k - 1, lo, hi), c, Step(epoch, bs[k - 1]), lo, hi)
  }

  /** One more batch of an epoch is one more batch step. */
  lemma EpochParamsNext(p: Params, c: Collaborators, epoch: nat, bs: seq<Slice>, k: nat, lo: seq<Ext>, hi: seq<Ext>)
    requires k < |bs|
    ensures EpochParams(p, c, epoch, bs, k + 1, lo, hi) == BatchStep(EpochParams(p, c, epoch, bs, k, lo, hi), c, Step(epoch, bs[k]), lo, hi)
  {
  }

  /**
    The parameters after epochs 0 to e - 1, each over the batches bs. After
    any epoch with a batch the first matrix is within bounds.
  */
  function TrainedParams(p: Params, c: Collaborators, e: nat, bs: seq<Slice>, lo: seq<Ext>, hi: seq<Ext>): (q: Params)
    ensures |q.coefs| == |p.coefs| && |q.intercepts| == |p.intercepts|
    ensures e >= 1 && bs != [] && |p.coefs| >= 1 ==> WithinBounds(q.coefs[0], lo, hi)
  {
    if e == 0 then p else EpochParams(TrainedParams(p, c, e - 1, bs, lo, hi), c, e - 1, bs, |bs|, lo, hi)
  }

  /** A record of the parameters after each epoch: entry e + 1 is epoch e run from entry e. */
  ghost predicate EpochHistory(hist: seq<Params>, c: Collaborators, bs: seq<Slice>, lo: seq<Ext>, hi: seq<Ext>) {
    forall e {:trigger EpochParams(hist[e], c, e, bs, |bs|, lo, hi)} :: 0 <= e < |hist| - 1 ==>
      hist[e + 1] == EpochParams(hist[e], c, e, bs, |bs|, lo, hi)
  }

  /** The history of a training run of n epochs from p: entry e is the parameters after e epochs. */
  lemma TrainedHistory(p: Params, c: Collaborators, n: nat, bs: seq<Slice>, lo: seq<Ext>, hi: seq<Ext>)
    returns (hist: seq<Params>)
    ensures |hist| == n + 1 && EpochHistory(hist, c, bs, lo, hi)
    ensures forall e :: 0 <= e <= n ==> hist[e] == TrainedParams(p, c, e, bs, lo, hi)
  {
    hist := seq(n + 1, e requires 0 <= e <= n => TrainedParams(p, c, e, bs, lo, hi));
    TrainedIsHistory(hist, p, c, bs, lo, hi);
  }

  /** Any list whose entry e is the run from p over e epochs is an epoch history. */
  lemma TrainedIsHistory(hist: seq<Params>, p: Params, c: Collaborators, bs: seq<Slice>, lo: seq<Ext>, hi: seq<Ext>)
    requires forall e :: 0 <= e < |hist| ==> hist[e] == TrainedParams(p, c, e, bs, lo, hi)
    ensures EpochHistory(hist, c, bs, lo, hi)
  {
    forall e | 0 <= e < |hist| - 1 ensures hist[e + 1] == EpochParams(hist[e], c, e, bs, |bs|, lo, hi) {
      assert hist[e + 1] == TrainedParams(p, c, e + 1, bs, lo, hi);
    }
  }

  /** The first k batches of an epoch without the clip: scikit-learn's own MLP with shuffle=False. */
  function PlainEpochParams(p: Params, c: Collaborators, epoch: nat, bs: seq<Slice>, k: nat): (q: Params)
    requires k <= |bs|
    ensures |q.coefs| == |p.coefs| && |q.intercepts| == |p.intercepts|
  {
    if k == 0 then p else OptimizerStep(PlainEpochParams(p, c, epoch, bs, k - 1), c, Step(epoch, bs[k - 1]))
  }

  /** Epochs 0 to e - 1 without the clip. */
  function PlainTrainedParams(p: Params, c: Collaborators, e: nat, bs: seq<Slice>): (q: Params)
    ensures |q.coefs| == |p.coefs| && |q.intercepts| == |p.intercepts|
  {
    if e == 0 then p else PlainEpochParams(PlainTrainedParams(p, c, e - 1, bs), c, e - 1, bs, |bs|)
  }

  /** With the default bounds (-inf, +inf) for every feature, a batch step is the optimizer's step alone. */
  lemma DefaultBoundsStep(p: Params, c: Collaborators, s: Step, n: nat)
    ensures BatchStep(p, c, s, Repeat(NegInf, n), Repeat(PosInf, n)) == OptimizerStep(p, c, s)
  {
    var u := OptimizerStep(p, c, s);
    if |u.coefs| >= 1 {
      DefaultBoundsKeepWeights(u.coefs[0], n);
      assert u.coefs[0 := u.coefs[0]] == u.coefs;
    }
  }

  /** With the default bounds an epoch of the constrained loop is an epoch of the unconstrained one. */
  lemma {:induction false} DefaultBoundsEpoch(p: Params, c: Collaborators, epoch: nat, bs: seq<Slice>, k: nat, n: nat)
    requires k <= |bs|
    ensures EpochParams(p, c, epoch, bs, k, Repeat(NegInf, n), Repeat(PosInf, n)) == PlainEpochParams(p, c, epoch, bs, k)
  {
    if k > 0 {
      DefaultBoundsEpoch(p, c, epoch, bs, k - 1, n);
      DefaultBoundsStep(PlainEpochParams(p, c, epoch, bs, k - 1), c, Step(epoch, bs[k - 1]), n);
    }
  }

  /**
    With the default bounds the constrained training run ends with the
    parameters the unconstrained run ends with.
  */
  lemma {:induction false} DefaultBoundsTraining(p: Params, c: Collaborators, e: nat, bs: seq<Slice>, n: nat,
                                                lo: seq<Ext>, hi: seq<Ext>)
    requires lo == Repeat(NegInf, n) && hi == Repeat(PosInf, n)
    ensures TrainedParams(p, c, e, bs, lo, hi) == PlainTrainedParams(p, c, e, bs)
  {
    if e > 0 {
      DefaultBoundsTraining(p, c, e - 1, bs, n, lo, hi);
      DefaultBoundsNext(p, c, e - 1, bs, n, lo, hi);
    }
  }

  /** When the two runs agree after e epochs, they agree after e + 1. */
  lemma DefaultBoundsNext(p: Params, c: Collaborators, e: nat, bs: seq<Slice>, n: nat, lo: seq<Ext>, hi: seq<Ext>)
    requires lo == Repeat(NegInf, n) && hi == Repeat(PosInf, n)
    requires TrainedParams(p, c, e, bs, lo, hi) == PlainTrainedParams(p, c, e, bs)
    ensures TrainedParams(p, c, e + 1, bs, lo, hi) == PlainTrainedParams(p, c, e + 1, bs)
  {
    TrainedParamsNext(p, c, e, bs, lo, hi);
    PlainTrainedParamsNext(p, c, e, bs);
    DefaultBoundsEpoch(PlainTrainedParams(p, c, e, bs), c, e, bs, |bs|, n);
  }

  /** The unconstrained run over e + 1 epochs is epoch e run after the run over e epochs. */
  lemma PlainTrainedParamsNext(p: Params, c: Collaborators, e: nat, bs: seq<Slice>)
    ensures PlainTrainedParams(p, c, e + 1, bs) == PlainEpochParams(PlainTrainedParams(p, c, e, bs), c, e, bs, |bs|)
  {
  }

  /** The run over e + 1 epochs is epoch e run after the run over e epochs. */
  lemma TrainedParamsNext(p: Params, c: Collaborators, e: nat, bs: seq<Slice>, lo: seq<Ext>, hi: seq<Ext>)
    ensures TrainedParams(p, c, e + 1, bs, lo, hi) == EpochParams(TrainedParams(p, c, e, bs, lo, hi), c, e, bs, |bs|, lo, hi)
  {
  }

  /** Every weight and every intercept is a finite number: np.isfinite(w).all() for every w. */
  ghost predicate Finite(p: Params) {
    && (forall l, i, j :: 0 <= l < |p.coefs| && 0 <= i < |p.coefs[l]| && 0 <= j < |p.coefs[l][i]| ==>
          p.coefs[l][i][j].Fin?)
    && (forall l, j :: 0 <= l < |p.intercepts| && 0 <= j < |p.intercepts[l]| ==> p.intercepts[l][j].Fin?)
  }
}
