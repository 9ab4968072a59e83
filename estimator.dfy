/**
  The estimator: its hyperparameters, its fitted state (bounds, weight
  matrices, intercept vectors and training counters), and the fit, the
  constrained stochastic solver and the clipping step that work on it in place.
*/
module Estimator {
  import opened Wrappers
  import opened ExtReal
  import opened Clipping
  import opened Batching
  import opened Layers
  import opened LoopControl
  import opened Parameters

  /** The regression targets as given: a vector (one output) or a matrix. */
  datatype Targets = Vector(values: seq<real>) | Table(rows: seq<seq<real>>)

  /** Why fit fails. */
  datatype FitError =
    | InvalidBounds(bound: BoundError)
    | NonPositiveHiddenLayerSize(sizes: seq<int>)
    | UnsupportedSolver(solver: string)
    | NonFiniteWeights

  /** A rectangular matrix with the given number of columns. */
  ghost predicate IsMatrix(m: seq<seq<real>>, cols: nat) {
    forall i :: 0 <= i < |m| ==> |m[i]| == cols
  }

  /** y as a 2-D array: a vector becomes a single column, y.reshape((-1, 1)). */
  function AsMatrix(y: Targets): (m: seq<seq<real>>)
    ensures y.Vector? ==> |m| == |y.values| && IsMatrix(m, 1) && forall i :: 0 <= i < |m| ==> m[i][0] == y.values[i]
    ensures y.Table? ==> m == y.rows
  {
    match y
    case Vector(v) => seq(|v|, i requires 0 <= i < |v| => [v[i]])
    case Table(rows) => rows
  }

  class ConstrainedMultilayerPerceptron {
    // hyperparameters
    const hiddenLayerSizes: HiddenLayerSizes
    const solver: string
    const batchSize: BatchSizeParam
    const maxIter: nat
    const nIterNoChange: nat

    // min_coef_ and max_coef_: one bound per input feature
    var minCoef: seq<Ext>
    var maxCoef: seq<Ext>
    // coefs_ and intercepts_, the arrays the optimizer and the clip update in place
    var coefs: seq<array2<Ext>>
    var intercepts: seq<array<Ext>>
    // n_iter_, t_, loss_, loss_curve_, _no_improvement_count
    var nIter: nat
    var t: nat
    var loss: real
    var lossCurve: seq<real>
    var noImprovementCount: nat

    // the layer each weight matrix and each intercept vector belongs to
    ghost var coefLayer: map<array2<Ext>, nat>
    ghost var interceptLayer: map<array<Ext>, nat>

    /** A fitted network: at least one layer, and every array in its own layer, so no two layers share one. */
    ghost predicate Valid()
      reads this`coefs, this`intercepts, this`coefLayer, this`interceptLayer
    {
      && 1 <= |coefs|
      && |intercepts| == |coefs|
      && (forall l :: 0 <= l < |coefs| ==> coefs[l] in coefLayer && coefLayer[coefs[l]] == l)
      && (forall l :: 0 <= l < |intercepts| ==> intercepts[l] in interceptLayer && interceptLayer[intercepts[l]] == l)
    }

    /** The arrays have the shapes layer_units calls for: coefs_[l] is units[l] x units[l + 1], intercepts_[l] has units[l + 1] entries. */
    ghost predicate Realises(units: seq<nat>)
      reads this`coefs, this`intercepts
    {
      && |units| == |coefs| + 1
      && |intercepts| == |coefs|
      && (forall l :: 0 <= l < |coefs| ==> Shape(coefs[l].Length0, coefs[l].Length1) == CoefShapes(units)[l])
      && (forall l :: 0 <= l < |intercepts| ==> intercepts[l].Length == InterceptSizes(units)[l])
    }

    /** What the parameter arrays hold, as a value. */
    ghost function ParamValues(): Params
      reads this`coefs, this`intercepts, coefs, intercepts
    {
      Params(MatrixValues(coefs), VectorValues(intercepts))
    }

    /** What a list of weight matrices holds. */
    static ghost function MatrixValues(cs: seq<array2<Ext>>): (ws: seq<Matrix>)
      reads cs
      ensures |ws| == |cs|
    {
      seq(|cs|, l requires 0 <= l < |cs| reads cs => Entries(cs[l]))
    }

    /** Layer by layer, MatrixValues holds what each matrix holds. */
    static lemma {:induction false} MatrixValuesAt(cs: seq<array2<Ext>>)
      ensures forall l :: 0 <= l < |cs| ==> MatrixValues(cs)[l] == Entries(cs[l])
    {
      if cs != [] {
        MatrixValuesAt(cs[..|cs| - 1]);
      }
    }

    /** What a list of intercept vectors holds. */
    static ghost function VectorValues(bs: seq<array<Ext>>): (vs: seq<seq<Ext>>)
      reads bs
      ensures |vs| == |bs|
    {
      seq(|bs|, l requires 0 <= l < |bs| reads bs => bs[l][..])
    }

    /** Layer by layer, VectorValues holds what each vector holds. */
    static lemma {:induction false} VectorValuesAt(bs: seq<array<Ext>>)
      ensures forall l :: 0 <= l < |bs| ==> VectorValues(bs)[l] == bs[l][..]
    {
      if bs != [] {
        VectorValuesAt(bs[..|bs| - 1]);
      }
    }

    /** The training counters as a value. */
    function Counters(): Progress
      reads this`nIter, this`t, this`loss, this`lossCurve, this`noImprovementCount
    {
      Progress(nIter, t, loss, lossCurve, noImprovementCount)
    }

    /** Every entry of the first weight matrix is where the clip would leave it. */
    ghost predicate FirstLayerClipped()
      reads this`coefs, this`minCoef, this`maxCoef, coefs
    {
      |coefs| >= 1 && WithinBounds(Entries(coefs[0]), minCoef, maxCoef)
    }

    /** An unfitted estimator with the given hyperparameters. */
    constructor (hiddenLayerSizes: HiddenLayerSizes, solver: string, batchSize: BatchSizeParam,
                 maxIter: nat, nIterNoChange: nat)
      ensures this.hiddenLayerSizes == hiddenLayerSizes && this.solver == solver
      ensures this.batchSize == batchSize && this.maxIter == maxIter && this.nIterNoChange == nIterNoChange
      ensures coefs == [] && intercepts == [] && minCoef == [] && maxCoef == []
      ensures Counters() == Progress(0, 0, 0.0, [], 0)
    {
      this.hiddenLayerSizes := hiddenLayerSizes;
      this.solver := solver;
      this.batchSize := batchSize;
      this.maxIter := maxIter;
      this.nIterNoChange := nIterNoChange;
      minCoef, maxCoef := [], [];
      coefs, intercepts := [], [];
      nIter, t, loss, lossCurve, noImprovementCount := 0, 0, 0.0, [], 0;
    }

    /**
      _update_coef_using_constrain: row i of the first weight matrix is
      clipped into [min_coef_[i], max_coef_[i]] for every pair zip yields.
      A pair beyond the last row raises IndexError (ok is false) after the
      rows before it were clipped. No other array changes.
    */
    method UpdateCoefUsingConstrain() returns (ok: bool)
      requires Valid()
      modifies coefs[0]
      ensures Valid()
      ensures ok <==> RowsCovered(minCoef, maxCoef) <= coefs[0].Length0
      ensures Entries(coefs[0]) == ClipRows(old(Entries(coefs[0])), minCoef, maxCoef)
      ensures FirstLayerClipped()
      ensures forall l :: 1 <= l < |coefs| ==> Entries(coefs[l]) == old(Entries(coefs[l]))
      ensures forall l :: 0 <= l < |intercepts| ==> intercepts[l][..] == old(intercepts[l][..])
    {
      var w := coefs[0];
      var m := RowsCovered(minCoef, maxCoef);
      ok := true;
      var idx := 0;
      while idx < m
        invariant 0 <= idx <= m && idx <= w.Length0 && ok
        invariant forall i, j :: 0 <= i < w.Length0 && 0 <= j < w.Length1 ==>
          w[i, j] == if i < idx then Clip(old(w[i, j]), minCoef[i], maxCoef[i]) else old(w[i, j])
      {
        if idx >= w.Length0 {
          ok := false;
          break;
        }
        forall j | 0 <= j < w.Length1 {
          w[idx, j] := Clip(w[idx, j], minCoef[idx], maxCoef[idx]);
        }
        idx := idx + 1;
      }
      ghost var before := old(Entries(w));
      assert Entries(w) == ClipRows(before, minCoef, maxCoef) by {
        var now, clipped := Entries(w), ClipRows(before, minCoef, maxCoef);
        forall i | 0 <= i < w.Length0 ensures now[i] == clipped[i] {
        }
      }
    }

    /**
      The optimizer's update_params: every weight and every intercept takes
      the value the optimizer computes for this step from its old value.
    */
    method ApplyOptimizerUpdate(c: Collaborators, s: Step)
      requires Valid()
      modifies coefs, intercepts
      ensures Valid()
      ensures ParamValues() == OptimizerStep(old(ParamValues()), c, s)
    {
      ghost var p := ParamValues();
      UpdateCoefs(c, s);
      assert VectorValues(intercepts) == p.intercepts;
      UpdateIntercepts(c, s);
    }

    /** The weight-matrix half of update_params. */
    method UpdateCoefs(c: Collaborators, s: Step)
      requires Valid()
      modifies coefs
      ensures Valid()
      ensures MatrixValues(coefs) == UpdatedLayers(old(MatrixValues(coefs)), c, s)
      ensures VectorValues(intercepts) == old(VectorValues(intercepts))
    {
      ghost var prior := MatrixValues(coefs);
      MatrixValuesAt(coefs);
      for l := 0 to |coefs|
        invariant forall k :: 0 <= k < l ==> Entries(coefs[k]) == UpdatedMatrix(old(Entries(coefs[k])), c, s, k)
        invariant forall k :: l <= k < |coefs| ==> unchanged(coefs[k])
      {
        assert forall k :: 0 <= k < |coefs| && k != l ==> coefs[k] != coefs[l];
        UpdateMatrix(coefs[l], c, s, l);
      }
      MatrixValuesAt(coefs);
      UpdatedLayersFrom(MatrixValues(coefs), prior, c, s);
    }

    /** update_params on one weight matrix, in place. */
    static method UpdateMatrix(w: array2<Ext>, c: Collaborators, s: Step, l: nat)
      modifies w
      ensures Entries(w) == UpdatedMatrix(old(Entries(w)), c, s, l)
    {
      forall i, j | 0 <= i < w.Length0 && 0 <= j < w.Length1 {
        w[i, j] := c.coefUpdate(s, l, i, j, w[i, j]);
      }
      ghost var a, b := Entries(w), UpdatedMatrix(old(Entries(w)), c, s, l);
      UpdatedMatrixAt(old(Entries(w)), c, s, l);
      assert a == b by {
        forall i | 0 <= i < |a| ensures a[i] == b[i] {
        }
      }
    }

    /** The intercept half of update_params. */
    method UpdateIntercepts(c: Collaborators, s: Step)
      requires Valid()
      modifies intercepts
      ensures Valid()
      ensures VectorValues(intercepts) == UpdatedIntercepts(old(VectorValues(intercepts)), c, s)
      ensures MatrixValues(coefs) == old(MatrixValues(coefs))
    {
      ghost var prior := VectorValues(intercepts);
      VectorValuesAt(intercepts);
      for l := 0 to |intercepts|
        invariant MatrixValues(coefs) == old(MatrixValues(coefs))
        invariant forall k :: 0 <= k < l ==> intercepts[k][..] == UpdatedVector(old(intercepts[k][..]), c, s, k)
        invariant forall k :: l <= k < |intercepts| ==> unchanged(intercepts[k])
      {
        assert intercepts[l][..] == old(intercepts[l][..]);
        label before:
        UpdateVector(intercepts[l], c, s, l);
        forall k | 0 <= k < |intercepts| && k != l ensures intercepts[k][..] == old@before(intercepts[k][..]) {
          assert intercepts[k] != intercepts[l];
        }
      }
      VectorValuesAt(intercepts);
      UpdatedInterceptsFrom(VectorValues(intercepts), prior, c, s);
    }

    /** update_params on one intercept vector, in place. */
    static method UpdateVector(b: array<Ext>, c: Collaborators, s: Step, l: nat)
      modifies b
      ensures b[..] == UpdatedVector(old(b[..]), c, s, l)
    {
      forall j | 0 <= j < b.Length {
        b[j] := c.interceptUpdate(s, l, j, b[j]);
      }
      forall j | 0 <= j < b.Length ensures b[j] == UpdatedVector(old(b[..]), c, s, l)[j] {
        UpdatedVectorAt(old(b[..]), c, s, l, j);
      }
    }

    /**
      One epoch of the inner loop: for each batch in order, the batch loss
      weighted by its length is added to accumulated_loss, the optimizer
      updates all parameters, and the first layer is clipped.
    */
    method RunEpoch(epoch: nat, x: seq<seq<real>>, y: seq<seq<real>>, c: Collaborators, size: nat)
      returns (accumulatedLoss: real)
      requires Valid() && size >= 1 && |x| >= 1 && |y| == |x|
      requires RowsCovered(minCoef, maxCoef) <= coefs[0].Length0
      modifies coefs, intercepts
      ensures accumulatedLoss == AccumulatedLoss(c, epoch, x, y, GenBatches(|x|, size), |GenBatches(|x|, size)|)
      ensures FirstLayerClipped()
      ensures ParamValues() == EpochParams(old(ParamValues()), c, epoch, GenBatches(|x|, size), |GenBatches(|x|, size)|,
                                           minCoef, maxCoef)
    {
      var batches := GenBatches(|x|, size);
      accumulatedLoss := RunBatches(epoch, x, y, c, batches);
    }

    /** The loop over the batches of an epoch, in order. */
    method RunBatches(epoch: nat, x: seq<seq<real>>, y: seq<seq<real>>, c: Collaborators, batches: seq<Slice>)
      returns (accumulatedLoss: real)
      requires Valid() && InRange(batches, |x|) && |y| == |x| && batches != []
      requires RowsCovered(minCoef, maxCoef) <= coefs[0].Length0
      modifies coefs, intercepts
      ensures accumulatedLoss == AccumulatedLoss(c, epoch, x, y, batches, |batches|)
      ensures FirstLayerClipped()
      ensures ParamValues() == EpochParams(old(ParamValues()), c, epoch, batches, |batches|, minCoef, maxCoef)
    {
      ghost var p := ParamValues();
      accumulatedLoss := 0.0;
      var k := 0;
      while k < |batches|
        invariant k <= |batches|
        invariant Valid() && RowsCovered(minCoef, maxCoef) <= coefs[0].Length0
        invariant accumulatedLoss == AccumulatedLoss(c, epoch, x, y, batches, k)
        invariant k > 0 ==> FirstLayerClipped()
        invariant ParamValues() == EpochParams(p, c, epoch, batches, k, minCoef, maxCoef)
      {
        accumulatedLoss := RunBatch(epoch, x, y, c, batches, k, accumulatedLoss, p);
        k := k + 1;
      }
    }

    /**
      Batch k of the loop: its loss weighted by its length is added to
      accumulated_loss, then the parameters take their per-batch step.
    */
    method RunBatch(epoch: nat, x: seq<seq<real>>, y: seq<seq<real>>, c: Collaborators, batches: seq<Slice>, k: nat,
                    accumulatedLoss: real, ghost p: Params)
      returns (newLoss: real)
      requires Valid() && InRange(batches, |x|) && |y| == |x| && k < |batches|
      requires RowsCovered(minCoef, maxCoef) <= coefs[0].Length0
      requires accumulatedLoss == AccumulatedLoss(c, epoch, x, y, batches, k)
      requires ParamValues() == EpochParams(p, c, epoch, batches, k, minCoef, maxCoef)
      modifies coefs, intercepts
      ensures Valid() && RowsCovered(minCoef, maxCoef) <= coefs[0].Length0
      ensures newLoss == AccumulatedLoss(c, epoch, x, y, batches, k + 1)
      ensures FirstLayerClipped()
      ensures ParamValues() == EpochParams(p, c, epoch, batches, k + 1, minCoef, maxCoef)
    {
      var s := batches[k];
      var step := Step(epoch, s);
      var batchLoss := BatchLoss(c, epoch, x, y, s);
      newLoss := accumulatedLoss + Times(batchLoss, Length(s));
      UpdateAndConstrain(c, step);
    }

    /**
      The per-batch parameter step of the inner loop: the optimizer updates
      every parameter, then the first layer is clipped to its bounds. The
      bounds cover no more rows than the first layer has, so the clipping
      never runs past it.
    */
    method UpdateAndConstrain(c: Collaborators, step: Step)
      requires Valid()
      requires RowsCovered(minCoef, maxCoef) <= coefs[0].Length0
      modifies coefs, intercepts
      ensures Valid() && RowsCovered(minCoef, maxCoef) <= coefs[0].Length0
      ensures FirstLayerClipped()
      ensures ParamValues() == BatchStep(old(ParamValues()), c, step, minCoef, maxCoef)
    {
      ApplyOptimizerUpdate(c, step);
      label Updated:
      var ok := UpdateCoefUsingConstrain();
      assert ok;
      FirstLayerReplaced@Updated();
    }

    /**
      When only the first matrix changed, and it became the clip of what it
      held, the parameters are the old ones with the first matrix clipped.
    */
    twostate lemma FirstLayerReplaced()
      requires old(Valid()) && unchanged(this`coefs, this`intercepts, this`minCoef, this`maxCoef)
      requires Entries(coefs[0]) == ClipRows(old(Entries(coefs[0])), minCoef, maxCoef)
      requires forall l :: 1 <= l < |coefs| ==> Entries(coefs[l]) == old(Entries(coefs[l]))
      requires forall l :: 0 <= l < |intercepts| ==> intercepts[l][..] == old(intercepts[l][..])
      ensures var u := old(ParamValues());
        ParamValues() == u.(coefs := u.coefs[0 := ClipRows(u.coefs[0], minCoef, maxCoef)])
    {
      var u, q := old(ParamValues()), ParamValues();
      MatrixValuesAt(coefs);
      VectorValuesAt(intercepts);
      assert u.coefs == old(MatrixValues(coefs)) && u.intercepts == old(VectorValues(intercepts));
      MatrixValuesAt(old(coefs));
      var clipped := u.coefs[0 := ClipRows(u.coefs[0], minCoef, maxCoef)];
      forall l | 0 <= l < |clipped| ensures q.coefs[l] == clipped[l] {
      }
      assert q.coefs == clipped;
    }

    /**
      The bookkeeping at the end of an epoch, before the loop decides whether
      to go on: the counters advance as EndEpoch says, and isStopping is the
      optimizer's verdict when the no-improvement count exceeded its limit.
    */
    method EndOfEpoch(epoch: nat, accumulatedLoss: real, n: nat, c: Collaborators) returns (isStopping: bool)
      requires n >= 1
      modifies this`nIter, this`t, this`loss, this`lossCurve, this`noImprovementCount
      ensures (Counters(), isStopping) == EndEpoch(old(Counters()), epoch, accumulatedLoss / n as real, n, c, nIterNoChange)
      ensures ParamValues() == old(ParamValues()) && FirstLayerClipped() == old(FirstLayerClipped())
    {
      isStopping := CountEpoch(epoch, accumulatedLoss, n, c);
      ParametersUnchanged();
    }

    /** The end-of-epoch bookkeeping of n_iter_, loss_, t_, loss_curve_ and _no_improvement_count, and nothing else. */
    method CountEpoch(epoch: nat, accumulatedLoss: real, n: nat, c: Collaborators) returns (isStopping: bool)
      requires n >= 1
      modifies this`nIter, this`t, this`loss, this`lossCurve, this`noImprovementCount
      ensures (Counters(), isStopping) == EndEpoch(old(Counters()), epoch, accumulatedLoss / n as real, n, c, nIterNoChange)
    {
      nIter := nIter + 1;
      loss := accumulatedLoss / n as real;
      t := t + n;
      lossCurve := lossCurve + [loss];
      noImprovementCount := c.noImprovement(epoch, noImprovementCount, loss);
      isStopping := false;
      if noImprovementCount > nIterNoChange {
        isStopping := c.triggerStopping(epoch);
        if !isStopping {
          noImprovementCount := 0;
        }
      }
    }

    /** When neither the parameter fields nor the arrays changed, neither did the parameter values or the clip. */
    twostate lemma ParametersUnchanged()
      requires unchanged(this`coefs, this`intercepts, this`minCoef, this`maxCoef)
      requires forall l :: 0 <= l < |coefs| ==> unchanged(coefs[l])
      requires forall l :: 0 <= l < |intercepts| ==> unchanged(intercepts[l])
      ensures ParamValues() == old(ParamValues()) && FirstLayerClipped() == old(FirstLayerClipped())
    {
    }

    /**
      _fit_constrained_stochastic: the epoch loop. The counters end as the
      loop-control model Train says, stopped tells whether the optimizer's
      trigger_stopping ended it, and once an epoch has run the first layer
      lies within its bounds. Only the counters and the parameter arrays change.
    */
    method FitConstrainedStochastic(x: seq<seq<real>>, y: seq<seq<real>>, c: Collaborators, incremental: bool)
      returns (stopped: bool)
      requires Valid() && |x| >= 1 && |y| == |x|
      requires RowsCovered(minCoef, maxCoef) <= coefs[0].Length0
      modifies this`nIter, this`t, this`loss, this`lossCurve, this`noImprovementCount, coefs, intercepts
      ensures (Counters(), stopped) == Train(old(Counters()), 0, Control(maxIter, nIterNoChange, incremental), c, x, y,
                                             BatchSize(batchSize, |x|).size)
      ensures nIter > old(nIter) ==> FirstLayerClipped()
      ensures old(nIter) <= nIter
      ensures ParamValues() == TrainedParams(old(ParamValues()), c, nIter - old(nIter), GenBatches(|x|, BatchSize(batchSize, |x|).size),
                                             minCoef, maxCoef)
    {
      var size := BatchSize(batchSize, |x|).size;
      var ctl := Control(maxIter, nIterNoChange, incremental);
      ghost var bs := GenBatches(|x|, size);
      ghost var hist := TrainedHistory(ParamValues(), c, maxIter, bs, minCoef, maxCoef);
      ghost var epochs;
      stopped, epochs := EpochLoop(x, y, c, size, ctl, hist, bs, minCoef, maxCoef);
    }

    /** The loop over the epochs, for it in range(max_iter), ended early by a stop or after one epoch of partial_fit. */
    method EpochLoop(x: seq<seq<real>>, y: seq<seq<real>>, c: Collaborators, size: nat, ctl: Control,
                     ghost hist: seq<Params>, ghost bs: seq<Slice>, ghost lo: seq<Ext>, ghost hi: seq<Ext>)
      returns (stopped: bool, ghost epochs: nat)
      requires Valid() && |x| >= 1 && |y| == |x| && size >= 1
      requires ctl.maxIter == maxIter && ctl.nIterNoChange == nIterNoChange
      requires RowsCovered(minCoef, maxCoef) <= coefs[0].Length0
      requires bs == GenBatches(|x|, size) && lo == minCoef && hi == maxCoef
      requires |hist| == maxIter + 1 && hist[0] == ParamValues() && EpochHistory(hist, c, bs, lo, hi)
      modifies this`nIter, this`t, this`loss, this`lossCurve, this`noImprovementCount, coefs, intercepts
      ensures (Counters(), stopped) == Train(old(Counters()), 0, ctl, c, x, y, size)
      ensures nIter == old(nIter) + epochs
      ensures epochs > 0 ==> FirstLayerClipped()
      ensures epochs <= maxIter && ParamValues() == hist[epochs]
    {
      ghost var start := Counters();
      ghost var target := Train(start, 0, ctl, c, x, y, size);
      stopped := false;
      var it := 0;
      while it < maxIter
        invariant it <= maxIter
        invariant Train(Counters(), it, ctl, c, x, y, size) == target
        invariant nIter == start.nIter + it
        invariant it > 0 ==> FirstLayerClipped()
        invariant ParamValues() == hist[it]
      {
        var isStopping := TrainingEpoch(it, x, y, c, size, ctl, hist, target, bs, lo, hi);
        it := it + 1;
        if isStopping || ctl.incremental {
          stopped := isStopping;
          break;
        }
      }
      epochs := it;
    }

    /**
      One pass of the epoch loop: the batches, then the end-of-epoch
      bookkeeping. The run from this epoch on is this epoch followed, unless
      it stopped or the fit is incremental, by the run from the next one.
    */
    method TrainingEpoch(it: nat, x: seq<seq<real>>, y: seq<seq<real>>, c: Collaborators, size: nat, ctl: Control,
                         ghost hist: seq<Params>, ghost target: (Progress, bool), ghost bs: seq<Slice>, ghost lo: seq<Ext>, ghost hi: seq<Ext>)
      returns (isStopping: bool)
      requires Valid() && |x| >= 1 && |y| == |x| && size >= 1 && it < maxIter
      requires ctl.maxIter == maxIter && ctl.nIterNoChange == nIterNoChange
      requires RowsCovered(minCoef, maxCoef) <= coefs[0].Length0
      requires bs == GenBatches(|x|, size) && lo == minCoef && hi == maxCoef
      requires |hist| == maxIter + 1 && EpochHistory(hist, c, bs, lo, hi) && ParamValues() == hist[it]
      requires Train(Counters(), it, ctl, c, x, y, size) == target
      modifies this`nIter, this`t, this`loss, this`lossCurve, this`noImprovementCount, coefs, intercepts
      ensures nIter == old(nIter) + 1
      ensures FirstLayerClipped()
      ensures ParamValues() == hist[it + 1]
      ensures isStopping || ctl.incremental ==> (Counters(), isStopping) == target
      ensures !(isStopping || ctl.incremental) ==> Train(Counters(), it + 1, ctl, c, x, y, size) == target
    {
      assert hist[it + 1] == EpochParams(hist[it], c, it, bs, |bs|, lo, hi);
      var accumulatedLoss := RunEpoch(it, x, y, c, size);
      isStopping := EndOfEpoch(it, accumulatedLoss, |x|, c);
    }

    /**
      _initialize: fresh weight matrices and intercept vectors shaped by
      layer_units and filled with the initializer's values; the counters
      start again from zero with an empty loss curve.
    */
    method Initialize(units: seq<nat>, init: Initializer)
      requires |units| >= 2
      modifies this`coefs, this`intercepts, this`coefLayer, this`interceptLayer
      modifies this`nIter, this`t, this`lossCurve, this`noImprovementCount
      ensures Valid() && Realises(units)
      ensures forall l :: 0 <= l < |coefs| ==> fresh(coefs[l]) && fresh(intercepts[l])
      ensures ParamValues() == InitialParams(units, init)
      ensures Counters() == Progress(0, 0, old(loss), [], 0)
    {
      var cs, cl, bs, bl := AllocateLayout(units, init);
      Install(cs, cl, bs, bl, units, init);
      ResetCounters();
    }

    /** The fields take the freshly allocated initial arrays. */
    method Install(cs: seq<array2<Ext>>, ghost cl: map<array2<Ext>, nat>, bs: seq<array<Ext>>, ghost bl: map<array<Ext>, nat>,
                   ghost units: seq<nat>, ghost init: Initializer)
      requires InitialMatrices(cs, cl, units, init) && InitialVectors(bs, bl, units, init)
      modifies this`coefs, this`intercepts, this`coefLayer, this`interceptLayer
      ensures coefs == cs && intercepts == bs
      ensures Valid() && Realises(units)
      ensures ParamValues() == InitialParams(units, init)
    {
      coefs, intercepts, coefLayer, interceptLayer := cs, bs, cl, bl;
      HoldInitialLayout(units, init);
    }

    /** The counters start again from zero with an empty loss curve. */
    method ResetCounters()
      modifies this`nIter, this`t, this`lossCurve, this`noImprovementCount
      ensures Counters() == Progress(0, 0, old(loss), [], 0)
    {
      nIter, t, lossCurve, noImprovementCount := 0, 0, [], 0;
    }

    /** The initial weight matrices and intercept vectors, all of them fresh. */
    static method AllocateLayout(units: seq<nat>, init: Initializer)
        returns (cs: seq<array2<Ext>>, ghost cl: map<array2<Ext>, nat>, bs: seq<array<Ext>>, ghost bl: map<array<Ext>, nat>)
      requires |units| >= 2
      ensures forall l :: 0 <= l < |cs| ==> fresh(cs[l])
      ensures forall l :: 0 <= l < |bs| ==> fresh(bs[l])
      ensures InitialMatrices(cs, cl, units, init) && InitialVectors(bs, bl, units, init)
    {
      cs, cl := AllocateMatrices(units, init);
      bs, bl := AllocateVectors(units, init);
    }

    /** cs holds the initial weight matrices for units, each in its own layer of cl. */
    static ghost predicate InitialMatrices(cs: seq<array2<Ext>>, cl: map<array2<Ext>, nat>, units: seq<nat>, init: Initializer)
      reads cs
    {
      && |units| >= 2
      && |cs| == |units| - 1
      && (forall l :: 0 <= l < |cs| ==> cs[l] in cl && cl[cs[l]] == l)
      && (forall l :: 0 <= l < |cs| ==> Shape(cs[l].Length0, cs[l].Length1) == CoefShapes(units)[l])
      && MatrixValues(cs) == InitialParams(units, init).coefs
    }

    /** bs holds the initial intercept vectors for units, each in its own layer of bl. */
    static ghost predicate InitialVectors(bs: seq<array<Ext>>, bl: map<array<Ext>, nat>, units: seq<nat>, init: Initializer)
      reads bs
    {
      && |units| >= 2
      && |bs| == |units| - 1
      && (forall l :: 0 <= l < |bs| ==> bs[l] in bl && bl[bs[l]] == l)
      && (forall l :: 0 <= l < |bs| ==> bs[l].Length == InterceptSizes(units)[l])
      && VectorValues(bs) == InitialParams(units, init).intercepts
    }

    /** Fields naming the initial matrices and vectors make a valid network of the initial parameters. */
    lemma HoldInitialLayout(units: seq<nat>, init: Initializer)
      requires InitialMatrices(coefs, coefLayer, units, init)
      requires InitialVectors(intercepts, interceptLayer, units, init)
      ensures Valid() && Realises(units)
      ensures ParamValues() == InitialParams(units, init)
    {
    }

    /**
      One fresh matrix per layer, shaped as layer l of layer_units requires
      and holding the initial weights of that layer.
    */
    static method AllocateMatrices(units: seq<nat>, init: Initializer) returns (cs: seq<array2<Ext>>, ghost cl: map<array2<Ext>, nat>)
      requires |units| >= 2
      ensures |cs| == |units| - 1
      ensures forall l :: 0 <= l < |cs| ==> fresh(cs[l])
      ensures InitialMatrices(cs, cl, units, init)
    {
      cs, cl := [], map[];
      for l := 0 to |units| - 1
        invariant |cs| == l
        invariant forall k :: 0 <= k < l ==> fresh(cs[k])
        invariant forall k :: 0 <= k < l ==> cs[k] in cl && cl[cs[k]] == k
        invariant forall k :: 0 <= k < l ==> cs[k].Length0 == units[k] && cs[k].Length1 == units[k + 1]
        invariant forall k, i, j :: 0 <= k < l && 0 <= i < cs[k].Length0 && 0 <= j < cs[k].Length1 ==>
          cs[k][i, j] == init.coef(k, i, j)
      {
        var w := new Ext[units[l], units[l + 1]]((i: nat, j: nat) => init.coef(l, i, j));
        cs, cl := cs + [w], cl[w := l];
      }
      HoldInitialMatrices(cs, units, init);
    }

    /**
      One fresh intercept vector per layer after the input, as long as
      layer_units requires and holding the initial intercepts of that layer.
    */
    static method AllocateVectors(units: seq<nat>, init: Initializer) returns (bs: seq<array<Ext>>, ghost bl: map<array<Ext>, nat>)
      requires |units| >= 2
      ensures |bs| == |units| - 1
      ensures forall l :: 0 <= l < |bs| ==> fresh(bs[l])
      ensures InitialVectors(bs, bl, units, init)
    {
      bs, bl := [], map[];
      for l := 0 to |units| - 1
        invariant |bs| == l
        invariant forall k :: 0 <= k < l ==> fresh(bs[k])
        invariant forall k :: 0 <= k < l ==> bs[k] in bl && bl[bs[k]] == k
        invariant forall k :: 0 <= k < l ==> bs[k].Length == units[k + 1]
        invariant forall k, j :: 0 <= k < l && 0 <= j < bs[k].Length ==> bs[k][j] == init.intercept(k, j)
      {
        var b := new Ext[units[l + 1]]((j: nat) => init.intercept(l, j));
        bs, bl := bs + [b], bl[b := l];
      }
      HoldInitialVectors(bs, units, init);
    }

    /** Matrices filled layer by layer with the initializer's values hold the initial weights. */
    static lemma HoldInitialMatrices(cs: seq<array2<Ext>>, units: seq<nat>, init: Initializer)
      requires |units| >= 2 && |cs| == |units| - 1
      requires forall l :: 0 <= l < |cs| ==> cs[l].Length0 == units[l] && cs[l].Length1 == units[l + 1]
      requires forall l, i, j :: 0 <= l < |cs| && 0 <= i < cs[l].Length0 && 0 <= j < cs[l].Length1 ==>
        cs[l][i, j] == init.coef(l, i, j)
      ensures MatrixValues(cs) == InitialParams(units, init).coefs
    {
      var q := InitialParams(units, init);
      MatrixValuesAt(cs);
      forall l | 0 <= l < |cs| ensures MatrixValues(cs)[l] == q.coefs[l] {
        InitialMatrixLayer(cs[l], units, init, l);
      }
    }

    /** Vectors filled layer by layer with the initializer's values hold the initial intercepts. */
    static lemma HoldInitialVectors(bs: seq<array<Ext>>, units: seq<nat>, init: Initializer)
      requires |units| >= 2 && |bs| == |units| - 1
      requires forall l :: 0 <= l < |bs| ==> bs[l].Length == units[l + 1]
      requires forall l, j :: 0 <= l < |bs| && 0 <= j < bs[l].Length ==> bs[l][j] == init.intercept(l, j)
      ensures VectorValues(bs) == InitialParams(units, init).intercepts
    {
      var q := InitialParams(units, init);
      VectorValuesAt(bs);
      forall l | 0 <= l < |bs| ensures VectorValues(bs)[l] == q.intercepts[l] {
        InitialParamsAt(units, init, l);
      }
    }

    /** A matrix filled with the initializer's values for layer l holds layer l of the initial weights. */
    static lemma InitialMatrixLayer(w: array2<Ext>, units: seq<nat>, init: Initializer, l: nat)
      requires l < |units| - 1
      requires w.Length0 == units[l] && w.Length1 == units[l + 1]
      requires forall i, j :: 0 <= i < w.Length0 && 0 <= j < w.Length1 ==> w[i, j] == init.coef(l, i, j)
      ensures Entries(w) == InitialParams(units, init).coefs[l]
    {
      var q := InitialParams(units, init);
      InitialParamsAt(units, init, l);
      var m := Entries(w);
      forall i | 0 <= i < |m| ensures m[i] == q.coefs[l][i] {
      }
    }

    /**
      The state a completed training run leaves: the network shaped as
      layer_units, the counters as Train says starting from zero (loss_ as it
      was), and the parameters those of the initial ones trained for n_iter_
      epochs over the batches of the batch size; once an epoch has run the
      first layer is clipped.
    */
    ghost predicate Trained(x: seq<seq<real>>, ys: seq<seq<real>>, units: seq<nat>, init: Initializer, c: Collaborators,
                            loss0: real)
      reads this, coefs, intercepts
    {
      var size := BatchSize(batchSize, |x|).size;
      && |x| >= 1 && |ys| == |x| && |units| >= 2
      && Valid() && Realises(units)
      && Counters() == Train(Progress(0, 0, loss0, [], 0), 0, Control(maxIter, nIterNoChange, false), c, x, ys, size).0
      && ParamValues() == TrainedParams(InitialParams(units, init), c, nIter, GenBatches(|x|, size), minCoef, maxCoef)
      && (maxIter >= 1 ==> nIter >= 1 && FirstLayerClipped())
    }

    /**
      fit(X, y, min_coef, max_coef): one bound per feature (absent bounds
      default to -inf and +inf), min_coef_ set before max_coef_ is checked,
      then _constrained_fit. A bad bound is reported before anything else
      changes; the fit succeeds exactly when every check passes and the
      trained weights are finite.
    */
    method Fit(x: seq<seq<real>>, y: Targets, minBound: Option<seq<Ext>>, maxBound: Option<seq<Ext>>,
               init: Initializer, c: Collaborators)
      returns (r: Outcome<FitError>)
      requires |x| >= 1 && IsMatrix(x, |x[0]|)
      requires y.Vector? ==> |y.values| == |x|
      requires y.Table? ==> |y.rows| == |x| && IsMatrix(y.rows, |y.rows[0]|)
      modifies this
      ensures var lo, hi := VerifyCoef(|x[0]|, minBound, NegInf), VerifyCoef(|x[0]|, maxBound, PosInf);
        && (lo.Err? ==> r == Fail(InvalidBounds(lo.error)) && minCoef == old(minCoef) && maxCoef == old(maxCoef))
        && (lo.Ok? ==> minCoef == lo.value)
        && (lo.Ok? && hi.Err? ==> r == Fail(InvalidBounds(hi.error)) && maxCoef == old(maxCoef))
        && (lo.Ok? && hi.Ok? ==> maxCoef == hi.value)
        && (lo.Err? || hi.Err? ==> coefs == old(coefs) && intercepts == old(intercepts) && Counters() == old(Counters()))
      ensures var hidden := ValidateHiddenLayerSizes(hiddenLayerSizes);
        VerifyCoef(|x[0]|, minBound, NegInf).Ok? && VerifyCoef(|x[0]|, maxBound, PosInf).Ok? ==>
          && (hidden.Err? ==> r == Fail(NonPositiveHiddenLayerSize(hidden.error))
                              && coefs == old(coefs) && intercepts == old(intercepts) && Counters() == old(Counters()))
          && (hidden.Ok? ==> ConstrainedFitOutcome(r, x, AsMatrix(y), LayerUnits(|x[0]|, hidden.value, |AsMatrix(y)[0]|),
                                                   init, c, old(loss)))
      ensures r.Pass? <==> && VerifyCoef(|x[0]|, minBound, NegInf).Ok? && VerifyCoef(|x[0]|, maxBound, PosInf).Ok?
                           && ValidateHiddenLayerSizes(hiddenLayerSizes).Ok? && SupportedSolver(solver)
                           && Finite(ParamValues())
    {
      var nFeatures := |x[0]|;
      var lo := VerifyCoef(nFeatures, minBound, NegInf);
      if lo.Err? {
        return Fail(InvalidBounds(lo.error));
      }
      minCoef := lo.value;
      var hi := VerifyCoef(nFeatures, maxBound, PosInf);
      if hi.Err? {
        return Fail(InvalidBounds(hi.error));
      }
      maxCoef := hi.value;
      r := ConstrainedFit(x, y, init, c);
    }

    /**
      What _constrained_fit leaves once the network is shaped as layer_units:
      the solver check fails with the freshly initialised parameters and no
      epoch run, or the run is Trained and passes exactly when every weight
      and intercept is finite.
    */
    ghost predicate ConstrainedFitOutcome(r: Outcome<FitError>, x: seq<seq<real>>, ys: seq<seq<real>>, units: seq<nat>,
                                          init: Initializer, c: Collaborators, loss0: real)
      reads this, coefs, intercepts
    {
      && |units| >= 2 && Valid() && Realises(units)
      && (!SupportedSolver(solver) ==>
            && r == Fail(UnsupportedSolver(solver))
            && Counters() == Progress(0, 0, loss0, [], 0) && ParamValues() == InitialParams(units, init))
      && (SupportedSolver(solver) ==>
            && Trained(x, ys, units, init, c, loss0)
            && (r.Pass? <==> Finite(ParamValues()))
            && (r.Fail? ==> r == Fail(NonFiniteWeights)))
    }

    /**
      _constrained_fit(X, y, incremental=False): the hidden layer sizes
      validated (a non-positive size is an error before anything changes),
      y made 2-D, then the network built and trained for layer_units.
    */
    method ConstrainedFit(x: seq<seq<real>>, y: Targets, init: Initializer, c: Collaborators)
      returns (r: Outcome<FitError>)
      requires |x| >= 1 && IsMatrix(x, |x[0]|)
      requires y.Vector? ==> |y.values| == |x|
      requires y.Table? ==> |y.rows| == |x| && IsMatrix(y.rows, |y.rows[0]|)
      requires |minCoef| == |maxCoef| == |x[0]|
      modifies this
      ensures minCoef == old(minCoef) && maxCoef == old(maxCoef)
      ensures var hidden := ValidateHiddenLayerSizes(hiddenLayerSizes);
        && (hidden.Err? ==> r == Fail(NonPositiveHiddenLayerSize(hidden.error))
                            && coefs == old(coefs) && intercepts == old(intercepts) && Counters() == old(Counters()))
        && (hidden.Ok? ==> ConstrainedFitOutcome(r, x, AsMatrix(y), LayerUnits(|x[0]|, hidden.value, |AsMatrix(y)[0]|),
                                                 init, c, old(loss)))
    {
      var hidden := ValidateHiddenLayerSizes(hiddenLayerSizes);
      if hidden.Err? {
        return Fail(NonPositiveHiddenLayerSize(hidden.error));
      }
      var ys := AsMatrix(y);
      var units := LayerUnits(|x[0]|, hidden.value, |ys[0]|);
      r := BuildAndSolve(x, ys, units, init, c);
    }

    /**
      The rest of _constrained_fit for the network layer_units: _initialize,
      the solver check, the epoch loop and the check for finite weights.
    */
    method BuildAndSolve(x: seq<seq<real>>, ys: seq<seq<real>>, units: seq<nat>, init: Initializer, c: Collaborators)
      returns (r: Outcome<FitError>)
      requires |x| >= 1 && |ys| == |x| && |units| >= 2 && units[0] == |minCoef| == |maxCoef|
      modifies this
      ensures minCoef == old(minCoef) && maxCoef == old(maxCoef)
      ensures ConstrainedFitOutcome(r, x, ys, units, init, c, old(loss))
    {
      ghost var loss0 := loss;
      Initialize(units, init);
      assert coefs[0].Length0 == CoefShapes(units)[0].rows == units[0];
      if !SupportedSolver(solver) {
        return Fail(UnsupportedSolver(solver));
      }
      var finite := SolveAndCheck(x, ys, units, init, c, loss0);
      r := if finite then Pass else Fail(NonFiniteWeights);
    }

    /**
      From freshly initialised parameters: the epoch loop, then the check
      that every weight and intercept came out finite.
    */
    method SolveAndCheck(x: seq<seq<real>>, ys: seq<seq<real>>, ghost units: seq<nat>, ghost init: Initializer,
                         c: Collaborators, ghost loss0: real)
      returns (finite: bool)
      requires |x| >= 1 && |ys| == |x| && |units| >= 2
      requires Valid() && Realises(units)
      requires RowsCovered(minCoef, maxCoef) <= coefs[0].Length0
      requires Counters() == Progress(0, 0, loss0, [], 0) && ParamValues() == InitialParams(units, init)
      modifies this`nIter, this`t, this`loss, this`lossCurve, this`noImprovementCount, coefs, intercepts
      ensures Trained(x, ys, units, init, c, loss0)
      ensures finite <==> Finite(ParamValues())
    {
      var stopped := FitConstrainedStochastic(x, ys, c, false);
      TrainEpochs(Progress(0, 0, loss0, [], 0), 0, Control(maxIter, nIterNoChange, false), c, x, ys,
                  BatchSize(batchSize, |x|).size);
      finite := AllFinite();
    }

    /** np.isfinite(w).all() for every w in chain(coefs_, intercepts_). */
    method AllFinite() returns (b: bool)
      requires Valid()
      ensures b <==> Finite(ParamValues())
    {
      b := true;
      for l := 0 to |coefs|
        invariant b <==> forall k, i, j :: 0 <= k < l && 0 <= i < coefs[k].Length0 && 0 <= j < coefs[k].Length1 ==>
          coefs[k][i, j].Fin?
      {
        var f := MatrixFinite(coefs[l]);
        b := b && f;
      }
      var weightsFinite := b;
      for l := 0 to |intercepts|
        invariant b <==> weightsFinite && forall k, j :: 0 <= k < l && 0 <= j < intercepts[k].Length ==> intercepts[k][j].Fin?
      {
        var f := VectorFinite(intercepts[l]);
        b := b && f;
      }
      FiniteArrays(coefs, intercepts);
    }

    /** np.isfinite(w).all() for one weight matrix. */
    static method MatrixFinite(w: array2<Ext>) returns (b: bool)
      ensures b <==> forall i, j :: 0 <= i < w.Length0 && 0 <= j < w.Length1 ==> w[i, j].Fin?
    {
      b := true;
      for i := 0 to w.Length0
        invariant b <==> forall i', j :: 0 <= i' < i && 0 <= j < w.Length1 ==> w[i', j].Fin?
      {
        for j := 0 to w.Length1
          invariant b <==> (forall i', j' :: 0 <= i' < i && 0 <= j' < w.Length1 ==> w[i', j'].Fin?)
                           && forall j' :: 0 <= j' < j ==> w[i, j'].Fin?
        {
          b := b && w[i, j].Fin?;
        }
      }
    }

    /** np.isfinite(w).all() for one intercept vector. */
    static method VectorFinite(v: array<Ext>) returns (b: bool)
      ensures b <==> forall j :: 0 <= j < v.Length ==> v[j].Fin?
    {
      b := true;
      for j := 0 to v.Length
        invariant b <==> forall j' :: 0 <= j' < j ==> v[j'].Fin?
      {
        b := b && v[j].Fin?;
      }
    }

    /** The parameter values are finite exactly when every entry of every array is. */
    static lemma FiniteArrays(cs: seq<array2<Ext>>, bs: seq<array<Ext>>)
      ensures Finite(Params(MatrixValues(cs), VectorValues(bs))) <==>
        && (forall k, i, j :: 0 <= k < |cs| && 0 <= i < cs[k].Length0 && 0 <= j < cs[k].Length1 ==> cs[k][i, j].Fin?)
        && (forall k, j :: 0 <= k < |bs| && 0 <= j < bs[k].Length ==> bs[k][j].Fin?)
    {
      MatrixValuesAt(cs);
      VectorValuesAt(bs);
    }

    /** Within bounds, entry by entry, for every row the bounds cover. */
    lemma FirstLayerWithinBounds()
      requires FirstLayerClipped()
      ensures forall i, j ::
        (0 <= i < coefs[0].Length0 && i < RowsCovered(minCoef, maxCoef) && 0 <= j < coefs[0].Length1 && Le(minCoef[i], maxCoef[i]))
        ==> Le(minCoef[i], coefs[0][i, j]) && Le(coefs[0][i, j], maxCoef[i])
    {
      var w := Entries(coefs[0]);
      forall i, j | 0 <= i < coefs[0].Length0 && i < RowsCovered(minCoef, maxCoef) && 0 <= j < coefs[0].Length1 &&
        Le(minCoef[i], maxCoef[i])
        ensures Le(minCoef[i], coefs[0][i, j]) && Le(coefs[0][i, j], maxCoef[i])
      {
        assert w[i][j] == coefs[0][i, j];
      }
    }
  }
}
