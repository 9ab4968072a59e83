/**
  The epoch bookkeeping and loop control of the constrained stochastic
  solver, on values: the loss of an epoch, the counters one epoch advances,
  the no-improvement rule and the bounded epoch loop.

  The numerics belong to scikit-learn and enter as collaborators: any
  function of the right type may stand for each of them. Every call is
  keyed by the epoch and the batch, so every sequence of values that the
  real collaborators could produce is produced by some such function.
*/
module LoopControl {
  import opened ExtReal
  import opened Batching

  /** One optimizer step: the epoch and the batch within it. */
  datatype Step = Step(epoch: nat, batch: Slice)

  datatype Collaborators = Collaborators(
    // the loss _backprop reports for a batch of inputs and targets
    batchLoss: (Step, seq<seq<real>>, seq<seq<real>>) -> real,
    // update_params: the new value of coefs_[l][i, j] from its old value
    coefUpdate: (Step, nat, nat, nat, Ext) -> Ext,
    // update_params: the new value of intercepts_[l][j] from its old value
    interceptUpdate: (Step, nat, nat, Ext) -> Ext,
    // _update_no_improvement_count: the new count after an epoch with the given loss
    noImprovement: (nat, nat, real) -> nat,
    // the optimizer's trigger_stopping at the end of an epoch
    triggerStopping: nat -> bool
  )

  /** The fitted attributes the loop maintains: n_iter_, t_, loss_, loss_curve_, _no_improvement_count. */
  datatype Progress = Progress(nIter: nat, t: nat, loss: real, lossCurve: seq<real>, noImprovementCount: nat)

  /** The hyperparameters of the loop: max_iter, n_iter_no_change, and incremental (partial_fit). */
  datatype Control = Control(maxIter: nat, nIterNoChange: nat, incremental: bool)

  /** The loss backprop reports for one batch of an epoch. */
  function BatchLoss(c: Collaborators, epoch: nat, x: seq<seq<real>>, y: seq<seq<real>>, s: Slice): real
    requires s.start <= s.stop <= |x| && |y| == |x|
  {
    c.batchLoss(Step(epoch, s), x[s.start..s.stop], y[s.start..s.stop])
  }

  /** v added up n times: a batch loss weighted by the batch length. */
  function Times(v: real, n: int): real
    decreases n
  {
    if n <= 0 then 0.0 else Times(v, n - 1) + v
  }

  /** Adding v up n times is multiplying it by n. */
  lemma {:induction false} TimesIsProduct(v: real, n: int)
    requires n >= 0
    ensures Times(v, n) == v * n as real
  {
    if n > 0 {
      TimesIsProduct(v, n - 1);
    }
  }

  /** accumulated_loss after the first k batches: each batch loss weighted by the batch length. */
  function AccumulatedLoss(c: Collaborators, epoch: nat, x: seq<seq<real>>, y: seq<seq<real>>, bs: seq<Slice>, k: nat): real
    requires InRange(bs, |x|) && |y| == |x| && k <= |bs|
  {
    if k == 0 then 0.0
    else
      var s := bs[k - 1];
      AccumulatedLoss(c, epoch, x, y, bs, k - 1)
        + Times(BatchLoss(c, epoch, x, y, s), Length(s))
  }

  /** loss_ of an epoch: accumulated_loss over all its batches divided by the number of samples. */
  function EpochLoss(c: Collaborators, epoch: nat, x: seq<seq<real>>, y: seq<seq<real>>, size: nat): real
    requires size >= 1 && |x| >= 1 && |y| == |x|
  {
    var bs := GenBatches(|x|, size);
    AccumulatedLoss(c, epoch, x, y, bs, |bs|) / |x| as real
  }

  /** Every batch loss of the batches bs lies in [lo, hi]. */
  ghost predicate BatchLossesWithin(c: Collaborators, epoch: nat, x: seq<seq<real>>, y: seq<seq<real>>,
                                    bs: seq<Slice>, lo: real, hi: real)
    requires InRange(bs, |x|) && |y| == |x|
  {
    forall k :: 0 <= k < |bs| ==>
      lo <= BatchLoss(c, epoch, x, y, bs[k]) <= hi
  }

  /** acc lies between lo and hi times total. */
  predicate ScaledWithin(acc: real, total: int, lo: real, hi: real) {
    Times(lo, total) <= acc <= Times(hi, total)
  }

  /** Adding v up m + n times is adding it up m times and then n times. */
  lemma {:induction false} TimesAdd(v: real, m: int, n: int)
    requires m >= 0 && n >= 0
    ensures Times(v, m + n) == Times(v, m) + Times(v, n)
    decreases n
  {
    if n > 0 {
      TimesAdd(v, m, n - 1);
    }
  }

  /** A larger value added up the same number of times gives a larger sum. */
  lemma {:induction false} TimesMonotone(a: real, b: real, n: int)
    requires a <= b
    ensures Times(a, n) <= Times(b, n)
    decreases n
  {
    if n > 0 {
      TimesMonotone(a, b, n - 1);
    }
  }

  lemma AddBounds(acc: real, total: int, l: real, len: int, lo: real, hi: real)
    requires total >= 0 && len >= 0 && lo <= l <= hi
    requires ScaledWithin(acc, total, lo, hi)
    ensures ScaledWithin(acc + Times(l, len), total + len, lo, hi)
  {
    TimesAdd(lo, total, len);
    TimesAdd(hi, total, len);
    TimesMonotone(lo, l, len);
    TimesMonotone(l, hi, len);
  }

  /**
    When every batch loss lies in [lo, hi], the loss accumulated over the
    first k batches lies between lo and hi times the number of samples
    those batches hold.
  */
  lemma {:induction false} AccumulatedLossBounds(c: Collaborators, epoch: nat, x: seq<seq<real>>, y: seq<seq<real>>,
                                                 bs: seq<Slice>, k: nat, lo: real, hi: real)
    requires InRange(bs, |x|) && |y| == |x| && k <= |bs|
    requires BatchLossesWithin(c, epoch, x, y, bs, lo, hi)
    ensures TotalLength(bs, k) >= 0
    ensures ScaledWithin(AccumulatedLoss(c, epoch, x, y, bs, k), TotalLength(bs, k), lo, hi)
  {
    if k > 0 {
      var s := bs[k - 1];
      AccumulatedLossBounds(c, epoch, x, y, bs, k - 1, lo, hi);
      AddBounds(AccumulatedLoss(c, epoch, x, y, bs, k - 1), TotalLength(bs, k - 1),
                BatchLoss(c, epoch, x, y, s), Length(s), lo, hi);
    }
  }

  lemma MeanBounds(acc: real, total: int, lo: real, hi: real)
    requires total > 0 && ScaledWithin(acc, total, lo, hi)
    ensures lo <= acc / total as real <= hi
  {
    var n := total as real;
    TimesIsProduct(lo, total);
    TimesIsProduct(hi, total);
    assert acc / n * n == acc;
  }

  /**
    loss_ is a length-weighted mean of the batch losses: when every batch
    loss of the epoch lies in [lo, hi], so does loss_.
  */
  lemma EpochLossIsWeightedMean(c: Collaborators, epoch: nat, x: seq<seq<real>>, y: seq<seq<real>>, size: nat,
                                lo: real, hi: real)
    requires size >= 1 && |x| >= 1 && |y| == |x|
    requires BatchLossesWithin(c, epoch, x, y, GenBatches(|x|, size), lo, hi)
    ensures lo <= EpochLoss(c, epoch, x, y, size) <= hi
  {
    var bs := GenBatches(|x|, size);
    var acc := AccumulatedLoss(c, epoch, x, y, bs, |bs|);
    var total := TotalLength(bs, |bs|);
    assert total == |x| by {
      GenBatchesTotal(|x|, size);
    }
    assert ScaledWithin(acc, total, lo, hi) by {
      AccumulatedLossBounds(c, epoch, x, y, bs, |bs|, lo, hi);
    }
    MeanBounds(acc, total, lo, hi);
  }

  /**
    The end of an epoch: n_iter_ grows by one, t_ by the sample count, the
    epoch loss becomes loss_ and is appended to loss_curve_; then the
    no-improvement count is updated, and if it exceeds n_iter_no_change the
    optimizer decides: stop (true), or continue with the count reset to 0.
  */
  function EndEpoch(p: Progress, epoch: nat, epochLoss: real, n: nat, c: Collaborators, nIterNoChange: nat)
    : (r: (Progress, bool))
    ensures r.0.nIter == p.nIter + 1 && r.0.t == p.t + n
    ensures r.0.loss == epochLoss && r.0.lossCurve == p.lossCurve + [epochLoss]
    ensures var count := c.noImprovement(epoch, p.noImprovementCount, epochLoss);
      && (r.1 <==> count > nIterNoChange && c.triggerStopping(epoch))
      && (r.1 ==> r.0.noImprovementCount == count)
      && (count > nIterNoChange && !c.triggerStopping(epoch) ==> r.0.noImprovementCount == 0)
      && (count <= nIterNoChange ==> r.0.noImprovementCount == count)
    ensures !r.1 ==> r.0.noImprovementCount <= nIterNoChange
  {
    var count := c.noImprovement(epoch, p.noImprovementCount, epochLoss);
    var q := Progress(p.nIter + 1, p.t + n, epochLoss, p.lossCurve + [epochLoss], count);
    if count > nIterNoChange then
      if c.triggerStopping(epoch) then (q, true) else (q.(noImprovementCount := 0), false)
    else (q, false)
  }

  /** The losses of e consecutive epochs from epoch on. */
  function EpochLosses(c: Collaborators, epoch: nat, e: nat, x: seq<seq<real>>, y: seq<seq<real>>, size: nat)
    : (ls: seq<real>)
    requires size >= 1 && |x| >= 1 && |y| == |x|
    ensures |ls| == e
    decreases e
  {
    if e == 0 then [] else [EpochLoss(c, epoch, x, y, size)] + EpochLosses(c, epoch + 1, e - 1, x, y, size)
  }

  /**
    The epoch loop from epoch onwards: at most max_iter epochs, leaving
    after the epoch whose optimizer asked to stop, or after one epoch in
    incremental mode. The flag says whether the optimizer stopped it.
  */
  function Train(p: Progress, epoch: nat, ctl: Control, c: Collaborators, x: seq<seq<real>>, y: seq<seq<real>>, size: nat)
    : (r: (Progress, bool))
    requires size >= 1 && |x| >= 1 && |y| == |x|
    decreases ctl.maxIter - epoch
  {
    if epoch >= ctl.maxIter then (p, false)
    else
      var (q, stop) := EndEpoch(p, epoch, EpochLoss(c, epoch, x, y, size), |x|, c, ctl.nIterNoChange);
      if stop || ctl.incremental then (q, stop) else Train(q, epoch + 1, ctl, c, x, y, size)
  }

  /**
    How many epochs the loop runs: n_iter_ grows by e, no more than the
    remaining max_iter, and when no epoch runs nothing changes.
  */
  lemma {:induction false} TrainEpochs(p: Progress, epoch: nat, ctl: Control, c: Collaborators,
                                       x: seq<seq<real>>, y: seq<seq<real>>, size: nat)
    requires size >= 1 && |x| >= 1 && |y| == |x|
    requires epoch <= ctl.maxIter
    ensures var q := Train(p, epoch, ctl, c, x, y, size).0;
      && p.nIter <= q.nIter <= p.nIter + (ctl.maxIter - epoch)
      && (epoch < ctl.maxIter ==> q.nIter >= p.nIter + 1)
      && (q.nIter == p.nIter ==> q == p)
    decreases ctl.maxIter - epoch
  {
    if epoch < ctl.maxIter {
      var (q1, stop) := EndEpoch(p, epoch, EpochLoss(c, epoch, x, y, size), |x|, c, ctl.nIterNoChange);
      if !(stop || ctl.incremental) {
        TrainEpochs(q1, epoch + 1, ctl, c, x, y, size);
      }
    }
  }

  /** t_ grows by the sample count once per epoch run. */
  lemma {:induction false} TrainCounters(p: Progress, epoch: nat, ctl: Control, c: Collaborators,
                                         x: seq<seq<real>>, y: seq<seq<real>>, size: nat)
    requires size >= 1 && |x| >= 1 && |y| == |x|
    requires epoch <= ctl.maxIter
    ensures var q := Train(p, epoch, ctl, c, x, y, size).0;
      q.t == p.t + (q.nIter - p.nIter) * |x|
    decreases ctl.maxIter - epoch
  {
    if epoch < ctl.maxIter {
      var (q1, stop) := EndEpoch(p, epoch, EpochLoss(c, epoch, x, y, size), |x|, c, ctl.nIterNoChange);
      if !(stop || ctl.incremental) {
        TrainCounters(q1, epoch + 1, ctl, c, x, y, size);
        var q := Train(q1, epoch + 1, ctl, c, x, y, size).0;
        Distribute(q.nIter - q1.nIter, |x|);
      }
    }
  }

  lemma Distribute(e: int, n: int)
    ensures (e + 1) * n == e * n + n
  {
  }

  /**
    The loss history: loss_curve_ is extended by exactly the losses of the
    epochs that ran, in order, and loss_ is the last of them.
  */
  lemma {:induction false} TrainLossCurve(p: Progress, epoch: nat, ctl: Control, c: Collaborators,
                                          x: seq<seq<real>>, y: seq<seq<real>>, size: nat)
    requires size >= 1 && |x| >= 1 && |y| == |x|
    requires epoch <= ctl.maxIter
    ensures var q := Train(p, epoch, ctl, c, x, y, size).0;
      var e := q.nIter - p.nIter;
      && e >= 0
      && q.lossCurve == p.lossCurve + EpochLosses(c, epoch, e, x, y, size)
    decreases ctl.maxIter - epoch
  {
    if epoch < ctl.maxIter {
      var (q1, stop) := EndEpoch(p, epoch, EpochLoss(c, epoch, x, y, size), |x|, c, ctl.nIterNoChange);
      if !(stop || ctl.incremental) {
        TrainLossCurve(q1, epoch + 1, ctl, c, x, y, size);
        TrainEpochs(q1, epoch + 1, ctl, c, x, y, size);
        LossCurveStep(p, q1, Train(q1, epoch + 1, ctl, c, x, y, size).0, c, epoch, x, y, size);
      }
    }
  }

  /** Once an epoch has run, loss_ is the last entry of loss_curve_. */
  lemma {:induction false} TrainLastLoss(p: Progress, epoch: nat, ctl: Control, c: Collaborators,
                                         x: seq<seq<real>>, y: seq<seq<real>>, size: nat)
    requires size >= 1 && |x| >= 1 && |y| == |x|
    requires epoch <= ctl.maxIter
    ensures var q := Train(p, epoch, ctl, c, x, y, size).0;
      q.nIter > p.nIter ==> |q.lossCurve| >= 1 && q.loss == q.lossCurve[|q.lossCurve| - 1]
    decreases ctl.maxIter - epoch
  {
    if epoch < ctl.maxIter {
      var (q1, stop) := EndEpoch(p, epoch, EpochLoss(c, epoch, x, y, size), |x|, c, ctl.nIterNoChange);
      if !(stop || ctl.incremental) {
        TrainLastLoss(q1, epoch + 1, ctl, c, x, y, size);
        TrainEpochs(q1, epoch + 1, ctl, c, x, y, size);
      }
    }
  }

  /** A curve one epoch's loss longer, then extended by the next epochs' losses, is extended by all of them. */
  lemma LossCurveStep(p: Progress, q1: Progress, q: Progress, c: Collaborators, epoch: nat,
                      x: seq<seq<real>>, y: seq<seq<real>>, size: nat)
    requires size >= 1 && |x| >= 1 && |y| == |x|
    requires q1.nIter == p.nIter + 1 && q1.lossCurve == p.lossCurve + [EpochLoss(c, epoch, x, y, size)]
    requires q1.nIter <= q.nIter && q.lossCurve == q1.lossCurve + EpochLosses(c, epoch + 1, q.nIter - q1.nIter, x, y, size)
    ensures q.lossCurve == p.lossCurve + EpochLosses(c, epoch, q.nIter - p.nIter, x, y, size)
  {
    var l := EpochLoss(c, epoch, x, y, size);
    var rest := EpochLosses(c, epoch + 1, q.nIter - q1.nIter, x, y, size);
    assert EpochLosses(c, epoch, q.nIter - p.nIter, x, y, size) == [l] + rest;
    assert q.lossCurve == p.lossCurve + ([l] + rest);
  }

  /**
    How the loop ends: with incremental it runs exactly one epoch (when
    max_iter allows any); it ends before max_iter only in incremental mode
    or when the optimizer stopped it; the optimizer stops it only in an
    epoch whose no-improvement count exceeded n_iter_no_change; and a run
    that was not stopped leaves the count at most n_iter_no_change.
  */
  lemma {:induction false} TrainTermination(p: Progress, epoch: nat, ctl: Control, c: Collaborators,
                                            x: seq<seq<real>>, y: seq<seq<real>>, size: nat)
    requires size >= 1 && |x| >= 1 && |y| == |x|
    requires epoch <= ctl.maxIter
    ensures var (q, stopped) := Train(p, epoch, ctl, c, x, y, size);
      var e := q.nIter - p.nIter;
      && (ctl.incremental && epoch < ctl.maxIter ==> e == 1)
      && (e < ctl.maxIter - epoch ==> ctl.incremental || stopped)
      && (stopped ==> e >= 1 && q.noImprovementCount > ctl.nIterNoChange && c.triggerStopping(epoch + e - 1))
      && (!stopped && e >= 1 ==> q.noImprovementCount <= ctl.nIterNoChange)
    decreases ctl.maxIter - epoch
  {
    if epoch < ctl.maxIter {
      var (q1, stop) := EndEpoch(p, epoch, EpochLoss(c, epoch, x, y, size), |x|, c, ctl.nIterNoChange);
      if !(stop || ctl.incremental) {
        TrainTermination(q1, epoch + 1, ctl, c, x, y, size);
        TrainEpochs(q1, epoch + 1, ctl, c, x, y, size);
      }
    }
  }
}
