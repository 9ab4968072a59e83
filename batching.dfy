/**
  Mini-batch selection: the effective batch size and the consecutive,
  unshuffled batches of one epoch (scikit-learn's gen_batches).
*/
module Batching {

  /** The batch_size hyperparameter: the string "auto" or an integer. */
  datatype BatchSizeParam = Auto | Fixed(requested: int)

  /** The effective batch size, and whether the clipping warning is issued. */
  datatype BatchChoice = BatchChoice(size: nat, warn: bool)

  /**
    "auto" is min(200, n); an integer is clipped into [1, n], with a warning
    exactly when it lies outside that range.
  */
  function BatchSize(p: BatchSizeParam, n: nat): (b: BatchChoice)
    ensures n >= 1 ==> 1 <= b.size <= n
    ensures p.Auto? ==> !b.warn && b.size <= 200 && b.size <= n && (b.size == 200 || b.size == n)
    ensures p.Fixed? ==> (b.warn <==> p.requested < 1 || p.requested > n)
    ensures p.Fixed? && !b.warn ==> b.size == p.requested
    ensures p.Fixed? && p.requested < 1 && n >= 1 ==> b.size == 1
    ensures p.Fixed? && p.requested > n ==> b.size == n
  {
    match p
    case Auto => BatchChoice(if n < 200 then n else 200, false)
    case Fixed(k) =>
      var atLeastOne := if k < 1 then 1 else k;
      BatchChoice(if atLeastOne > n then n else atLeastOne, k < 1 || k > n)
  }

  /** The half-open range [start, stop) of sample indices, Python's slice(start, stop). */
  datatype Slice = Slice(start: nat, stop: nat)

  function Length(s: Slice): int {
    s.stop - s.start
  }

  /** The batches from sample start on: full batches of size, then a shorter tail. */
  function BatchesFrom(start: nat, n: nat, size: nat): (bs: seq<Slice>)
    requires size >= 1
    ensures forall k :: 0 <= k < |bs| ==> start <= bs[k].start < bs[k].stop <= n
    decreases n - start
  {
    if start >= n then []
    else [Slice(start, if start + size <= n then start + size else n)] + BatchesFrom(start + size, n, size)
  }

  /** gen_batches(n, size): the batches of one epoch over n samples. */
  function GenBatches(n: nat, size: nat): seq<Slice>
    requires size >= 1
  {
    BatchesFrom(0, n, size)
  }

  /** Every slice is non-empty and inside [0, n). */
  ghost predicate InRange(bs: seq<Slice>, n: nat) {
    forall k :: 0 <= k < |bs| ==> bs[k].start < bs[k].stop <= n
  }

  /** Each slice starts where the previous one stopped. */
  ghost predicate Consecutive(bs: seq<Slice>) {
    forall k :: 0 <= k < |bs| - 1 ==> bs[k].stop == bs[k + 1].start
  }

  /** The first batch from start, followed by the batches after it. */
  lemma BatchesFromUnfold(start: nat, n: nat, size: nat)
    requires size >= 1 && start < n
    ensures BatchesFrom(start, n, size)
         == [Slice(start, if start + size <= n then start + size else n)] + BatchesFrom(start + size, n, size)
    ensures start + size > n ==> BatchesFrom(start + size, n, size) == []
  {
  }

  /**
    The batches from start begin at start and end at n, and there are none
    exactly when start is n; the last one holds between 1 and size samples.
  */
  lemma {:induction false} BatchesEnds(start: nat, n: nat, size: nat)
    requires size >= 1 && start <= n
    ensures var bs := BatchesFrom(start, n, size);
      && (bs == [] <==> start == n)
      && (bs != [] ==> bs[0].start == start && bs[|bs| - 1].stop == n && 1 <= Length(bs[|bs| - 1]) <= size)
    decreases n - start
  {
    if start < n {
      BatchesFromUnfold(start, n, size);
      if start + size < n {
        BatchesEnds(start + size, n, size);
      }
    }
  }

  /** The batches from start are non-empty, inside [start, n), and each starts where the previous stopped. */
  lemma {:induction false} BatchesConsecutive(start: nat, n: nat, size: nat)
    requires size >= 1 && start <= n
    ensures InRange(BatchesFrom(start, n, size), n) && Consecutive(BatchesFrom(start, n, size))
    decreases n - start
  {
    if start < n {
      BatchesFromUnfold(start, n, size);
      if start + size < n {
        var rest := BatchesFrom(start + size, n, size);
        BatchesConsecutive(start + size, n, size);
        BatchesEnds(start + size, n, size);
        assert rest[0].start == start + size;
      }
    }
  }

  /** Every batch but the last holds exactly size samples. */
  lemma {:induction false} BatchesFull(start: nat, n: nat, size: nat)
    requires size >= 1 && start <= n
    ensures var bs := BatchesFrom(start, n, size);
      forall k :: 0 <= k < |bs| - 1 ==> Length(bs[k]) == size
    decreases n - start
  {
    if start < n {
      BatchesFromUnfold(start, n, size);
      if start + size < n {
        BatchesFull(start + size, n, size);
      }
    }
  }

  /**
    The batches from start exactly tile [start, n) in order: consecutive,
    non-empty, starting at start and ending at n; every batch but the last
    has length size, and the last has length at most size.
  */
  lemma BatchesPartition(start: nat, n: nat, size: nat)
    requires size >= 1 && start <= n
    ensures var bs := BatchesFrom(start, n, size);
      && (bs == [] <==> start == n)
      && (bs != [] ==> bs[0].start == start && bs[|bs| - 1].stop == n && 1 <= Length(bs[|bs| - 1]) <= size)
      && InRange(bs, n) && Consecutive(bs)
      && (forall k :: 0 <= k < |bs| - 1 ==> Length(bs[k]) == size)
  {
    BatchesEnds(start, n, size);
    BatchesConsecutive(start, n, size);
    BatchesFull(start, n, size);
  }

  /** The samples of the batches, in batch order. */
  function Gather<T>(s: seq<T>, bs: seq<Slice>): seq<T>
    requires forall k :: 0 <= k < |bs| ==> bs[k].start <= bs[k].stop <= |s|
  {
    if bs == [] then [] else s[bs[0].start..bs[0].stop] + Gather(s, bs[1..])
  }

  /**
    No shuffling: the batches of an epoch visit every sample exactly once,
    in the original order.
  */
  lemma {:induction false} GatherBatches<T>(s: seq<T>, start: nat, size: nat)
    requires size >= 1 && start <= |s|
    ensures Gather(s, BatchesFrom(start, |s|, size)) == s[start..]
    decreases |s| - start
  {
    if start < |s| {
      var stop := if start + size <= |s| then start + size else |s|;
      var bs := BatchesFrom(start, |s|, size);
      var rest := BatchesFrom(start + size, |s|, size);
      assert bs == [Slice(start, stop)] + rest;
      assert bs[1..] == rest;
      if start + size <= |s| {
        GatherBatches(s, start + size, size);
      } else {
        assert rest == [];
      }
      assert Gather(s, rest) == s[stop..];
      assert s[start..] == s[start..stop] + s[stop..];
    }
  }

  /** The summed length of the first k batches, accumulated left to right as the epoch loop does. */
  function TotalLength(bs: seq<Slice>, k: nat): int
    requires k <= |bs|
  {
    if k == 0 then 0 else TotalLength(bs, k - 1) + Length(bs[k - 1])
  }

  /** Consecutive slices: the first k have total length their last stop minus the first start. */
  lemma {:induction false} TotalLengthTelescopes(bs: seq<Slice>, k: nat)
    requires Consecutive(bs) && 1 <= k <= |bs|
    ensures TotalLength(bs, k) == bs[k - 1].stop - bs[0].start
  {
    if k > 1 {
      TotalLengthTelescopes(bs, k - 1);
    }
  }

  /** The batches of an epoch hold n samples in all. */
  lemma GenBatchesTotal(n: nat, size: nat)
    requires size >= 1
    ensures TotalLength(GenBatches(n, size), |GenBatches(n, size)|) == n
  {
    BatchesPartition(0, n, size);
    if n > 0 {
      TotalLengthTelescopes(GenBatches(n, size), |GenBatches(n, size)|);
    }
  }
}
