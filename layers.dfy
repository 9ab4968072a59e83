/**
  Network shape: validation of hidden_layer_sizes and the layer_units list
  from which the weight matrices and intercept vectors are shaped.
*/
module Layers {
  import opened Wrappers

  /** hidden_layer_sizes as the user gives it: a single integer or a sequence of them. */
  datatype HiddenLayerSizes = Scalar(size: int) | Sizes(sizes: seq<int>)

  /** The shape (rows, columns) of a weight matrix. */
  datatype Shape = Shape(rows: nat, cols: nat)

  /** A scalar is wrapped into a one-element list; an iterable is taken as it is. */
  function AsList(h: HiddenLayerSizes): seq<int> {
    match h
    case Scalar(k) => [k]
    case Sizes(s) => s
  }

  /**
    The hidden layer sizes as a list of positive integers, or the ValueError
    raised when some entry is not positive. An empty list is accepted.
  */
  function ValidateHiddenLayerSizes(h: HiddenLayerSizes): (r: Result<seq<nat>, seq<int>>)
    ensures r.Ok? <==> forall k :: 0 <= k < |AsList(h)| ==> AsList(h)[k] > 0
    ensures r.Ok? ==> r.value == AsList(h) && forall k :: 0 <= k < |r.value| ==> r.value[k] > 0
    ensures r.Err? ==> r.error == AsList(h)
    ensures h.Scalar? ==> (r.Ok? <==> h.size > 0) && (r.Ok? ==> r.value == [h.size])
  {
    var s := AsList(h);
    assert h.Scalar? ==> s[0] == h.size;
    if forall k :: 0 <= k < |s| ==> s[k] > 0 then Ok(seq(|s|, k requires 0 <= k < |s| => s[k] as nat))
    else Err(s)
  }

  /** layer_units = [n_features] + hidden + [n_outputs]. */
  function LayerUnits(nFeatures: nat, hidden: seq<nat>, nOutputs: nat): (u: seq<nat>)
    ensures |u| == |hidden| + 2
  {
    [nFeatures] + hidden + [nOutputs]
  }

  /** The shapes of coef_grads (and of coefs_): zip(layer_units[:-1], layer_units[1:]). */
  function CoefShapes(units: seq<nat>): (shapes: seq<Shape>)
    requires |units| >= 1
    ensures |shapes| == |units| - 1
  {
    seq(|units| - 1, l requires 0 <= l < |units| - 1 => Shape(units[l], units[l + 1]))
  }

  /** The lengths of intercept_grads (and of intercepts_): layer_units[1:]. */
  function InterceptSizes(units: seq<nat>): (sizes: seq<nat>)
    requires |units| >= 1
    ensures |sizes| == |units| - 1
  {
    units[1..]
  }

  /**
    There is one weight matrix per consecutive pair of layers, at least one;
    the first has one row per input feature and the last one column per
    output; the matrices chain (columns of one are rows of the next), and
    intercept l has as many entries as matrix l has columns.
  */
  lemma NetworkShape(nFeatures: nat, hidden: seq<nat>, nOutputs: nat)
    ensures var units := LayerUnits(nFeatures, hidden, nOutputs);
      var shapes := CoefShapes(units);
      && |shapes| == |hidden| + 1 && |InterceptSizes(units)| == |shapes|
      && shapes[0].rows == nFeatures
      && shapes[|shapes| - 1].cols == nOutputs
      && (forall l :: 0 <= l < |shapes| - 1 ==> shapes[l].cols == shapes[l + 1].rows == hidden[l])
      && (forall l :: 0 <= l < |shapes| ==> InterceptSizes(units)[l] == shapes[l].cols)
  {
    var units := LayerUnits(nFeatures, hidden, nOutputs);
    var shapes := CoefShapes(units);
    assert units[0] == nFeatures && units[|units| - 1] == nOutputs;
    assert shapes[0] == Shape(units[0], units[1]);
    assert shapes[|shapes| - 1] == Shape(units[|units| - 2], units[|units| - 1]);
    forall l | 0 <= l < |shapes| - 1 ensures shapes[l].cols == shapes[l + 1].rows == hidden[l] {
      assert units[l + 1] == hidden[l];
    }
  }

  /** The solver check: only "sgd" and "adam" are accepted by the constrained loop. */
  predicate SupportedSolver(solver: string) {
    solver == "sgd" || solver == "adam"
  }
}
