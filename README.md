# Constrained multi-layer perceptron: the constrained training loop

This project models the part of `ConstrainedMultilayerPerceptron` that the
repository adds on top of scikit-learn's MLP. It is a stochastic training
loop that clips the first weight matrix into per-feature bounds after every
optimizer step. The model covers:

- `fit`: one lower and one upper bound per input feature, with defaults of
  -inf and +inf.
- `_constrained_fit`:
  - validation of `hidden_layer_sizes`;
  - the `layer_units` list and the shapes of the weight matrices and
    intercept vectors;
  - the solver check;
  - the final check that every weight and intercept is finite.
- `_fit_constrained_stochastic`:
  - the batch-size rule;
  - the unshuffled, consecutive batches of each epoch;
  - the length-weighted epoch loss;
  - the parameters after every batch, every epoch and the whole run;
  - the counters `n_iter_`, `t_`, `loss_` and `loss_curve_`;
  - the no-improvement rule that hands over to the optimizer's stop decision;
  - the loop bounded by `max_iter`, and its incremental mode.
- `_update_coef_using_constrain`: the in-place clip of the first weight
  matrix, row by row, with `numpy.clip` taken as `minimum(maximum(x, lo), hi)`.

Floats are extended reals (`ExtReal.Ext`: -inf, a real, +inf), because the
bounds may be infinite and a clip into infinite bounds can give an infinite
weight. NaN is not represented.

The numerics belong to scikit-learn and enter as collaborators
(`LoopControl.Collaborators`, `Parameters.Initializer`). These are function
values keyed by the epoch and the batch, so every sequence of values the
real code could produce is produced by some choice of them:

- `_backprop`'s batch loss;
- `update_params`, entry by entry, for every weight and every intercept;
- `_update_no_improvement_count`;
- `trigger_stopping`;
- `_initialize`'s starting weights.

The verified content is:

- After each batch, the parameters are the optimizer's new values with the
  first layer clipped (`Parameters.BatchStep`). The clip changes only the
  rows of the first layer that the bounds cover, and it leaves that layer
  within its bounds.
- A whole run leaves the parameters that the value-level fold
  `Parameters.TrainedParams` gives. With the default bounds this is exactly
  the unconstrained run (`Parameters.DefaultBoundsTraining`).
- The batches tile the samples in order.
- The counters move exactly as the loop says.
- The loop ends only as the source allows.
- `fit` succeeds exactly when every check passes. A failing check leaves
  the state as the source leaves it.

The modules follow the program's structure:

- `ExtReal` holds extended reals and `numpy.clip`.
- `Clipping` holds the clip on values, and the bounds of `fit`.
- `Batching` holds the batch size and `gen_batches`.
- `Layers` holds the hidden layer sizes, the network shape and the solver
  check.
- `Parameters` holds the parameters as values: the initial ones, one
  optimizer step, one batch, one epoch and a whole run.
- `LoopControl` holds the epoch bookkeeping and the loop, on values.
- `Estimator` holds the estimator class. Its array fields are updated in
  place, and its methods are proved against the value-level functions of
  the other modules.

Notes on the code as written:

- `_update_coef_using_constrain` names its parameter `coef_grads`, but the
  call at line 196 passes `params`, the list of weight arrays. The call
  comes after `update_params` at line 195. So what gets clipped are the
  freshly updated weights, not gradients, and the model clips the weights.
- Line 86 cannot be parsed as Python: the message string is never closed,
  and the call that follows is indented as if it were a block. The model
  reads the line as intended: the loop runs for "sgd" or "adam", and any
  other solver fails. For that reason the lbfgs test at
  `tests/test_clr_basic.py:90-112` does not exercise this loop.
- `numpy.clip` with a lower bound above the upper bound returns the upper
  bound. `ExtReal.Clip` and `Clipping.WithinBounds` keep this.

All paths in the table below are relative to the repository root.

## Model

| member | source | states |
|---|---|---|
| ExtReal.Clip | constrained_linear_regression/constrained_multi_layer_perceptron.py:257 | np.clip into [lo, hi]. With lo <= hi the result lies in [lo, hi], in-range values are kept, and values below or above move to lo or hi. With lo > hi the result is hi. |
| ExtReal.ClipFixedPoint | constrained_linear_regression/constrained_multi_layer_perceptron.py:257 | The clip returns x exactly when x is in [lo, hi], or x is hi when lo > hi. |
| ExtReal.ClipIdempotent | constrained_linear_regression/constrained_multi_layer_perceptron.py:257 | Clipping twice gives the same value as clipping once. |
| Clipping.RowsCovered | constrained_linear_regression/constrained_multi_layer_perceptron.py:255 | The number of pairs zip(min_coef_, max_coef_) yields: the length of the shorter bound vector. |
| Clipping.ClipRows | constrained_linear_regression/constrained_multi_layer_perceptron.py:254-257 | The first matrix after the clip. It has the same shape, rows zip does not reach are unchanged, every covered entry is within its row's bounds, and in-bound entries are kept. |
| Clipping.FixedPointIffWithinBounds | constrained_linear_regression/constrained_multi_layer_perceptron.py:254-257 | The clip leaves a matrix unchanged if and only if the matrix is already within its bounds. |
| Clipping.ClipRowsIdempotent | constrained_linear_regression/constrained_multi_layer_perceptron.py:254-257 | Clipping the first matrix a second time changes nothing. |
| Clipping.DefaultBoundsKeepWeights | constrained_linear_regression/constrained_multi_layer_perceptron.py:30-31 | With the default bounds (-inf, +inf) for every feature, the clip is the identity. |
| Clipping.VerifyCoef | constrained_linear_regression/constrained_multi_layer_perceptron.py:29-31 | One bound per feature. An absent bound gives n copies of the default. A given vector is kept when it has one entry per feature, and is an error otherwise. |
| Batching.BatchSize | constrained_linear_regression/constrained_multi_layer_perceptron.py:161-169 | "auto" gives min(200, n) with no warning. An integer is clipped into [1, n], and warns exactly when it lies outside that range. For n >= 1 the size is always in [1, n]. |
| Batching.BatchesFrom | constrained_linear_regression/constrained_multi_layer_perceptron.py:175 | Every batch from start on lies inside [start, n) and is non-empty. |
| Batching.GenBatches | constrained_linear_regression/constrained_multi_layer_perceptron.py:175 | gen_batches(n_samples, batch_size): the batches from sample 0 on. Its properties are stated by BatchesEnds, BatchesConsecutive, BatchesFull, BatchesPartition, GatherBatches and GenBatchesTotal. |
| Batching.BatchesEnds | constrained_linear_regression/constrained_multi_layer_perceptron.py:175 | There are no batches exactly when no samples remain. The first batch starts at start, the last stops at n, and the last holds between 1 and size samples. |
| Batching.BatchesConsecutive | constrained_linear_regression/constrained_multi_layer_perceptron.py:175-176 | The batches are inside [0, n) and each starts where the previous one stopped: no shuffling. |
| Batching.BatchesFull | constrained_linear_regression/constrained_multi_layer_perceptron.py:175 | Every batch except the last holds exactly batch_size samples. |
| Batching.BatchesPartition | constrained_linear_regression/constrained_multi_layer_perceptron.py:175-178 | The batches exactly tile [start, n) in order: all of the three properties above together. |
| Batching.GatherBatches | constrained_linear_regression/constrained_multi_layer_perceptron.py:175-178 | Concatenating X[batch_slice] over the batches of an epoch gives back the samples, each once, in their original order. |
| Batching.TotalLengthTelescopes | constrained_linear_regression/constrained_multi_layer_perceptron.py:189-191 | The summed lengths of the first k consecutive batches equal the last stop minus the first start. |
| Batching.GenBatchesTotal | constrained_linear_regression/constrained_multi_layer_perceptron.py:189-191 | The batch lengths the loss is weighted by sum to n_samples. |
| Layers.ValidateHiddenLayerSizes | constrained_linear_regression/constrained_multi_layer_perceptron.py:37-48 | A scalar is wrapped into a one-element list. The sizes are accepted if and only if every entry is > 0. An accepted list is returned unchanged, and a rejected one is reported in the error. |
| Layers.LayerUnits | constrained_linear_regression/constrained_multi_layer_perceptron.py:63 | layer_units has two more entries than the hidden list. |
| Layers.CoefShapes | constrained_linear_regression/constrained_multi_layer_perceptron.py:76-79 | There is one matrix shape per consecutive pair of layer_units. |
| Layers.InterceptSizes | constrained_linear_regression/constrained_multi_layer_perceptron.py:81-83 | There is one intercept length per layer after the input. |
| Layers.NetworkShape | constrained_linear_regression/constrained_multi_layer_perceptron.py:63-83 | The first matrix has n_features rows and the last has n_outputs columns. The matrices chain through the hidden sizes, and intercept l matches the columns of matrix l. |
| Layers.SupportedSolver | constrained_linear_regression/constrained_multi_layer_perceptron.py:86 | The solver check: true exactly for "sgd" and "adam". Fit's contract states what follows from it. |
| Parameters.InitialParams | constrained_linear_regression/constrained_multi_layer_perceptron.py:68-70 | The parameters _initialize produces: one matrix and one vector per layer after the input. |
| Parameters.InitialParamsAt | constrained_linear_regression/constrained_multi_layer_perceptron.py:68-70 | Layer l of the initial parameters is units[l] x units[l + 1], and its intercept vector has units[l + 1] entries. Every entry is the initializer's value for its position. |
| Parameters.OptimizerStep | constrained_linear_regression/constrained_multi_layer_perceptron.py:194-195 | update_params as a value: the layer counts are kept. |
| Parameters.OptimizerStepAt | constrained_linear_regression/constrained_multi_layer_perceptron.py:194-195 | Every matrix and every vector of the optimizer's result is that layer with each entry updated by the optimizer. |
| Parameters.BatchStep | constrained_linear_regression/constrained_multi_layer_perceptron.py:193-196 | One batch: the intercepts and every matrix after the first are the optimizer's values. The first matrix is ClipRows of the optimizer's value, so it lies within the bounds. |
| Parameters.EpochParams | constrained_linear_regression/constrained_multi_layer_perceptron.py:175-196 | The parameters after the first k batches of an epoch, one BatchStep per batch in order. The layer counts are kept, and after any batch the first matrix is within bounds. |
| Parameters.EpochParamsNext | constrained_linear_regression/constrained_multi_layer_perceptron.py:175-196 | One more batch of an epoch is one more BatchStep. |
| Parameters.TrainedParams | constrained_linear_regression/constrained_multi_layer_perceptron.py:172-196 | The parameters after e epochs, each over the same batches. The layer counts are kept, and after any epoch that has a batch the first matrix is within bounds. |
| Parameters.TrainedHistory | constrained_linear_regression/constrained_multi_layer_perceptron.py:172-196 | The parameters after 0, 1, ..., n epochs form a history in which each entry is one epoch run from the previous one. |
| Parameters.TrainedIsHistory | constrained_linear_regression/constrained_multi_layer_perceptron.py:172-196 | Any list whose entry e is the run over e epochs has that one-epoch step between consecutive entries. |
| Parameters.PlainEpochParams | constrained_linear_regression/constrained_multi_layer_perceptron.py:194-195 | The first k batches of an epoch with update_params alone and no clip. The layer counts are kept. |
| Parameters.PlainTrainedParams | constrained_linear_regression/constrained_multi_layer_perceptron.py:194-195 | e epochs with update_params alone and no clip. The layer counts are kept. |
| Parameters.DefaultBoundsStep | constrained_linear_regression/constrained_multi_layer_perceptron.py:193-196 | With bounds (-inf, +inf) for every feature, one batch step is exactly the optimizer's step. |
| Parameters.DefaultBoundsEpoch | constrained_linear_regression/constrained_multi_layer_perceptron.py:175-196 | With the default bounds, the first k batches of the constrained epoch give exactly the unconstrained parameters. |
| Parameters.DefaultBoundsTraining | constrained_linear_regression/constrained_multi_layer_perceptron.py:172-196 | With the default bounds, the constrained run over e epochs ends with exactly the parameters of the unconstrained run. tests/test_clr_basic.py:65-87 compares against the unconstrained MLP on this basis. |
| Parameters.DefaultBoundsNext | constrained_linear_regression/constrained_multi_layer_perceptron.py:172-196 | With the default bounds, if the two runs agree after e epochs, they agree after e + 1. |
| LoopControl.BatchLoss | constrained_linear_regression/constrained_multi_layer_perceptron.py:177-188 | The loss _backprop reports for X[batch_slice] and y[batch_slice]. Its weighted sum is bounded by AccumulatedLossBounds. |
| LoopControl.TimesIsProduct | constrained_linear_regression/constrained_multi_layer_perceptron.py:189-191 | The weighting of a batch loss by repeated addition equals batch_loss * (stop - start). |
| LoopControl.AccumulatedLoss | constrained_linear_regression/constrained_multi_layer_perceptron.py:174-191 | accumulated_loss after the first k batches: it starts at 0.0 and adds each batch loss times its length, in order. Bounded by AccumulatedLossBounds. |
| LoopControl.AccumulatedLossBounds | constrained_linear_regression/constrained_multi_layer_perceptron.py:174-191 | When every batch loss lies in [lo, hi], accumulated_loss lies between lo and hi times the number of samples the batches hold. |
| LoopControl.EpochLoss | constrained_linear_regression/constrained_multi_layer_perceptron.py:199 | loss_ = accumulated_loss / n_samples over all batches of the epoch. Its bounds are stated by EpochLossIsWeightedMean. |
| LoopControl.EpochLossIsWeightedMean | constrained_linear_regression/constrained_multi_layer_perceptron.py:189-199 | loss_ is a length-weighted mean of the batch losses: when every batch loss lies in [lo, hi], so does loss_. |
| LoopControl.EndEpoch | constrained_linear_regression/constrained_multi_layer_perceptron.py:198-233 | One epoch adds 1 to n_iter_ and n_samples to t_, and appends the new loss_ once to loss_curve_. The loop stops if and only if the count exceeds n_iter_no_change and trigger_stopping says so. If the optimizer goes on, the count is reset to 0. A run that goes on leaves the count <= n_iter_no_change. |
| LoopControl.EpochLosses | constrained_linear_regression/constrained_multi_layer_perceptron.py:199 | The losses of e consecutive epochs, one per epoch. |
| LoopControl.Train | constrained_linear_regression/constrained_multi_layer_perceptron.py:172-236 | The epoch loop on values: EndEpoch after each epoch, leaving after the epoch the optimizer stopped, after one epoch when incremental, or after max_iter epochs. Its properties are stated by the five Train lemmas below. |
| LoopControl.TrainEpochs | constrained_linear_regression/constrained_multi_layer_perceptron.py:172 | The loop runs at most max_iter epochs, and at least one when max_iter allows any. When it runs none, nothing changes. |
| LoopControl.TrainCounters | constrained_linear_regression/constrained_multi_layer_perceptron.py:198-201 | t_ grows by exactly n_samples for each epoch run. |
| LoopControl.TrainLossCurve | constrained_linear_regression/constrained_multi_layer_perceptron.py:198-202 | loss_curve_ is extended by exactly the losses of the epochs run, in order. |
| LoopControl.LossCurveStep | constrained_linear_regression/constrained_multi_layer_perceptron.py:199-202 | One epoch's loss appended, then the next epochs' losses, is the losses of all those epochs appended. |
| LoopControl.TrainLastLoss | constrained_linear_regression/constrained_multi_layer_perceptron.py:199-202 | Once an epoch has run, loss_ is the last entry of loss_curve_. |
| LoopControl.TrainTermination | constrained_linear_regression/constrained_multi_layer_perceptron.py:172-236 | Incremental mode runs exactly one epoch. The loop ends before max_iter only in incremental mode or when the optimizer stopped it. It stops only in an epoch whose count exceeded n_iter_no_change and whose trigger_stopping was true. |
| Estimator.AsMatrix | constrained_linear_regression/constrained_multi_layer_perceptron.py:57-61 | A 1-D y becomes a single column with the same values. A 2-D y is kept. |
| Estimator.ConstrainedMultilayerPerceptron.constructor | constrained_linear_regression/constrained_multi_layer_perceptron.py:11 | An unfitted estimator: the hyperparameters as given, no arrays, no bounds, counters at zero. |
| Estimator.ConstrainedMultilayerPerceptron.UpdateCoefUsingConstrain | constrained_linear_regression/constrained_multi_layer_perceptron.py:254-257 | After the call, the first matrix equals ClipRows of its old value and is within bounds. Every other matrix and every intercept vector is unchanged. ok is false exactly when zip reaches past the last row (numpy's IndexError). |
| Estimator.ConstrainedMultilayerPerceptron.ApplyOptimizerUpdate | constrained_linear_regression/constrained_multi_layer_perceptron.py:194-195 | update_params in place: the parameter values become OptimizerStep of the old values. |
| Estimator.ConstrainedMultilayerPerceptron.UpdateCoefs | constrained_linear_regression/constrained_multi_layer_perceptron.py:195 | The weight matrices become UpdatedLayers of their old values, layer by layer, and the intercepts do not change. |
| Estimator.ConstrainedMultilayerPerceptron.UpdateMatrix | constrained_linear_regression/constrained_multi_layer_perceptron.py:195 | One weight matrix in place: every entry takes the optimizer's value from its old one. |
| Estimator.ConstrainedMultilayerPerceptron.UpdateIntercepts | constrained_linear_regression/constrained_multi_layer_perceptron.py:195 | The intercept vectors become UpdatedIntercepts of their old values, layer by layer, and the matrices do not change. |
| Estimator.ConstrainedMultilayerPerceptron.UpdateVector | constrained_linear_regression/constrained_multi_layer_perceptron.py:195 | One intercept vector in place: every entry takes the optimizer's value from its old one. |
| Estimator.ConstrainedMultilayerPerceptron.UpdateAndConstrain | constrained_linear_regression/constrained_multi_layer_perceptron.py:193-196 | After the optimizer's update and the clip, the parameters equal BatchStep of the old ones. So the first layer is within its bounds and everything else holds the optimizer's values. |
| Estimator.ConstrainedMultilayerPerceptron.FirstLayerReplaced | constrained_linear_regression/constrained_multi_layer_perceptron.py:196 | When only the first matrix changed, into the clip of its old value, the parameters are the old ones with that one matrix clipped. |
| Estimator.ConstrainedMultilayerPerceptron.RunBatch | constrained_linear_regression/constrained_multi_layer_perceptron.py:177-196 | Batch k: accumulated_loss gains this batch's weighted loss, and the parameters take one more BatchStep. |
| Estimator.ConstrainedMultilayerPerceptron.RunBatches | constrained_linear_regression/constrained_multi_layer_perceptron.py:174-196 | accumulated_loss is AccumulatedLoss over the batches, in order. The parameters end as EpochParams over all the batches, and the first layer is within bounds. |
| Estimator.ConstrainedMultilayerPerceptron.RunEpoch | constrained_linear_regression/constrained_multi_layer_perceptron.py:174-196 | The same for the batches of gen_batches(n_samples, batch_size). |
| Estimator.ConstrainedMultilayerPerceptron.CountEpoch | constrained_linear_regression/constrained_multi_layer_perceptron.py:198-233 | The counters and the stop flag after an epoch are the ones EndEpoch gives for loss_ = accumulated_loss / n_samples. |
| Estimator.ConstrainedMultilayerPerceptron.ParametersUnchanged | constrained_linear_regression/constrained_multi_layer_perceptron.py:198-233 | When no parameter array changed, neither did the parameter values or the clipped state of the first layer. |
| Estimator.ConstrainedMultilayerPerceptron.EndOfEpoch | constrained_linear_regression/constrained_multi_layer_perceptron.py:198-233 | As CountEpoch, and the parameters are unchanged. |
| Estimator.ConstrainedMultilayerPerceptron.TrainingEpoch | constrained_linear_regression/constrained_multi_layer_perceptron.py:172-236 | One epoch: n_iter_ grows by one and the parameters move one entry along the epoch history. The rest of the run is either this epoch's result (stop or incremental) or the run from the next epoch. |
| Estimator.ConstrainedMultilayerPerceptron.EpochLoop | constrained_linear_regression/constrained_multi_layer_perceptron.py:172-236 | The counters and the stop flag end as Train says. The parameters are those after the number of epochs run, and after any epoch the first layer is within bounds. |
| Estimator.ConstrainedMultilayerPerceptron.FitConstrainedStochastic | constrained_linear_regression/constrained_multi_layer_perceptron.py:158-236 | The counters and the stop flag end as Train says for the batch size BatchSize chooses. The parameters end as TrainedParams over the epochs run. Once an epoch has run, the first layer is within bounds. |
| Estimator.ConstrainedMultilayerPerceptron.Initialize | constrained_linear_regression/constrained_multi_layer_perceptron.py:68-70 | The arrays are fresh, have the shapes CoefShapes and InterceptSizes give for layer_units, and hold InitialParams. The counters restart from zero with an empty loss curve. |
| Estimator.ConstrainedMultilayerPerceptron.Install | constrained_linear_regression/constrained_multi_layer_perceptron.py:68-70 | The fields take the given initial arrays, which makes a valid network of layer_units holding InitialParams. |
| Estimator.ConstrainedMultilayerPerceptron.ResetCounters | constrained_linear_regression/constrained_multi_layer_perceptron.py:68-70 | n_iter_, t_ and the no-improvement count are 0, and loss_curve_ is empty. |
| Estimator.ConstrainedMultilayerPerceptron.AllocateLayout | constrained_linear_regression/constrained_multi_layer_perceptron.py:68-70 | Fresh matrices and vectors, one per layer, shaped as layer_units requires and holding the initial parameters. |
| Estimator.ConstrainedMultilayerPerceptron.AllocateMatrices | constrained_linear_regression/constrained_multi_layer_perceptron.py:76-79 | One fresh matrix per layer, with shape CoefShapes(layer_units)[l] and the initial weights of layer l. |
| Estimator.ConstrainedMultilayerPerceptron.AllocateVectors | constrained_linear_regression/constrained_multi_layer_perceptron.py:81-83 | One fresh vector per layer, with length InterceptSizes(layer_units)[l] and the initial intercepts of layer l. |
| Estimator.ConstrainedMultilayerPerceptron.HoldInitialLayout | constrained_linear_regression/constrained_multi_layer_perceptron.py:68-70 | Fields naming the initial arrays make a valid network of layer_units whose values are InitialParams. |
| Estimator.ConstrainedMultilayerPerceptron.HoldInitialMatrices | constrained_linear_regression/constrained_multi_layer_perceptron.py:68-70 | Matrices filled with the initializer's values, layer by layer, hold the initial weights. |
| Estimator.ConstrainedMultilayerPerceptron.HoldInitialVectors | constrained_linear_regression/constrained_multi_layer_perceptron.py:68-70 | Vectors filled with the initializer's values, layer by layer, hold the initial intercepts. |
| Estimator.ConstrainedMultilayerPerceptron.InitialMatrixLayer | constrained_linear_regression/constrained_multi_layer_perceptron.py:68-70 | One matrix filled with layer l's initial values holds layer l of the initial weights. |
| Estimator.ConstrainedMultilayerPerceptron.AllFinite | constrained_linear_regression/constrained_multi_layer_perceptron.py:98-100 | The result is true exactly when every weight and every intercept is finite. |
| Estimator.ConstrainedMultilayerPerceptron.MatrixFinite | constrained_linear_regression/constrained_multi_layer_perceptron.py:100 | np.isfinite(w).all() for one matrix: true exactly when every entry is finite. |
| Estimator.ConstrainedMultilayerPerceptron.VectorFinite | constrained_linear_regression/constrained_multi_layer_perceptron.py:100 | np.isfinite(w).all() for one vector: true exactly when every entry is finite. |
| Estimator.ConstrainedMultilayerPerceptron.FiniteArrays | constrained_linear_regression/constrained_multi_layer_perceptron.py:99-100 | The parameter values are finite exactly when every entry of every array is finite. |
| Estimator.ConstrainedMultilayerPerceptron.SolveAndCheck | constrained_linear_regression/constrained_multi_layer_perceptron.py:87-100 | From the initial parameters, the run is Trained. The result says whether every parameter came out finite. |
| Estimator.ConstrainedMultilayerPerceptron.BuildAndSolve | constrained_linear_regression/constrained_multi_layer_perceptron.py:68-104 | An unsupported solver fails with the network initialised and no epoch run. Otherwise the run is Trained, and it passes exactly when every parameter is finite; else it fails with NonFiniteWeights. The bounds do not change. |
| Estimator.ConstrainedMultilayerPerceptron.ConstrainedFit | constrained_linear_regression/constrained_multi_layer_perceptron.py:36-104 | A non-positive hidden size fails before any array or counter changes. Otherwise the outcome is as BuildAndSolve says, for layer_units built from the data. |
| Estimator.ConstrainedMultilayerPerceptron.Fit | constrained_linear_regression/constrained_multi_layer_perceptron.py:12-106 | A bound of the wrong length fails, with min_coef_ set first if it was valid, and no array or counter changes. Then the results are as ConstrainedFit says. fit succeeds exactly when both bounds and the hidden sizes are valid, the solver is sgd or adam, and every trained parameter is finite. |
| Estimator.ConstrainedMultilayerPerceptron.FirstLayerWithinBounds | constrained_linear_regression/constrained_multi_layer_perceptron.py:254-257 | A clipped first layer has every covered entry in [min_coef_[i], max_coef_[i]] when min_coef_[i] <= max_coef_[i]. tests/test_clr_basic.py:52-62 asserts this for bound 0. |

## Left out

- Collaborators: scikit-learn's `_backprop`, the loss functions, the
  `SGDOptimizer` and `AdamOptimizer` update rules, `_initialize`,
  `_update_no_improvement_count`, `iteration_ends` and learning-rate
  schedules are not modelled. They are foreign floating-point code and enter
  only as the collaborator functions named above. The batch loss and the
  updates are keyed by epoch and batch rather than computed from the
  weights, so the model does not say how they depend on the parameters.
- Optimizer construction (lines 120-138) is not modelled. It builds
  scikit-learn objects, and its effect is folded into the collaborators.
- `_validate_input` and `_validate_hyperparameters` (lines 44, 53) are not
  modelled; they are scikit-learn checks. The model instead requires a
  non-empty rectangular X and a y with one row per sample.
- The `warm_start` and `first_pass` re-use of fitted arrays (lines 49-51,
  68) is not modelled, which is why `Fit` always initialises.
  `FitConstrainedStochastic` takes the incremental flag, but the
  `partial_fit` entry point belongs to the base class.
- Early stopping, the `train_test_split` validation split and the restore
  of the best weights (lines 141-156, 247-250) are not modelled. They
  depend on random state and on the base class. The model is the
  `early_stopping = False` path.
- NaN is not represented, so the finite check at line 100 only meets
  infinite values in the model.
- Printing, warnings and `KeyboardInterrupt` (lines 203-204, 238-245) are
  I/O and interruption handling. The batch-size warning is returned only as
  the flag `BatchChoice.warn`.
- `_after_training` (line 252) is left out because it does nothing.
- `BaseConstrainedMultilayerPerceptron` (`base.py`, with `_verify_coef` and
  the constructor) is not part of this model. `Clipping.VerifyCoef` assumes
  only one bound per feature with the defaults -inf and +inf, and treats a
  vector of the wrong length as an error.
- `Estimator.ConstrainedMultilayerPerceptron.RunEpoch` requires the bounds
  to cover no more rows than the first matrix has. Otherwise numpy would
  raise IndexError mid-epoch; `UpdateCoefUsingConstrain` reports that case
  through `ok`. `Fit` always establishes the requirement.
- `Estimator.ConstrainedMultilayerPerceptron.Fit` starts `loss_` from
  whatever value it had before the first epoch, because scikit-learn's
  `_initialize` leaves it unset. `n_iter_no_change` is a natural number,
  because scikit-learn validates it as >= 1.
- Integer widths: sample counts and counters are unbounded naturals, since
  Python integers do not wrap.
