# A verified model of the single-example CNN trainer in `cnn.c`

`cnn.c` trains a fixed-shape convolutional network on one example. The network is a
5×5 input, a 3×3 filter and a 3×3 activated feature map, followed by a 9-weight
fully connected layer that reduces the feature map to one logit. Every epoch runs the
convolution and the dense layer forward and computes the output error from a two-way
softmax. The backward pass then builds a per-cell gradient of the feature map and updates
the dense weights and the filter in place by gradient descent (learning rate 0.01).

This project models that core in Dafny. The C values of type `double` become `real`, which is exact.

- `tensor.dfy` (`Tensor`): the constants `InputSize`, `FilterSize`, `OutputSize`,
  `FcNodes` and `LearningRate` (`INPUT_SIZE`, `FILTER_SIZE`, `OUTPUT_SIZE`, `FC_NODES` and
  `LEARNING_RATE` in `cnn.c`). It also has `Grid`, the value view of a 2-D array,
  and `GridOf`, which reads an `array2<real>` as a grid.
- `activation.dfy` (`Activation`): `relu` and `relu_derivative`.
- `convolution.dfy` (`ConvLayer`): the window sum `Correlate`, which both the forward pass
  and the filter gradient use. It also has the spec functions `Convolve`, `FilterGradient`,
  `DescentStep` and `FilterUpdate`, linearity lemmas, and the array methods `Convolve2D`
  (`convolution`) and `UpdateFilter` (`update_filter`). Both methods share `WindowSum`,
  which models their two inner loops and calls `AccumulateRow` for the innermost one.
- `dense.dfy` (`FcLayer`): `Dense`, the row-major sum of the nested loop, and
  `FcUpdate`, the weight update. The lemmas show that the nested loop equals the flat dot
  product with the flattened feature map, and that an update moves the layer output
  against the error. The array methods are `FullyConnected` (`fully_connected`) and
  `UpdateFcWeights` (`update_fc_weights`).
- `train.dfy` (`Train`): the backward section of `train` (`FillConvGradient`,
  `BackwardStep`), one epoch (`Epoch`), the epoch loop (`RunEpochs`) and the whole run
  (`Train`, with the literal starting filter and weights). `FillConvGradient` is proved
  against the pure `ConvGradient`, and `BackwardStep` against `ConvGradient`, `FcUpdate`
  and `FilterUpdate`. `Epoch` is proved against `EpochStep`, and `RunEpochs` and `Train`
  against `TrainFrom`.

The sums are defined by recursion that visits the terms in the order the C loops do: left
to right within a row, then row by row. Only the order of the terms matches the source,
not the grouping of the additions. `RowProducts` and `DenseRow` sum each row from 0, and
`WindowPrefix` and `DensePrefix` add those row sums. The C code keeps one running sum
across all rows. The two groupings are equal over `real`. The array methods keep the C
code's single running sum: `AccumulateRow` adds a row's products to the sum it is given.

The softmax needs `exp`, so the model leaves it out. Its class-0 probability for a layer
output is a parameter `classZeroProbability: real -> real`. The output error
`d_fc_output = softmax_out[0] - (expected == 0 ? 1 : 0)` is modelled exactly as
`OutputError`.

About the label asymmetry in that expression: with logits `{z, -z}`, the class-0
probability is `p0 = σ(2z)`. The derivative of the cross-entropy with respect to `z` is
`2(p0 - 1)` for label 0 and `2·p0` for label 1. The code's error is therefore half the
true derivative for both labels, and the factor of 2 only scales the step. The model
keeps the expression exactly as written. `EpochMovesOutputTowardLabel` proves that, while
0 < p0 < 1, the weight update never moves the layer output away from the expected class
on that epoch's feature map. The move is not always strict: an all-zero feature map leaves
the output where it is. `FcUpdateStrictlyAgainstError` gives the strict move whenever the
feature map's squared norm is positive.

`update_filter` writes each filter cell as soon as that cell's gradient is summed
(cnn.c:59). The order does not matter because no gradient reads the filter.
`UpdateFilter`'s postcondition gives every new cell in terms of the old filter, `input`
and `d_conv`.

## Model

| member | source | states |
|---|---|---|
| `Activation.Relu` | cnn.c:13-15 | The result is ≥ 0 and ≥ x. It equals x when x > 0 and 0 otherwise. It equals `ReluDerivative(x) * x`. The derivative read off the activated value equals the derivative at x, which is what lets the backward pass use only the activated feature map. |
| `Activation.ReluDerivative` | cnn.c:18-20 | The result is 0 or 1, and it is 1 exactly when x > 0, so it is 0 at x == 0. |
| `Tensor.ShapesAgree` | cnn.c:6-9 | A filter-sized window anchored at any feature-map cell, and a feature-map-sized window anchored at any filter cell, both stay inside the input. FC_NODES == OUTPUT_SIZE², one weight per feature-map cell. |
| `ConvLayer.Convolve` | cnn.c:35-47 | The activated feature map is 3×3 and every cell is non-negative. |
| `ConvLayer.WindowSum` | cnn.c:38-43 | The two inner loops leave `sum` equal to Σ_{a,b<k} input[i+a][j+b]·kernel[a][b]. The index bound `i + k ≤ INPUT_SIZE` keeps every read in bounds. The loop bodies at cnn.c:54-57 compute the same sum with `d_conv`. |
| `ConvLayer.AccumulateRow` | cnn.c:40-42 | The innermost loop adds Σ_{b<k} input[i+a][j+b]·kernel[a][b] to the running sum, one column after the other. |
| `ConvLayer.Convolve2D` | cnn.c:35-47 | For every i, j < 3, `output[i][j]` is ReLU of the window sum of the input with the filter at (i, j). The whole output equals `Convolve`. Only `output` is written. |
| `ConvLayer.UpdateFilterRow` | cnn.c:52-61 | One pass of the inner loop subtracts 0.01 times the window sum of the input with `d_conv` from each cell of filter row p. Every other row keeps its values. |
| `ConvLayer.UpdateFilter` | cnn.c:50-62 | Each `filter[p][q]` becomes its old value minus 0.01·Σ_{x,y<3} input[x+p][y+q]·d_conv[x][y]. Every new cell is expressed in the old filter, so the write order does not matter. `input` and `d_conv` are not modified. |
| `ConvLayer.CorrelateCombine` | cnn.c:39-43 | The window sum is linear in the kernel: for h = f - s·g it gives Correlate(h) = Correlate(f) - s·Correlate(g). |
| `ConvLayer.CorrelateZeroKernel` | cnn.c:54-58 | A gradient of zeros gives a zero window sum. |
| `ConvLayer.PreActivationAfterStep` | cnn.c:59 | After a filter step, the pre-activation sum at each feature-map cell has moved by -0.01 times the window sum of the gradient. |
| `ConvLayer.ZeroUpstreamKeepsFilter` | cnn.c:50-62 | A zero `d_conv` leaves the filter unchanged. |
| `FcLayer.FullyConnected` | cnn.c:65-72 | The output is Σ_{i,j<3} conv_out[i][j]·weights[i·3+j], accumulated in loop order. No input is modified. |
| `FcLayer.DenseIsFlatDot` | cnn.c:67-71 | The nested row-major loop equals the dot product of the row-by-row flattening of the feature map with the weight vector. |
| `FcLayer.FlattenAt` | cnn.c:69 | Cell (i, j) of the feature map is entry i·3+j of its flattening. |
| `FcLayer.RowMajorIndexBijective` | cnn.c:69 | i·3+j maps the 3×3 cells one to one onto 0..8, with inverse k ↦ (k/3, k%3), so each weight index is written exactly once. |
| `FcLayer.FcUpdateAt` | cnn.c:75-81 | After the update, the weight at i·3+j equals its old value minus 0.01·error·conv_out[i][j]. |
| `FcLayer.FcUpdateIsFlatStep` | cnn.c:75-81 | The new weight vector equals the old one minus 0.01·error times the flattened feature map. |
| `FcLayer.FcUpdateZeroError` | cnn.c:78 | With error 0 the weights are unchanged. |
| `FcLayer.UpdateFcWeights` | cnn.c:75-81 | Entries 0..8 of `fc_weights` become `FcUpdate` of their old values. Entries past index 8 are untouched. `conv_out` is not modified. |
| `FcLayer.SquaredNormNonNegative` | cnn.c:65-72 | The layer output with the feature map's own flattening as weights (its squared norm) is ≥ 0. |
| `FcLayer.FcUpdateFlatDot` | cnn.c:75-81 | Against the flattened feature map, the dot product with the updated weights equals the old dot product minus 0.01·error·‖conv_out‖². |
| `FcLayer.FcUpdateMovesOutput` | cnn.c:75-81 | On the same feature map, the updated weights give an output equal to the old output minus 0.01·error·‖conv_out‖². |
| `FcLayer.FcUpdateAgainstError` | cnn.c:75-81 | A positive error never raises the layer output, and a negative error never lowers it. |
| `FcLayer.FcUpdateStrictlyAgainstError` | cnn.c:75-81 | When the feature map's squared norm is positive, a positive error strictly lowers the layer output and a negative error strictly raises it. |
| `Train.OutputError` | cnn.c:103 | While 0 < p0 < 1, the error is non-zero and negative exactly when the expected label is 0. The error is zero exactly when p0 equals the indicator of label 0. |
| `Train.ConvGradient` | cnn.c:106-111 | d_conv[i][j] is d_fc_output·fc_weights[i·3+j] where conv_out[i][j] > 0, and 0 everywhere else. |
| `Train.FillConvGradientRow` | cnn.c:108-110 | One pass of the inner loop sets each cell of row i of `d_conv` to d_fc_output·fc_weights[i·3+j]·relu_derivative(conv_out[i][j]). Every other row keeps its values. |
| `Train.FillConvGradient` | cnn.c:106-111 | The loop fills a 3×3 `d_conv` equal to `ConvGradient` of the current weights and feature map. |
| `Train.BackwardStep` | cnn.c:105-115 | `d_conv` is built from the weights before `update_fc_weights` runs. The weights become `FcUpdate` of their old values. The filter becomes `FilterUpdate` with that `d_conv`. |
| `Train.Epoch` | cnn.c:90-115 | One iteration of the loop body maps the old filter and weights to `EpochStep` of them: the convolution, the dense layer, the output error, then the backward step. |
| `Train.InitParameters` | cnn.c:86-87 | Allocates the filter and weights holding the literal starting values. |
| `Train.RunEpochs` | cnn.c:89-121 | After n epochs, the filter and weights equal `TrainFrom` of their starting values, each epoch acting on the previous epoch's result. |
| `Train.Train` | cnn.c:84-122 | A run from the literal starting parameters ends with `TrainFrom(input, …, InitialParameters(), 1000)`. |
| `Train.EpochFixedPoint` | cnn.c:103-115 | When the output error is zero, an epoch changes neither the filter nor the weights. |
| `Train.TrainStaysAtFixedPoint` | cnn.c:89-121 | Parameters that one epoch leaves unchanged stay unchanged for any number of epochs. |
| `Train.EpochMovesOutputTowardLabel` | cnn.c:103-114 | While 0 < p0 < 1, the weight update raises (or keeps) the output on that epoch's feature map for label 0, and lowers (or keeps) it for any other label. |

## Left out

- `softmax` (cnn.c:23-32) and the cross-entropy loss `-log(softmax_out[(int)expected])` (cnn.c:97-100) need `exp` and `log`, which have no model over `real`. The class-0 probability is a parameter function instead, and the loss value is not modelled.
- The `printf` every 100 epochs (cnn.c:118-120) is I/O and has no effect on the computation. `main`'s literal input and label (cnn.c:124-138) are fixed data. `Train` takes them as arguments.
- `train` returns `void` and discards its final parameters. `Train` returns them so that its postcondition can state them.
- IEEE-754 rounding, overflow, and non-finite values (for example a softmax probability that underflows to 0) are not modelled. All arithmetic is exact.
- Convergence is not modelled: the loss decreasing over the 1000 epochs depends on floating-point transcendental numerics.
- Aliasing: `Convolve2D`, `UpdateFilter` and `BackwardStep` require the array they write to be distinct from the arrays they only read. The C functions never receive aliased arrays from `train`.
- `FcLayer.UpdateFcWeights`: its postcondition states the new weights as `FcUpdate` of the old prefix, and the per-index formula is stated on `FcUpdate` by `FcLayer.FcUpdateAt`, not in the method's own postcondition.
- src/depth_estimate.cpp is not part of this model. It is camera, model-loading and display code around an external inference library.
