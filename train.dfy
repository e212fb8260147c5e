/**
 * The training loop: every epoch runs the convolution and the fully
 * connected layer forward, turns the class-0 probability into the output
 * error, builds the per-cell gradient of the feature map from the weights
 * as they were before the update, then updates the weights and the filter.
 */
module Train {
  import opened Tensor
  import opened Activation
  import opened ConvLayer
  import opened FcLayer

  /** The number of epochs of one training run. */
  const Epochs: nat := 1000

  /** The state a training run carries from one epoch to the next. */
  datatype Parameters = Parameters(filter: Grid, fcWeights: seq<real>)

  predicate WellShaped(p: Parameters) {
    IsGrid(p.filter, FilterSize) && |p.fcWeights| == FcNodes
  }

  /** The fixed starting filter and weights. */
  function InitialParameters(): (p: Parameters)
    ensures WellShaped(p)
  {
    Parameters([[0.1, -0.2, 0.3], [-0.4, 0.5, -0.6], [0.7, -0.8, 0.9]],
               [0.1, -0.1, 0.2, -0.2, 0.3, -0.3, 0.4, -0.4, 0.5])
  }

  /**
   * The output error: the class-0 probability minus 1 when the expected
   * label is 0, and the class-0 probability itself for any other label.
   * While the probability lies strictly between 0 and 1, the error is
   * negative exactly for label 0 and never zero.
   */
  function OutputError(classZeroProbability: real, expected: real): (e: real)
    ensures 0.0 < classZeroProbability < 1.0 ==> e != 0.0 && (e < 0.0 <==> expected == 0.0)
    ensures e == 0.0 <==> classZeroProbability == (if expected == 0.0 then 1.0 else 0.0)
  {
    classZeroProbability - (if expected == 0.0 then 1.0 else 0.0)
  }

  /**
   * The upstream gradient of the feature map: the output error times the
   * weight of the cell, through the ReLU derivative read off the activated
   * cell. It vanishes on every cell the activation switched off.
   */
  function ConvGradient(dFcOutput: real, fcWeights: seq<real>, convOut: Grid): (d: Grid)
    requires IsGrid(convOut, OutputSize) && |fcWeights| == FcNodes
    ensures IsGrid(d, OutputSize)
    ensures forall i, j | 0 <= i < OutputSize && 0 <= j < OutputSize ::
      d[i][j] == if convOut[i][j] > 0.0 then dFcOutput * fcWeights[i * OutputSize + j] else 0.0
  {
    seq(OutputSize, i requires 0 <= i < OutputSize =>
      seq(OutputSize, j requires 0 <= j < OutputSize =>
        dFcOutput * fcWeights[i * OutputSize + j] * ReluDerivative(convOut[i][j])))
  }

  /**
   * One epoch on parameters p. The class-0 probability that the softmax
   * assigns to a layer output is the parameter classZeroProbability.
   */
  function EpochStep(input: Grid, expected: real, classZeroProbability: real -> real, p: Parameters): (q: Parameters)
    requires IsGrid(input, InputSize) && WellShaped(p)
    ensures WellShaped(q)
  {
    var convOut := Convolve(input, p.filter);
    var dFcOutput := OutputError(classZeroProbability(Dense(convOut, p.fcWeights)), expected);
    var dConv := ConvGradient(dFcOutput, p.fcWeights, convOut);
    Parameters(FilterUpdate(input, dConv, p.filter), FcUpdate(convOut, p.fcWeights, dFcOutput))
  }

  /** The parameters after n epochs from p: one epoch, then n - 1 more from its result. */
  function TrainFrom(input: Grid, expected: real, classZeroProbability: real -> real, p: Parameters, n: nat): (q: Parameters)
    requires IsGrid(input, InputSize) && WellShaped(p)
    ensures WellShaped(q)
    decreases n
  {
    if n == 0 then p
    else TrainFrom(input, expected, classZeroProbability, EpochStep(input, expected, classZeroProbability, p), n - 1)
  }

  // ---------------------------------------------------------------------
  // Properties of an epoch

  /** When the output error is zero, an epoch changes neither the filter nor the weights. */
  lemma EpochFixedPoint(input: Grid, expected: real, classZeroProbability: real -> real, p: Parameters)
    requires IsGrid(input, InputSize) && WellShaped(p)
    requires OutputError(classZeroProbability(Dense(Convolve(input, p.filter), p.fcWeights)), expected) == 0.0
    ensures EpochStep(input, expected, classZeroProbability, p) == p
  {
    var convOut := Convolve(input, p.filter);
    var dConv := ConvGradient(0.0, p.fcWeights, convOut);
    ZeroUpstreamKeepsFilter(input, dConv, p.filter);
    FcUpdateZeroError(convOut, p.fcWeights);
  }

  /** Parameters an epoch leaves alone stay the same for any number of epochs. */
  lemma {:induction false} TrainStaysAtFixedPoint(input: Grid, expected: real, classZeroProbability: real -> real,
                                                   p: Parameters, n: nat)
    requires IsGrid(input, InputSize) && WellShaped(p)
    requires EpochStep(input, expected, classZeroProbability, p) == p
    ensures TrainFrom(input, expected, classZeroProbability, p, n) == p
  {
    if n > 0 {
      TrainStaysAtFixedPoint(input, expected, classZeroProbability, p, n - 1);
    }
  }

  /**
   * While the class-0 probability lies strictly between 0 and 1, the weight
   * update of an epoch moves the layer output, on that epoch's feature map,
   * towards the expected class: up (towards class 0) for label 0, down for
   * any other label.
   */
  lemma EpochMovesOutputTowardLabel(input: Grid, expected: real, classZeroProbability: real -> real, p: Parameters)
    requires IsGrid(input, InputSize) && WellShaped(p)
    requires 0.0 < classZeroProbability(Dense(Convolve(input, p.filter), p.fcWeights)) < 1.0
    ensures expected == 0.0 ==>
      Dense(Convolve(input, p.filter), EpochStep(input, expected, classZeroProbability, p).fcWeights)
        >= Dense(Convolve(input, p.filter), p.fcWeights)
    ensures expected != 0.0 ==>
      Dense(Convolve(input, p.filter), EpochStep(input, expected, classZeroProbability, p).fcWeights)
        <= Dense(Convolve(input, p.filter), p.fcWeights)
  {
    var convOut := Convolve(input, p.filter);
    var dFcOutput := OutputError(classZeroProbability(Dense(convOut, p.fcWeights)), expected);
    FcUpdateAgainstError(convOut, p.fcWeights, dFcOutput);
  }

  // ---------------------------------------------------------------------
  // The operations on arrays

  /**
   * One pass of the inner loop that builds dConv: every cell of row i is the
   * output error times the weight of the cell times the ReLU derivative of
   * the activated cell; the other rows are not touched.
   */
  method FillConvGradientRow(convOut: array2<real>, fcWeights: array<real>, dFcOutput: real, dConv: array2<real>, i: nat)
    requires convOut.Length0 == OutputSize && convOut.Length1 == OutputSize
    requires dConv.Length0 == OutputSize && dConv.Length1 == OutputSize
    requires fcWeights.Length == FcNodes && i < OutputSize && dConv != convOut
    modifies dConv
    ensures forall s | 0 <= s < OutputSize ::
      dConv[i, s] == dFcOutput * fcWeights[i * OutputSize + s] * ReluDerivative(convOut[i, s])
    ensures forall r, s | 0 <= r < OutputSize && r != i && 0 <= s < OutputSize :: dConv[r, s] == old(dConv[r, s])
  {
    var j := 0;
    while j < OutputSize
      invariant 0 <= j <= OutputSize
      invariant forall s | 0 <= s < j :: dConv[i, s] == dFcOutput * fcWeights[i * OutputSize + s] * ReluDerivative(convOut[i, s])
      invariant forall r, s | 0 <= r < OutputSize && r != i && 0 <= s < OutputSize :: dConv[r, s] == old(dConv[r, s])
    {
      dConv[i, j] := dFcOutput * fcWeights[i * OutputSize + j] * ReluDerivative(convOut[i, j]);
      j := j + 1;
    }
  }

  /**
   * The first half of the backward step: a fresh dConv whose cells are the
   * output error times the weight of the cell times the ReLU derivative of
   * the activated cell.
   */
  method FillConvGradient(convOut: array2<real>, fcWeights: array<real>, dFcOutput: real) returns (dConv: array2<real>)
    requires convOut.Length0 == OutputSize && convOut.Length1 == OutputSize
    requires fcWeights.Length == FcNodes
    ensures fresh(dConv) && dConv.Length0 == OutputSize && dConv.Length1 == OutputSize
    ensures GridOf(dConv) == ConvGradient(dFcOutput, fcWeights[..], GridOf(convOut))
  {
    ghost var c, w := GridOf(convOut), fcWeights[..];
    dConv := new real[OutputSize, OutputSize];
    var i := 0;
    while i < OutputSize
      invariant 0 <= i <= OutputSize
      invariant forall r, s | 0 <= r < i && 0 <= s < OutputSize ::
        dConv[r, s] == dFcOutput * w[r * OutputSize + s] * ReluDerivative(c[r][s])
    {
      FillConvGradientRow(convOut, fcWeights, dFcOutput, dConv, i);
      i := i + 1;
    }
    GridOfCells(dConv, ConvGradient(dFcOutput, w, c));
  }

  /**
   * The backward step of an epoch: builds dConv from the weights before
   * they change, then updates the weights and the filter in place.
   */
  method BackwardStep(input: array2<real>, convOut: array2<real>, dFcOutput: real,
                      filter: array2<real>, fcWeights: array<real>) returns (dConv: array2<real>)
    requires input.Length0 == InputSize && input.Length1 == InputSize
    requires convOut.Length0 == OutputSize && convOut.Length1 == OutputSize
    requires filter.Length0 == FilterSize && filter.Length1 == FilterSize
    requires fcWeights.Length == FcNodes
    requires filter != convOut
    modifies filter, fcWeights
    ensures fresh(dConv) && dConv.Length0 == OutputSize && dConv.Length1 == OutputSize
    ensures GridOf(dConv) == ConvGradient(dFcOutput, old(fcWeights[..]), GridOf(convOut))
    ensures fcWeights[..] == FcUpdate(GridOf(convOut), old(fcWeights[..]), dFcOutput)
    ensures GridOf(filter) == FilterUpdate(GridOf(input), GridOf(dConv), old(GridOf(filter)))
  {
    dConv := FillConvGradient(convOut, fcWeights, dFcOutput);
    assert fcWeights[..FcNodes] == fcWeights[..];
    UpdateFcWeights(convOut, fcWeights, dFcOutput);
    assert fcWeights[..FcNodes] == fcWeights[..];
    UpdateFilter(input, dConv, filter);
  }

  /** One epoch: the forward pass, the output error and the backward step. */
  method Epoch(input: array2<real>, expected: real, classZeroProbability: real -> real,
               filter: array2<real>, fcWeights: array<real>)
    requires input.Length0 == InputSize && input.Length1 == InputSize
    requires filter.Length0 == FilterSize && filter.Length1 == FilterSize
    requires fcWeights.Length == FcNodes
    modifies filter, fcWeights
    ensures Parameters(GridOf(filter), fcWeights[..])
         == EpochStep(GridOf(input), expected, classZeroProbability, old(Parameters(GridOf(filter), fcWeights[..])))
  {
    var convOut := new real[OutputSize, OutputSize];
    Convolve2D(input, filter, convOut);
    var fcOutput := FullyConnected(convOut, fcWeights);
    assert fcWeights[..FcNodes] == fcWeights[..];
    var dFcOutput := OutputError(classZeroProbability(fcOutput), expected);
    var _ := BackwardStep(input, convOut, dFcOutput, filter, fcWeights);
  }

  /** Allocates the filter and the weights with their fixed starting values. */
  method InitParameters() returns (filter: array2<real>, fcWeights: array<real>)
    ensures fresh(filter) && fresh(fcWeights)
    ensures filter.Length0 == FilterSize && filter.Length1 == FilterSize && fcWeights.Length == FcNodes
    ensures Parameters(GridOf(filter), fcWeights[..]) == InitialParameters()
  {
    var initial := InitialParameters();
    filter := new real[FilterSize, FilterSize]((r, c) requires 0 <= r < FilterSize && 0 <= c < FilterSize => initial.filter[r][c]);
    fcWeights := new real[FcNodes](k requires 0 <= k < FcNodes => initial.fcWeights[k]);
    GridOfCells(filter, initial.filter);
  }

  /** The epoch loop: n epochs, each on the filter and weights the previous one left. */
  method RunEpochs(input: array2<real>, expected: real, classZeroProbability: real -> real,
                   filter: array2<real>, fcWeights: array<real>, n: nat)
    requires input.Length0 == InputSize && input.Length1 == InputSize
    requires filter.Length0 == FilterSize && filter.Length1 == FilterSize
    requires fcWeights.Length == FcNodes
    modifies filter, fcWeights
    ensures Parameters(GridOf(filter), fcWeights[..])
         == TrainFrom(GridOf(input), expected, classZeroProbability, old(Parameters(GridOf(filter), fcWeights[..])), n)
  {
    // The epochs still to run from the current parameters end where all n
    // epochs from the starting parameters end.
    ghost var image := GridOf(input);
    ghost var result := TrainFrom(image, expected, classZeroProbability, Parameters(GridOf(filter), fcWeights[..]), n);
    var epoch := 0;
    while epoch < n
      invariant 0 <= epoch <= n
      invariant GridOf(input) == image
      invariant TrainFrom(image, expected, classZeroProbability, Parameters(GridOf(filter), fcWeights[..]), n - epoch) == result
    {
      Epoch(input, expected, classZeroProbability, filter, fcWeights);
      epoch := epoch + 1;
    }
  }

  /**
   * A training run: allocates the fixed starting parameters and runs
   * Epochs epochs on them; the parameters it ends with are returned.
   */
  method Train(input: array2<real>, expected: real, classZeroProbability: real -> real)
    returns (filter: array2<real>, fcWeights: array<real>)
    requires input.Length0 == InputSize && input.Length1 == InputSize
    ensures fresh(filter) && fresh(fcWeights)
    ensures filter.Length0 == FilterSize && filter.Length1 == FilterSize && fcWeights.Length == FcNodes
    ensures Parameters(GridOf(filter), fcWeights[..])
         == TrainFrom(GridOf(input), expected, classZeroProbability, InitialParameters(), Epochs)
  {
    filter, fcWeights := InitParameters();
    RunEpochs(input, expected, classZeroProbability, filter, fcWeights, Epochs);
  }
}
