/**
 * The fully connected layer: the row-major dot product of the feature map
 * with the weight vector, and the in-place gradient-descent update of the
 * weights.
 */
module FcLayer {
  import opened Tensor

  /** Σ_{j < n} c[i][j] * w[i * OutputSize + j], accumulated from j = 0 upwards. */
  function DenseRow(c: Grid, w: seq<real>, i: nat, n: nat): real
    requires IsGrid(c, OutputSize) && |w| == FcNodes && i < OutputSize && n <= OutputSize
  {
    if n == 0 then 0.0
    else DenseRow(c, w, i, n - 1) + c[i][n - 1] * w[i * OutputSize + n - 1]
  }

  /** Σ_{i < m} Σ_{j < OutputSize} c[i][j] * w[i * OutputSize + j], accumulated row by row. */
  function DensePrefix(c: Grid, w: seq<real>, m: nat): real
    requires IsGrid(c, OutputSize) && |w| == FcNodes && m <= OutputSize
  {
    if m == 0 then 0.0
    else DensePrefix(c, w, m - 1) + DenseRow(c, w, m - 1, OutputSize)
  }

  /** The output of the fully connected layer. */
  function Dense(c: Grid, w: seq<real>): real
    requires IsGrid(c, OutputSize) && |w| == FcNodes
  {
    DensePrefix(c, w, OutputSize)
  }

  /** The feature map laid out row after row. */
  function Flatten(c: Grid): (v: seq<real>)
    requires IsGrid(c, OutputSize)
    ensures |v| == FcNodes
  {
    c[0] + c[1] + c[2]
  }

  /** Σ_{k < n} v[k] * w[k]. */
  function Dot(v: seq<real>, w: seq<real>, n: nat): real
    requires n <= |v| && n <= |w|
  {
    if n == 0 then 0.0 else Dot(v, w, n - 1) + v[n - 1] * w[n - 1]
  }

  /**
   * The weights after one update with output error `error`: the weight of
   * feature-map cell (i, j) loses LearningRate * error * c[i][j].
   */
  function FcUpdate(c: Grid, w: seq<real>, error: real): (r: seq<real>)
    requires IsGrid(c, OutputSize) && |w| == FcNodes
    ensures |r| == FcNodes
  {
    seq(FcNodes, k requires 0 <= k < FcNodes => w[k] - LearningRate * error * c[k / OutputSize][k % OutputSize])
  }

  // ---------------------------------------------------------------------
  // The row-major index

  /** Cell (i, j) of the feature map sits at i * OutputSize + j of its flattening. */
  lemma FlattenAt(c: Grid, i: nat, j: nat)
    requires IsGrid(c, OutputSize) && i < OutputSize && j < OutputSize
    ensures i * OutputSize + j < FcNodes
    ensures Flatten(c)[i * OutputSize + j] == c[i][j]
  {
    if i == 0 {
    } else if i == 1 {
      assert Flatten(c) == c[0] + (c[1] + c[2]);
    } else {
      assert Flatten(c) == (c[0] + c[1]) + c[2];
    }
  }

  /**
   * The row-major index i * OutputSize + j visits every weight index once:
   * it maps the cells of the feature map one to one onto 0 .. FcNodes - 1.
   */
  lemma RowMajorIndexBijective(i: nat, j: nat, k: nat)
    ensures i < OutputSize && j < OutputSize ==>
      i * OutputSize + j < FcNodes && (i * OutputSize + j) / OutputSize == i && (i * OutputSize + j) % OutputSize == j
    ensures k < FcNodes ==>
      k / OutputSize < OutputSize && k % OutputSize < OutputSize && k == (k / OutputSize) * OutputSize + k % OutputSize
  {
  }

  /** The weight of feature-map cell (i, j) loses LearningRate * error * c[i][j]. */
  lemma FcUpdateAt(c: Grid, w: seq<real>, error: real)
    requires IsGrid(c, OutputSize) && |w| == FcNodes
    ensures forall i, j | 0 <= i < OutputSize && 0 <= j < OutputSize ::
      FcUpdate(c, w, error)[i * OutputSize + j] == w[i * OutputSize + j] - LearningRate * error * c[i][j]
  {
    forall i, j | 0 <= i < OutputSize && 0 <= j < OutputSize
      ensures FcUpdate(c, w, error)[i * OutputSize + j] == w[i * OutputSize + j] - LearningRate * error * c[i][j]
    {
      RowMajorIndexBijective(i, j, 0);
    }
  }

  /** The update subtracts LearningRate * error times the flattened feature map. */
  lemma FcUpdateIsFlatStep(c: Grid, w: seq<real>, error: real)
    requires IsGrid(c, OutputSize) && |w| == FcNodes
    ensures forall k | 0 <= k < FcNodes :: FcUpdate(c, w, error)[k] == w[k] - (LearningRate * error) * Flatten(c)[k]
  {
    forall k | 0 <= k < FcNodes
      ensures FcUpdate(c, w, error)[k] == w[k] - (LearningRate * error) * Flatten(c)[k]
    {
      RowMajorIndexBijective(0, 0, k);
      FlattenAt(c, k / OutputSize, k % OutputSize);
    }
  }

  /** An error of zero leaves the weights as they were. */
  lemma FcUpdateZeroError(c: Grid, w: seq<real>)
    requires IsGrid(c, OutputSize) && |w| == FcNodes
    ensures FcUpdate(c, w, 0.0) == w
  {
    var r := FcUpdate(c, w, 0.0);
    assert forall k | 0 <= k < FcNodes :: r[k] == w[k];
  }

  // ---------------------------------------------------------------------
  // The nested loop is the flat dot product

  lemma {:induction false} DenseRowIsDot(c: Grid, w: seq<real>, i: nat, n: nat)
    requires IsGrid(c, OutputSize) && |w| == FcNodes && i < OutputSize && n <= OutputSize
    ensures i * OutputSize + n <= FcNodes
    ensures Dot(Flatten(c), w, i * OutputSize + n) == Dot(Flatten(c), w, i * OutputSize) + DenseRow(c, w, i, n)
  {
    if n > 0 {
      DenseRowIsDot(c, w, i, n - 1);
      FlattenAt(c, i, n - 1);
    }
  }

  lemma {:induction false} DensePrefixIsDot(c: Grid, w: seq<real>, m: nat)
    requires IsGrid(c, OutputSize) && |w| == FcNodes && m <= OutputSize
    ensures m * OutputSize <= FcNodes
    ensures DensePrefix(c, w, m) == Dot(Flatten(c), w, m * OutputSize)
  {
    if m > 0 {
      DensePrefixIsDot(c, w, m - 1);
      DenseRowIsDot(c, w, m - 1, OutputSize);
    }
  }

  /** The nested row-major loop computes the dot product of the flattened map with the weights. */
  lemma DenseIsFlatDot(c: Grid, w: seq<real>)
    requires IsGrid(c, OutputSize) && |w| == FcNodes
    ensures Dense(c, w) == Dot(Flatten(c), w, FcNodes)
  {
    DensePrefixIsDot(c, w, OutputSize);
  }

  // ---------------------------------------------------------------------
  // The update is a descent step for the layer output

  lemma {:induction false} DotCombine(v: seq<real>, h: seq<real>, w: seq<real>, u: seq<real>, s: real, n: nat)
    requires n <= |v| && n <= |h| && n <= |w| && n <= |u|
    requires forall k | 0 <= k < n :: h[k] == w[k] - s * u[k]
    ensures Dot(v, h, n) == Dot(v, w, n) - s * Dot(v, u, n)
  {
    if n > 0 {
      DotCombine(v, h, w, u, s, n - 1);
      var x := v[n - 1];
      assert x * h[n - 1] == x * w[n - 1] - s * (x * u[n - 1]);
    }
  }

  lemma {:induction false} DotSelfNonNegative(v: seq<real>, n: nat)
    requires n <= |v|
    ensures Dot(v, v, n) >= 0.0
  {
    if n > 0 {
      DotSelfNonNegative(v, n - 1);
      var x := v[n - 1];
      assert x * x >= 0.0 by {
        if x < 0.0 {
          assert x * x == (-x) * (-x);
        }
      }
    }
  }

  /** The squared norm of the feature map, Dense(c, Flatten(c)), is never negative. */
  lemma SquaredNormNonNegative(c: Grid)
    requires IsGrid(c, OutputSize)
    ensures Dense(c, Flatten(c)) >= 0.0
  {
    DenseIsFlatDot(c, Flatten(c));
    DotSelfNonNegative(Flatten(c), FcNodes);
  }

  /** The update, as a step on the flat dot product with the flattened feature map. */
  lemma FcUpdateFlatDot(c: Grid, w: seq<real>, error: real)
    requires IsGrid(c, OutputSize) && |w| == FcNodes
    ensures Dot(Flatten(c), FcUpdate(c, w, error), FcNodes)
         == Dot(Flatten(c), w, FcNodes) - (LearningRate * error) * Dot(Flatten(c), Flatten(c), FcNodes)
  {
    FcUpdateIsFlatStep(c, w, error);
    DotCombine(Flatten(c), FcUpdate(c, w, error), w, Flatten(c), LearningRate * error, FcNodes);
  }

  /**
   * With the feature map held fixed, the update moves the layer output by
   * -LearningRate * error times the squared norm of the feature map.
   */
  lemma FcUpdateMovesOutput(c: Grid, w: seq<real>, error: real)
    requires IsGrid(c, OutputSize) && |w| == FcNodes
    ensures Dense(c, FcUpdate(c, w, error)) == Dense(c, w) - LearningRate * error * Dense(c, Flatten(c))
  {
    var v, h := Flatten(c), FcUpdate(c, w, error);
    FcUpdateFlatDot(c, w, error);
    DenseIsFlatDot(c, h);
    DenseIsFlatDot(c, w);
    DenseIsFlatDot(c, v);
  }

  /** A positive error never raises the output, a negative one never lowers it. */
  lemma FcUpdateAgainstError(c: Grid, w: seq<real>, error: real)
    requires IsGrid(c, OutputSize) && |w| == FcNodes
    ensures error > 0.0 ==> Dense(c, FcUpdate(c, w, error)) <= Dense(c, w)
    ensures error < 0.0 ==> Dense(c, FcUpdate(c, w, error)) >= Dense(c, w)
  {
    FcUpdateMovesOutput(c, w, error);
    SquaredNormNonNegative(c);
    var n := Dense(c, Flatten(c));
    assert LearningRate * error * n == (LearningRate * n) * error;
  }

  /**
   * On a feature map that is not all zero, a non-zero error moves the layer
   * output strictly: down for a positive error, up for a negative one.
   */
  lemma FcUpdateStrictlyAgainstError(c: Grid, w: seq<real>, error: real)
    requires IsGrid(c, OutputSize) && |w| == FcNodes
    requires Dense(c, Flatten(c)) > 0.0
    ensures error > 0.0 ==> Dense(c, FcUpdate(c, w, error)) < Dense(c, w)
    ensures error < 0.0 ==> Dense(c, FcUpdate(c, w, error)) > Dense(c, w)
  {
    FcUpdateMovesOutput(c, w, error);
    var n := Dense(c, Flatten(c));
    assert LearningRate * error * n == (LearningRate * n) * error;
  }

  // ---------------------------------------------------------------------
  // The operations on arrays

  /** The forward pass: the row-major dot product of the feature map with the first FcNodes weights. */
  method FullyConnected(convOut: array2<real>, weights: array<real>) returns (output: real)
    requires convOut.Length0 == OutputSize && convOut.Length1 == OutputSize
    requires weights.Length >= FcNodes
    ensures output == Dense(GridOf(convOut), weights[..FcNodes])
  {
    ghost var c, w := GridOf(convOut), weights[..FcNodes];
    output := 0.0;
    var i := 0;
    while i < OutputSize
      invariant 0 <= i <= OutputSize
      invariant output == DensePrefix(c, w, i)
    {
      var j := 0;
      while j < OutputSize
        invariant 0 <= j <= OutputSize
        invariant output == DensePrefix(c, w, i) + DenseRow(c, w, i, j)
      {
        output := output + convOut[i, j] * weights[i * OutputSize + j];
        j := j + 1;
      }
      i := i + 1;
    }
  }

  /**
   * The backward update of the weights: the weight of each feature-map cell
   * loses LearningRate * error times that cell; entries past FcNodes are
   * not touched.
   */
  method UpdateFcWeights(convOut: array2<real>, fcWeights: array<real>, error: real)
    requires convOut.Length0 == OutputSize && convOut.Length1 == OutputSize
    requires fcWeights.Length >= FcNodes
    modifies fcWeights
    ensures fcWeights[..FcNodes] == FcUpdate(GridOf(convOut), old(fcWeights[..FcNodes]), error)
    ensures fcWeights[FcNodes..] == old(fcWeights[FcNodes..])
  {
    ghost var c, w := GridOf(convOut), fcWeights[..FcNodes];
    ghost var u := FcUpdate(c, w, error);
    var i := 0;
    while i < OutputSize
      invariant 0 <= i <= OutputSize
      invariant forall k | 0 <= k < i * OutputSize :: fcWeights[k] == u[k]
      invariant forall k | i * OutputSize <= k < fcWeights.Length :: fcWeights[k] == old(fcWeights[k])
    {
      var j := 0;
      ghost var next := i * OutputSize;
      while j < OutputSize
        invariant 0 <= j <= OutputSize && next == i * OutputSize + j
        invariant forall k | 0 <= k < next :: fcWeights[k] == u[k]
        invariant forall k | next <= k < fcWeights.Length :: fcWeights[k] == old(fcWeights[k])
      {
        RowMajorIndexBijective(i, j, 0);
        assert u[next] == w[next] - LearningRate * error * c[i][j];
        fcWeights[i * OutputSize + j] := fcWeights[i * OutputSize + j] - LearningRate * error * convOut[i, j];
        j := j + 1;
        next := next + 1;
      }
      i := i + 1;
    }
    assert fcWeights[..FcNodes] == u;
  }
}
