/** Fixed shapes of the network and the value view of its 2-D arrays. */
module Tensor {

  /** The side of the square input image. */
  const InputSize: nat := 5
  /** The side of the square convolution filter. */
  const FilterSize: nat := 3
  /** The side of the feature map produced by the convolution. */
  const OutputSize: nat := 3
  /** The number of weights of the fully connected layer, one per feature-map cell. */
  const FcNodes: nat := 9
  /** The step size of every gradient-descent update. */
  const LearningRate: real := 0.01

  /** A grid of reals indexed by (row, column). */
  type Grid = seq<seq<real>>

  /** `g` is an n×n grid. */
  predicate IsGrid(g: Grid, n: nat) {
    |g| == n && forall r | 0 <= r < n :: |g[r]| == n
  }

  /** The contents of a 2-D array as a grid of rows. */
  ghost function GridOf(a: array2<real>): (g: Grid)
    reads a
    ensures |g| == a.Length0
    ensures forall r | 0 <= r < a.Length0 :: |g[r]| == a.Length1
    ensures forall r, c | 0 <= r < a.Length0 && 0 <= c < a.Length1 :: g[r][c] == a[r, c]
  {
    seq(a.Length0, r requires 0 <= r < a.Length0 reads a =>
      seq(a.Length1, c requires 0 <= c < a.Length1 reads a => a[r, c]))
  }

  /** A square array that agrees with a grid cell by cell holds that grid. */
  lemma GridOfCells(a: array2<real>, g: Grid)
    requires a.Length0 == a.Length1 && IsGrid(g, a.Length0)
    requires forall r, c | 0 <= r < a.Length0 && 0 <= c < a.Length1 :: a[r, c] == g[r][c]
    ensures GridOf(a) == g
  {
    var h := GridOf(a);
    forall r | 0 <= r < |g|
      ensures h[r] == g[r]
    {
      assert |h[r]| == |g[r]|;
    }
  }

  /** A window of side k whose first row (or column) is `anchor` lies inside the input. */
  predicate WindowInside(anchor: int, k: nat) {
    0 <= anchor && anchor + k <= InputSize
  }

  /**
   * The three sizes fit: a filter-sized window anchored at any feature-map
   * cell (the forward pass) and a feature-map-sized window anchored at any
   * filter cell (the filter gradient) stay inside the input, and the weight
   * vector has one entry per feature-map cell.
   */
  lemma ShapesAgree()
    ensures forall i | 0 <= i < OutputSize :: WindowInside(i, FilterSize)
    ensures forall p | 0 <= p < FilterSize :: WindowInside(p, OutputSize)
    ensures FcNodes == OutputSize * OutputSize
  {
  }
}
