/**
 * The convolution layer: the forward pass (a valid, stride-1, unpadded
 * cross-correlation of the input with the filter, followed by ReLU) and the
 * in-place gradient-descent update of the filter.
 */
module ConvLayer {
  import opened Tensor
  import opened Activation

  /** The window anchored at (i, j) with a k×k kernel lies inside the input. */
  predicate WindowFits(input: Grid, kernel: Grid, k: nat, i: nat, j: nat) {
    IsGrid(input, InputSize) && IsGrid(kernel, k) && i + k <= InputSize && j + k <= InputSize
  }

  /** Σ_{b < n} input[i + a][j + b] * kernel[a][b], accumulated from b = 0 upwards. */
  function RowProducts(input: Grid, kernel: Grid, k: nat, i: nat, j: nat, a: nat, n: nat): real
    requires WindowFits(input, kernel, k, i, j) && a < k && n <= k
  {
    if n == 0 then 0.0
    else RowProducts(input, kernel, k, i, j, a, n - 1) + input[i + a][j + n - 1] * kernel[a][n - 1]
  }

  /** Σ_{a < m} Σ_{b < k} input[i + a][j + b] * kernel[a][b], accumulated row by row. */
  function WindowPrefix(input: Grid, kernel: Grid, k: nat, i: nat, j: nat, m: nat): real
    requires WindowFits(input, kernel, k, i, j) && m <= k
  {
    if m == 0 then 0.0
    else WindowPrefix(input, kernel, k, i, j, m - 1) + RowProducts(input, kernel, k, i, j, m - 1, k)
  }

  /**
   * The sum of products of a k×k kernel with the input window anchored at
   * (i, j). The forward pass uses it with the filter; the filter gradient
   * uses it with the upstream gradient of the feature map.
   */
  function Correlate(input: Grid, kernel: Grid, k: nat, i: nat, j: nat): real
    requires WindowFits(input, kernel, k, i, j)
  {
    WindowPrefix(input, kernel, k, i, j, k)
  }

  /** The activated feature map: cell (i, j) is ReLU of the window sum at (i, j). */
  function Convolve(input: Grid, filter: Grid): (out: Grid)
    requires IsGrid(input, InputSize) && IsGrid(filter, FilterSize)
    ensures IsGrid(out, OutputSize)
    ensures forall i, j | 0 <= i < OutputSize && 0 <= j < OutputSize :: out[i][j] >= 0.0
  {
    seq(OutputSize, i requires 0 <= i < OutputSize =>
      seq(OutputSize, j requires 0 <= j < OutputSize => Relu(Correlate(input, filter, FilterSize, i, j))))
  }

  /**
   * The gradient of the filter: cell (p, q) is
   * Σ_{x, y < OutputSize} input[x + p][y + q] * dConv[x][y].
   */
  function FilterGradient(input: Grid, dConv: Grid): (g: Grid)
    requires IsGrid(input, InputSize) && IsGrid(dConv, OutputSize)
    ensures IsGrid(g, FilterSize)
  {
    seq(FilterSize, p requires 0 <= p < FilterSize =>
      seq(FilterSize, q requires 0 <= q < FilterSize => Correlate(input, dConv, OutputSize, p, q)))
  }

  /** One gradient-descent step: every filter cell minus LearningRate times its gradient. */
  function DescentStep(filter: Grid, grad: Grid): (r: Grid)
    requires IsGrid(filter, FilterSize) && IsGrid(grad, FilterSize)
    ensures IsGrid(r, FilterSize)
  {
    seq(FilterSize, p requires 0 <= p < FilterSize =>
      seq(FilterSize, q requires 0 <= q < FilterSize => filter[p][q] - LearningRate * grad[p][q]))
  }

  /** The filter after one update from the upstream gradient dConv. */
  function FilterUpdate(input: Grid, dConv: Grid, filter: Grid): (r: Grid)
    requires IsGrid(input, InputSize) && IsGrid(dConv, OutputSize) && IsGrid(filter, FilterSize)
    ensures IsGrid(r, FilterSize)
  {
    DescentStep(filter, FilterGradient(input, dConv))
  }

  // ---------------------------------------------------------------------
  // Linearity of the window sum in the kernel

  /** Kernel h is f - s * g, cell by cell. */
  ghost predicate IsCombination(h: Grid, f: Grid, g: Grid, s: real, k: nat)
    requires IsGrid(h, k) && IsGrid(f, k) && IsGrid(g, k)
  {
    forall a, b | 0 <= a < k && 0 <= b < k :: h[a][b] == f[a][b] - s * g[a][b]
  }

  lemma {:induction false} RowProductsCombine(input: Grid, h: Grid, f: Grid, g: Grid, s: real,
                                               k: nat, i: nat, j: nat, a: nat, n: nat)
    requires WindowFits(input, h, k, i, j) && IsGrid(f, k) && IsGrid(g, k)
    requires IsCombination(h, f, g, s, k) && a < k && n <= k
    ensures RowProducts(input, h, k, i, j, a, n)
         == RowProducts(input, f, k, i, j, a, n) - s * RowProducts(input, g, k, i, j, a, n)
  {
    if n > 0 {
      RowProductsCombine(input, h, f, g, s, k, i, j, a, n - 1);
      var x := input[i + a][j + n - 1];
      assert x * h[a][n - 1] == x * f[a][n - 1] - s * (x * g[a][n - 1]);
    }
  }

  lemma {:induction false} WindowPrefixCombine(input: Grid, h: Grid, f: Grid, g: Grid, s: real,
                                                k: nat, i: nat, j: nat, m: nat)
    requires WindowFits(input, h, k, i, j) && IsGrid(f, k) && IsGrid(g, k)
    requires IsCombination(h, f, g, s, k) && m <= k
    ensures WindowPrefix(input, h, k, i, j, m)
         == WindowPrefix(input, f, k, i, j, m) - s * WindowPrefix(input, g, k, i, j, m)
  {
    if m > 0 {
      WindowPrefixCombine(input, h, f, g, s, k, i, j, m - 1);
      RowProductsCombine(input, h, f, g, s, k, i, j, m - 1, k);
    }
  }

  /** The window sum is linear in the kernel. */
  lemma CorrelateCombine(input: Grid, h: Grid, f: Grid, g: Grid, s: real, k: nat, i: nat, j: nat)
    requires WindowFits(input, h, k, i, j) && IsGrid(f, k) && IsGrid(g, k)
    requires IsCombination(h, f, g, s, k)
    ensures Correlate(input, h, k, i, j) == Correlate(input, f, k, i, j) - s * Correlate(input, g, k, i, j)
  {
    WindowPrefixCombine(input, h, f, g, s, k, i, j, k);
  }

  /** A kernel of zeros gives a zero window sum everywhere. */
  lemma CorrelateZeroKernel(input: Grid, kernel: Grid, k: nat, i: nat, j: nat)
    requires WindowFits(input, kernel, k, i, j)
    requires forall a, b | 0 <= a < k && 0 <= b < k :: kernel[a][b] == 0.0
    ensures Correlate(input, kernel, k, i, j) == 0.0
  {
    CorrelateCombine(input, kernel, kernel, kernel, 1.0, k, i, j);
  }

  /**
   * After a filter step, every pre-activation window sum has moved by
   * -LearningRate times the window sum of the gradient.
   */
  lemma PreActivationAfterStep(input: Grid, filter: Grid, grad: Grid, i: nat, j: nat)
    requires IsGrid(input, InputSize) && IsGrid(filter, FilterSize) && IsGrid(grad, FilterSize)
    requires i < OutputSize && j < OutputSize
    ensures Correlate(input, DescentStep(filter, grad), FilterSize, i, j)
         == Correlate(input, filter, FilterSize, i, j) - LearningRate * Correlate(input, grad, FilterSize, i, j)
  {
    CorrelateCombine(input, DescentStep(filter, grad), filter, grad, LearningRate, FilterSize, i, j);
  }

  /** A zero upstream gradient leaves the filter as it was. */
  lemma ZeroUpstreamKeepsFilter(input: Grid, dConv: Grid, filter: Grid)
    requires IsGrid(input, InputSize) && IsGrid(dConv, OutputSize) && IsGrid(filter, FilterSize)
    requires forall x, y | 0 <= x < OutputSize && 0 <= y < OutputSize :: dConv[x][y] == 0.0
    ensures FilterUpdate(input, dConv, filter) == filter
  {
    var r := FilterUpdate(input, dConv, filter);
    forall p | 0 <= p < FilterSize
      ensures r[p] == filter[p]
    {
      forall q | 0 <= q < FilterSize
        ensures r[p][q] == filter[p][q]
      {
        CorrelateZeroKernel(input, dConv, OutputSize, p, q);
      }
    }
  }

  // ---------------------------------------------------------------------
  // The operations on arrays

  /**
   * The innermost loop: adds the products of row a of a k×k kernel with
   * the input row i + a, from column j onwards, to a running sum.
   */
  method AccumulateRow(input: array2<real>, kernel: array2<real>, k: nat, i: nat, j: nat, a: nat, sum0: real)
    returns (sum: real)
    requires input.Length0 == InputSize && input.Length1 == InputSize
    requires kernel.Length0 == k && kernel.Length1 == k
    requires i + k <= InputSize && j + k <= InputSize && a < k
    ensures sum == sum0 + RowProducts(GridOf(input), GridOf(kernel), k, i, j, a, k)
  {
    sum := sum0;
    var b := 0;
    while b < k
      invariant 0 <= b <= k
      invariant sum == sum0 + RowProducts(GridOf(input), GridOf(kernel), k, i, j, a, b)
    {
      sum := sum + input[i + a, j + b] * kernel[a, b];
      b := b + 1;
    }
  }

  /**
   * The two inner loops shared by the forward pass and the filter update:
   * the window sum of a k×k kernel with the input window anchored at (i, j),
   * accumulated in the order the loops visit the cells.
   */
  method WindowSum(input: array2<real>, kernel: array2<real>, k: nat, i: nat, j: nat) returns (sum: real)
    requires input.Length0 == InputSize && input.Length1 == InputSize
    requires kernel.Length0 == k && kernel.Length1 == k
    requires i + k <= InputSize && j + k <= InputSize
    ensures sum == Correlate(GridOf(input), GridOf(kernel), k, i, j)
  {
    sum := 0.0;
    var a := 0;
    while a < k
      invariant 0 <= a <= k
      invariant sum == WindowPrefix(GridOf(input), GridOf(kernel), k, i, j, a)
    {
      sum := AccumulateRow(input, kernel, k, i, j, a, sum);
      a := a + 1;
    }
  }

  /**
   * The forward pass: fills the 3×3 output with ReLU of each window sum of
   * the 5×5 input with the 3×3 filter.
   */
  method Convolve2D(input: array2<real>, filter: array2<real>, output: array2<real>)
    requires input.Length0 == InputSize && input.Length1 == InputSize
    requires filter.Length0 == FilterSize && filter.Length1 == FilterSize
    requires output.Length0 == OutputSize && output.Length1 == OutputSize
    requires output != filter
    modifies output
    ensures forall i, j | 0 <= i < OutputSize && 0 <= j < OutputSize ::
      output[i, j] == Relu(Correlate(GridOf(input), GridOf(filter), FilterSize, i, j))
    ensures GridOf(output) == Convolve(GridOf(input), GridOf(filter))
  {
    ghost var gi, gf := GridOf(input), GridOf(filter);
    ShapesAgree();
    var i := 0;
    while i < OutputSize
      invariant 0 <= i <= OutputSize
      invariant forall r, c | 0 <= r < i && 0 <= c < OutputSize ::
        output[r, c] == Relu(Correlate(gi, gf, FilterSize, r, c))
    {
      var j := 0;
      while j < OutputSize
        invariant 0 <= j <= OutputSize
        invariant forall r, c | 0 <= r < i && 0 <= c < OutputSize ::
          output[r, c] == Relu(Correlate(gi, gf, FilterSize, r, c))
        invariant forall c | 0 <= c < j :: output[i, c] == Relu(Correlate(gi, gf, FilterSize, i, c))
      {
        var sum := WindowSum(input, filter, FilterSize, i, j);
        output[i, j] := Relu(sum);
        j := j + 1;
      }
      i := i + 1;
    }
    GridOfCells(output, Convolve(gi, gf));
  }

  /**
   * One pass of the inner loop of the filter update: every cell of row p
   * loses LearningRate times its gradient; the other rows are not touched.
   */
  method UpdateFilterRow(input: array2<real>, dConv: array2<real>, filter: array2<real>, p: nat)
    requires input.Length0 == InputSize && input.Length1 == InputSize
    requires dConv.Length0 == OutputSize && dConv.Length1 == OutputSize
    requires filter.Length0 == FilterSize && filter.Length1 == FilterSize
    requires filter != dConv && p < FilterSize
    modifies filter
    ensures forall q | 0 <= q < FilterSize ::
      filter[p, q] == old(filter[p, q]) - LearningRate * Correlate(GridOf(input), GridOf(dConv), OutputSize, p, q)
    ensures forall r, q | 0 <= r < FilterSize && r != p && 0 <= q < FilterSize :: filter[r, q] == old(filter[r, q])
  {
    ShapesAgree();
    var j := 0;
    while j < FilterSize
      invariant 0 <= j <= FilterSize
      invariant forall q | 0 <= q < j ::
        filter[p, q] == old(filter[p, q]) - LearningRate * Correlate(GridOf(input), GridOf(dConv), OutputSize, p, q)
      invariant forall r, q | 0 <= r < FilterSize && 0 <= q < FilterSize && (r != p || q >= j) ::
        filter[r, q] == old(filter[r, q])
    {
      var grad := WindowSum(input, dConv, OutputSize, p, j);
      filter[p, j] := filter[p, j] - LearningRate * grad;
      j := j + 1;
    }
  }

  /**
   * The backward update of the filter: each cell loses LearningRate times
   * its gradient, and every gradient is read from the input and dConv only,
   * never from the filter being overwritten.
   */
  method UpdateFilter(input: array2<real>, dConv: array2<real>, filter: array2<real>)
    requires input.Length0 == InputSize && input.Length1 == InputSize
    requires dConv.Length0 == OutputSize && dConv.Length1 == OutputSize
    requires filter.Length0 == FilterSize && filter.Length1 == FilterSize
    requires filter != dConv
    modifies filter
    ensures forall p, q | 0 <= p < FilterSize && 0 <= q < FilterSize ::
      filter[p, q] == old(filter[p, q]) - LearningRate * Correlate(GridOf(input), GridOf(dConv), OutputSize, p, q)
    ensures GridOf(filter) == FilterUpdate(GridOf(input), GridOf(dConv), old(GridOf(filter)))
  {
    ghost var gi, gd, gf := GridOf(input), GridOf(dConv), GridOf(filter);
    var i := 0;
    while i < FilterSize
      invariant 0 <= i <= FilterSize
      invariant forall p, q | 0 <= p < i && 0 <= q < FilterSize ::
        filter[p, q] == gf[p][q] - LearningRate * Correlate(gi, gd, OutputSize, p, q)
      invariant forall p, q | i <= p < FilterSize && 0 <= q < FilterSize :: filter[p, q] == gf[p][q]
    {
      UpdateFilterRow(input, dConv, filter, i);
      i := i + 1;
    }
    GridOfCells(filter, FilterUpdate(gi, gd, gf));
  }
}
