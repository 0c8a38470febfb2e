/** Sample positions: `np.linspace` grids and the strided sub-sampling with block
    up-sampling used by the quick-draw paths of the two Julia viewers. */
module Sampling {
  import opened Complex

  /** `np.linspace(lo, hi, n)`: n evenly spaced samples, both ends included. */
  function Linspace(lo: real, hi: real, n: nat): (r: seq<real>)
    ensures |r| == n
  {
    if n == 1 then [lo]
    else seq(n, i => lo + (i as real) * (hi - lo) / ((n - 1) as real))
  }

  /** The first sample is `lo`, the last is `hi`, and consecutive samples are
      `(hi - lo) / (n - 1)` apart. */
  lemma LinspaceShape(lo: real, hi: real, n: nat)
    ensures n >= 1 ==> Linspace(lo, hi, n)[0] == lo
    ensures n >= 2 ==> Linspace(lo, hi, n)[n - 1] == hi
    ensures n >= 2 ==> forall i :: 0 <= i < n - 1 ==>
      Linspace(lo, hi, n)[i + 1] - Linspace(lo, hi, n)[i] == (hi - lo) / ((n - 1) as real)
  {
    if n >= 2 {
      LinspaceLast(lo, hi, n);
      forall i | 0 <= i < n - 1
        ensures Linspace(lo, hi, n)[i + 1] - Linspace(lo, hi, n)[i] == (hi - lo) / ((n - 1) as real)
      {
        LinspaceStep(lo, hi, n, i);
      }
    }
  }

  lemma LinspaceLast(lo: real, hi: real, n: nat)
    requires n >= 2
    ensures Linspace(lo, hi, n)[n - 1] == hi
  {
    var d := (n - 1) as real;
    LinspaceAt(lo, hi, n, n - 1);
    assert Linspace(lo, hi, n)[n - 1] == lo + d * (hi - lo) / d;
    Cancel(d, hi - lo);
  }

  lemma LinspaceStep(lo: real, hi: real, n: nat, i: int)
    requires n >= 2 && 0 <= i < n - 1
    ensures Linspace(lo, hi, n)[i + 1] - Linspace(lo, hi, n)[i] == (hi - lo) / ((n - 1) as real)
  {
    LinspaceAt(lo, hi, n, i);
    LinspaceAt(lo, hi, n, i + 1);
    assert ((i + 1) as real) == (i as real) + 1.0;
    StepOf(i as real, (n - 1) as real, hi - lo);
  }

  /** Consecutive multiples of w / d differ by w / d. */
  lemma StepOf(x: real, d: real, w: real)
    requires d > 0.0
    ensures (x + 1.0) * w / d - x * w / d == w / d
  {
    var q := w / d;
    MulDiv(x + 1.0, w, d);
    MulDiv(x, w, d);
    assert (x + 1.0) * q == x * q + q;
  }

  /** Dividing a product by d divides its second factor. */
  lemma MulDiv(x: real, w: real, d: real)
    requires d > 0.0
    ensures x * w / d == x * (w / d)
  {
    var q := w / d;
    assert w == q * d;
    assert x * w == (x * q) * d;
  }

  lemma Cancel(d: real, w: real)
    requires d > 0.0
    ensures d * w / d == w
  {
    MulDiv(d, w, d);
    assert d * (w / d) == w;
  }

  /** Sample i of an n-point grid, n >= 2. */
  lemma LinspaceAt(lo: real, hi: real, n: nat, i: int)
    requires 2 <= n && 0 <= i < n
    ensures Linspace(lo, hi, n)[i] == lo + (i as real) * (hi - lo) / ((n - 1) as real)
  {
  }

  /** Every sample of an increasing interval lies inside it. */
  lemma LinspaceWithin(lo: real, hi: real, n: nat, i: int)
    requires lo <= hi && 0 <= i < n
    ensures lo <= Linspace(lo, hi, n)[i] <= hi
  {
    if n >= 2 {
      LinspaceAt(lo, hi, n, i);
      FractionWithin(i as real, (n - 1) as real, hi - lo);
    }
  }

  /** x * w / d lies in [0, w] when 0 <= x <= d. */
  lemma FractionWithin(x: real, d: real, w: real)
    requires 0.0 <= x <= d && d > 0.0 && w >= 0.0
    ensures 0.0 <= x * w / d <= w
  {
    var t := w / d;
    MulDiv(x, w, d);
    assert w == d * t;
    assert 0.0 <= t;
    ScaleNonNegative(x, t);
    ScaleNonNegative(d - x, t);
  }

  lemma ScaleNonNegative(a: real, b: real)
    requires 0.0 <= a && 0.0 <= b
    ensures 0.0 <= a * b
  {
  }

  /** Row i, column j of the grid `X + 1j * Y` built by `np.meshgrid(xs, ys)`. */
  function GridPoint(xs: seq<real>, ys: seq<real>, i: int, j: int): Complex
    requires 0 <= i < |ys| && 0 <= j < |xs|
  {
    Complex(xs[j], ys[i])
  }

  /** The quick-draw stride: every 4th sample for a quick draw, every sample otherwise. */
  function Stride(quick: bool): (k: nat)
    ensures k >= 1
    ensures quick <==> k == 4
  {
    if quick then 4 else 1
  }

  /** `xs[::k]`: the samples at indices 0, k, 2k, … */
  function Strided<T>(xs: seq<T>, k: nat): (r: seq<T>)
    requires k >= 1
    ensures |r| == (|xs| + k - 1) / k
    ensures forall i :: 0 <= i < |r| ==> i * k < |xs| && r[i] == xs[i * k]
  {
    var n := (|xs| + k - 1) / k;
    DivBound(|xs|, k);
    seq(n, i requires 0 <= i < n => xs[i * k])
  }

  /** Every strided index i * k, for i below the strided length, is inside xs. */
  lemma DivBound(len: nat, k: nat)
    requires k >= 1
    ensures forall i :: 0 <= i < (len + k - 1) / k ==> i * k < len
  {
    forall i | 0 <= i < (len + k - 1) / k
      ensures i * k < len
    {
      var n := (len + k - 1) / k;
      assert n * k <= len + k - 1;
      assert (i + 1) * k <= n * k by {
        MulMonotone(i + 1, n, k);
      }
    }
  }

  lemma MulMonotone(a: int, b: int, k: nat)
    requires a <= b
    ensures a * k <= b * k
  {
  }

  /** Indices below n * k fall into one of the n blocks of length k. */
  lemma BlockIndex(n: nat, k: nat)
    requires k >= 1
    ensures forall i :: 0 <= i < n * k ==> 0 <= i / k < n
  {
    forall i | 0 <= i < n * k
      ensures i / k < n
    {
      if i / k >= n {
        MulMonotone(n, i / k, k);
      }
    }
  }

  /** `np.repeat(np.repeat(grid, k, axis=0), k, axis=1)`: each sample becomes a k×k block. */
  function Upsample<T>(grid: seq<seq<T>>, k: nat): (r: seq<seq<T>>)
    requires k >= 1
    ensures |r| == |grid| * k
    ensures forall i :: 0 <= i < |r| ==> 0 <= i / k < |grid| && |r[i]| == |grid[i / k]| * k
    ensures forall i, j :: 0 <= i < |r| && 0 <= j < |r[i]| ==>
      0 <= j / k < |grid[i / k]| && r[i][j] == grid[i / k][j / k]
  {
    BlockIndex(|grid|, k);
    seq(|grid| * k, i requires 0 <= i < |grid| * k => Repeat(grid[i / k], k))
  }

  /** `np.repeat(row, k)`: each sample repeated k times. */
  function Repeat<T>(row: seq<T>, k: nat): (r: seq<T>)
    requires k >= 1
    ensures |r| == |row| * k
    ensures forall j :: 0 <= j < |r| ==> 0 <= j / k < |row| && r[j] == row[j / k]
  {
    BlockIndex(|row|, k);
    seq(|row| * k, j requires 0 <= j < |row| * k => row[j / k])
  }
}
