/** The three generators of the second explorer (CLAUDE_fractal_app/test_claude_exp.py):
    a masked escape loop that records the 0-indexed iteration at which |z| > 2 first holds,
    unmasks that sample, and stops early once no sample is left. */
module ClaudeExplorer {
  import opened Complex
  import opened EscapeTime
  import opened Sampling

  /** The number of passes of `range(max_iterations)`. */
  function Passes(maxIterations: int): nat
  {
    if maxIterations > 0 then maxIterations else 0
  }

  /** The arrays `z`, `divtime` and `mask` hold the state of every sample after n passes. */
  ghost predicate AfterPasses(rec: Recurrence, start: seq<seq<Complex>>, c: array2<Complex>, maxIterations: int,
                              z: array2<Complex>, divtime: array2<int>, mask: array2<bool>, n: nat)
    reads c, z, divtime, mask
    requires |start| == c.Length0 && forall r :: 0 <= r < |start| ==> |start[r]| == c.Length1
    requires z.Length0 == divtime.Length0 == mask.Length0 == c.Length0
    requires z.Length1 == divtime.Length1 == mask.Length1 == c.Length1
  {
    forall a, b :: 0 <= a < c.Length0 && 0 <= b < c.Length1 ==>
      Tracked(z[a, b], divtime[a, b], mask[a, b]) == TrackedRun(rec, start[a][b], c[a, b], maxIterations, n)
  }

  /** One pass over row a: step the masked samples, record and unmask those now beyond 2. */
  method PassRow(rec: Recurrence, start: seq<seq<Complex>>, c: array2<Complex>, maxIterations: int,
                 z: array2<Complex>, divtime: array2<int>, mask: array2<bool>, pass: nat, a: int)
    requires |start| == c.Length0 && forall r :: 0 <= r < |start| ==> |start[r]| == c.Length1
    requires z.Length0 == divtime.Length0 == mask.Length0 == c.Length0
    requires z.Length1 == divtime.Length1 == mask.Length1 == c.Length1
    requires z != c
    requires 0 <= a < c.Length0
    requires forall b :: 0 <= b < c.Length1 ==>
      Tracked(z[a, b], divtime[a, b], mask[a, b]) == TrackedRun(rec, start[a][b], c[a, b], maxIterations, pass)
    modifies z, divtime, mask
    ensures forall b :: 0 <= b < c.Length1 ==>
      Tracked(z[a, b], divtime[a, b], mask[a, b]) == TrackedRun(rec, start[a][b], c[a, b], maxIterations, pass + 1)
    ensures forall r, b :: 0 <= r < c.Length0 && r != a && 0 <= b < c.Length1 ==>
      z[r, b] == old(z[r, b]) && divtime[r, b] == old(divtime[r, b]) && mask[r, b] == old(mask[r, b])
  {
    var b := 0;
    while b < c.Length1
      invariant 0 <= b <= c.Length1
      invariant forall k :: 0 <= k < c.Length1 ==>
        Tracked(z[a, k], divtime[a, k], mask[a, k]) ==
          TrackedRun(rec, start[a][k], c[a, k], maxIterations, if k < b then pass + 1 else pass)
      invariant forall r, k :: 0 <= r < c.Length0 && r != a && 0 <= k < c.Length1 ==>
        z[r, k] == old(z[r, k]) && divtime[r, k] == old(divtime[r, k]) && mask[r, k] == old(mask[r, k])
    {
      if mask[a, b] {
        z[a, b] := Step(rec, z[a, b], c[a, b]);
      }
      var diverged := Beyond2(z[a, b]);
      if diverged && mask[a, b] {
        divtime[a, b] := pass;
      }
      if diverged {
        mask[a, b] := false;
      }
      b := b + 1;
    }
  }

  /** `np.any(mask)`. */
  method AnyActive(mask: array2<bool>) returns (any: bool)
    ensures any <==> exists a, b :: 0 <= a < mask.Length0 && 0 <= b < mask.Length1 && mask[a, b]
  {
    var a := 0;
    while a < mask.Length0
      invariant 0 <= a <= mask.Length0
      invariant forall r, b :: 0 <= r < a && 0 <= b < mask.Length1 ==> !mask[r, b]
    {
      var b := 0;
      while b < mask.Length1
        invariant 0 <= b <= mask.Length1
        invariant forall k :: 0 <= k < b ==> !mask[a, k]
      {
        if mask[a, b] {
          return true;
        }
        b := b + 1;
      }
      a := a + 1;
    }
    return false;
  }

  /** The loop shared by the three generators. It runs the passes of
      `range(max_iterations)` but breaks once the mask is empty; the result is the one
      every pass would give, because an unmasked sample never changes again. */
  method EscapeLoop(rec: Recurrence, start: seq<seq<Complex>>, c: array2<Complex>, maxIterations: int)
    returns (divtime: array2<int>)
    requires |start| == c.Length0 && forall r :: 0 <= r < |start| ==> |start[r]| == c.Length1
    ensures fresh(divtime)
    ensures divtime.Length0 == c.Length0 && divtime.Length1 == c.Length1
    ensures forall a, b :: 0 <= a < c.Length0 && 0 <= b < c.Length1 ==>
      divtime[a, b] == TrackedRun(rec, start[a][b], c[a, b], maxIterations, Passes(maxIterations)).divtime
  {
    var h, w := c.Length0, c.Length1;
    var z := new Complex[h, w]((a, b) => if 0 <= a < |start| && 0 <= b < |start[a]| then start[a][b] else Zero);
    divtime := new int[h, w]((a, b) => maxIterations);
    var mask := new bool[h, w]((a, b) => true);
    var pass := 0;
    while pass < Passes(maxIterations)
      invariant 0 <= pass <= Passes(maxIterations)
      invariant AfterPasses(rec, start, c, maxIterations, z, divtime, mask, pass)
    {
      var a := 0;
      while a < h
        invariant 0 <= a <= h
        invariant forall r, b :: 0 <= r < h && 0 <= b < w ==>
          Tracked(z[r, b], divtime[r, b], mask[r, b]) ==
            TrackedRun(rec, start[r][b], c[r, b], maxIterations, if r < a then pass + 1 else pass)
      {
        PassRow(rec, start, c, maxIterations, z, divtime, mask, pass, a);
        a := a + 1;
      }
      pass := pass + 1;
      var any := AnyActive(mask);
      if !any {
        forall a, b | 0 <= a < h && 0 <= b < w
          ensures divtime[a, b] ==
            TrackedRun(rec, start[a][b], c[a, b], maxIterations, Passes(maxIterations)).divtime
        {
          assert !mask[a, b];
          assert Tracked(z[a, b], divtime[a, b], mask[a, b]) == TrackedRun(rec, start[a][b], c[a, b], maxIterations, pass);
          TrackedFrozen(rec, start[a][b], c[a, b], maxIterations, pass, Passes(maxIterations));
        }
        return;
      }
    }
  }

  /** `julia_set(h, w, c, max_iterations)`: z_0 is the grid point of [-1.5, 1.5]², c is fixed. */
  method JuliaSet(h: nat, w: nat, c: Complex, maxIterations: int) returns (divtime: array2<int>)
    ensures fresh(divtime) && divtime.Length0 == h && divtime.Length1 == w
    ensures var xs := Linspace(-1.5, 1.5, w); var ys := Linspace(-1.5, 1.5, h);
      forall a, b :: 0 <= a < h && 0 <= b < w ==>
        divtime[a, b] == TrackedRun(Quadratic, GridPoint(xs, ys, a, b), c, maxIterations, Passes(maxIterations)).divtime
  {
    var xs := Linspace(-1.5, 1.5, w);
    var ys := Linspace(-1.5, 1.5, h);
    var start := seq(h, a requires 0 <= a < h => seq(w, b requires 0 <= b < w => GridPoint(xs, ys, a, b)));
    var cs := new Complex[h, w]((a, b) => c);
    divtime := EscapeLoop(Quadratic, start, cs, maxIterations);
  }

  /** `generate_mandelbrot` and `generate_burning_ship`: z_0 = 0 and c is the grid point of
      the given rectangle. */
  method GenerateOnGrid(rec: Recurrence, width: nat, height: nat, maxIterations: int,
                        xMin: real, xMax: real, yMin: real, yMax: real)
    returns (divtime: array2<int>)
    ensures fresh(divtime) && divtime.Length0 == height && divtime.Length1 == width
    ensures var xs := Linspace(xMin, xMax, width); var ys := Linspace(yMin, yMax, height);
      forall a, b :: 0 <= a < height && 0 <= b < width ==>
        divtime[a, b] == TrackedRun(rec, Zero, GridPoint(xs, ys, a, b), maxIterations, Passes(maxIterations)).divtime
  {
    var xs := Linspace(xMin, xMax, width);
    var ys := Linspace(yMin, yMax, height);
    var start := seq(height, a requires 0 <= a < height => seq(width, b requires 0 <= b < width => Zero));
    var cs := new Complex[height, width]((a, b) =>
      if 0 <= a < |ys| && 0 <= b < |xs| then GridPoint(xs, ys, a, b) else Zero);
    divtime := EscapeLoop(rec, start, cs, maxIterations);
  }

  method GenerateMandelbrot(width: nat, height: nat, maxIterations: int,
                            xMin: real, xMax: real, yMin: real, yMax: real)
    returns (divtime: array2<int>)
    ensures fresh(divtime) && divtime.Length0 == height && divtime.Length1 == width
    ensures var xs := Linspace(xMin, xMax, width); var ys := Linspace(yMin, yMax, height);
      forall a, b :: 0 <= a < height && 0 <= b < width ==>
        divtime[a, b] == TrackedRun(Quadratic, Zero, GridPoint(xs, ys, a, b), maxIterations, Passes(maxIterations)).divtime
  {
    divtime := GenerateOnGrid(Quadratic, width, height, maxIterations, xMin, xMax, yMin, yMax);
  }

  /** The burning-ship step folds both parts of z to their absolute values before squaring. */
  method GenerateBurningShip(width: nat, height: nat, maxIterations: int,
                             xMin: real, xMax: real, yMin: real, yMax: real)
    returns (divtime: array2<int>)
    ensures fresh(divtime) && divtime.Length0 == height && divtime.Length1 == width
    ensures var xs := Linspace(xMin, xMax, width); var ys := Linspace(yMin, yMax, height);
      forall a, b :: 0 <= a < height && 0 <= b < width ==>
        divtime[a, b] == TrackedRun(BurningShip, Zero, GridPoint(xs, ys, a, b), maxIterations, Passes(maxIterations)).divtime
  {
    divtime := GenerateOnGrid(BurningShip, width, height, maxIterations, xMin, xMax, yMin, yMax);
  }

  /** Every entry lies in [0, max_iterations]: the sentinel, or an iteration index. */
  lemma DivtimeInRange(rec: Recurrence, z0: Complex, c: Complex, maxIterations: int)
    requires maxIterations >= 0
    ensures 0 <= TrackedRun(rec, z0, c, maxIterations, Passes(maxIterations)).divtime <= maxIterations
  {
    TrackedBounds(rec, z0, c, maxIterations, Passes(maxIterations));
  }

  /** The burning-ship step is z <- (|Re z| + i|Im z|)² + c. */
  lemma BurningShipStep(z: Complex, c: Complex)
    ensures var f := Step(BurningShip, z, c);
      var r := if z.re < 0.0 then -z.re else z.re;
      var i := if z.im < 0.0 then -z.im else z.im;
      f == Complex(r * r - i * i + c.re, 2.0 * r * i + c.im)
  {
  }
}
