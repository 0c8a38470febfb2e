/** `julia_set` of the first explorer (test_claude_exp.py): no mask. Every sample is
    stepped in every pass, a sample beyond radius 2 is recorded only while its divtime is
    still the sentinel `max_iterations`, and is then reset to z = 2. */
module LegacyJulia {
  import opened Complex
  import opened EscapeTime
  import opened Sampling

  function Passes(maxIterations: int): nat
  {
    if maxIterations > 0 then maxIterations else 0
  }

  /** One pass over row a. */
  method PassRow(start: seq<seq<Complex>>, c: Complex, maxIterations: int,
                 z: array2<Complex>, divtime: array2<int>, pass: nat, a: int)
    requires |start| == z.Length0 && forall r :: 0 <= r < |start| ==> |start[r]| == z.Length1
    requires divtime.Length0 == z.Length0 && divtime.Length1 == z.Length1
    requires 0 <= a < z.Length0
    requires forall b :: 0 <= b < z.Length1 ==>
      Legacy(z[a, b], divtime[a, b]) == LegacyRun(start[a][b], c, maxIterations, pass)
    modifies z, divtime
    ensures forall b :: 0 <= b < z.Length1 ==>
      Legacy(z[a, b], divtime[a, b]) == LegacyRun(start[a][b], c, maxIterations, pass + 1)
    ensures forall r, b :: 0 <= r < z.Length0 && r != a && 0 <= b < z.Length1 ==>
      z[r, b] == old(z[r, b]) && divtime[r, b] == old(divtime[r, b])
  {
    var b := 0;
    while b < z.Length1
      invariant 0 <= b <= z.Length1
      invariant forall k :: 0 <= k < z.Length1 ==>
        Legacy(z[a, k], divtime[a, k]) == LegacyRun(start[a][k], c, maxIterations, if k < b then pass + 1 else pass)
      invariant forall r, k :: 0 <= r < z.Length0 && r != a && 0 <= k < z.Length1 ==>
        z[r, k] == old(z[r, k]) && divtime[r, k] == old(divtime[r, k])
    {
      z[a, b] := Step(Quadratic, z[a, b], c);
      var diverge := Beyond2(z[a, b]);
      if diverge && divtime[a, b] == maxIterations {
        divtime[a, b] := pass;
      }
      if diverge {
        z[a, b] := Two;
      }
      b := b + 1;
    }
  }

  /** `julia_set(h, w, c, max_iterations)` over the `np.ogrid` of [-1.5, 1.5]²; the loop
      always makes every pass. */
  method JuliaSet(h: nat, w: nat, c: Complex, maxIterations: int) returns (divtime: array2<int>)
    ensures fresh(divtime) && divtime.Length0 == h && divtime.Length1 == w
    ensures var xs := Linspace(-1.5, 1.5, w); var ys := Linspace(-1.5, 1.5, h);
      forall a, b :: 0 <= a < h && 0 <= b < w ==>
        divtime[a, b] == LegacyRun(GridPoint(xs, ys, a, b), c, maxIterations, Passes(maxIterations)).divtime
  {
    var xs := Linspace(-1.5, 1.5, w);
    var ys := Linspace(-1.5, 1.5, h);
    var start := seq(h, a requires 0 <= a < h => seq(w, b requires 0 <= b < w => GridPoint(xs, ys, a, b)));
    var z := new Complex[h, w]((a, b) => if 0 <= a < |start| && 0 <= b < |start[a]| then start[a][b] else Zero);
    divtime := new int[h, w]((a, b) => maxIterations);
    var pass := 0;
    while pass < Passes(maxIterations)
      invariant 0 <= pass <= Passes(maxIterations)
      invariant forall a, b :: 0 <= a < h && 0 <= b < w ==>
        Legacy(z[a, b], divtime[a, b]) == LegacyRun(start[a][b], c, maxIterations, pass)
    {
      var a := 0;
      while a < h
        invariant 0 <= a <= h
        invariant forall r, b :: 0 <= r < h && 0 <= b < w ==>
          Legacy(z[r, b], divtime[r, b]) == LegacyRun(start[r][b], c, maxIterations, if r < a then pass + 1 else pass)
      {
        PassRow(start, c, maxIterations, z, divtime, pass, a);
        a := a + 1;
      }
      pass := pass + 1;
    }
  }

  /** After every pass no sample is beyond radius 2: a diverged sample sits at z = 2. */
  lemma NoSampleBeyondAfterPass(z0: Complex, c: Complex, maxIterations: int, n: nat)
    requires n >= 1
    ensures !Beyond2(LegacyRun(z0, c, maxIterations, n).z)
    ensures Beyond2(Step(Quadratic, LegacyRun(z0, c, maxIterations, n - 1).z, c)) ==>
      LegacyRun(z0, c, maxIterations, n).z == Two
  {
  }

  /** Every entry lies in [0, max_iterations]. */
  lemma DivtimeInRange(z0: Complex, c: Complex, maxIterations: int)
    requires maxIterations >= 0
    ensures 0 <= LegacyRun(z0, c, maxIterations, Passes(maxIterations)).divtime <= maxIterations
  {
    LegacyBounds(z0, c, maxIterations, Passes(maxIterations));
  }
}
