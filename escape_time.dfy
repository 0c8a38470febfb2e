/** The per-sample state machines behind the three escape-time loops of the repository.
    Each array loop in the source applies one step to every sample at once; here one
    sample's step is a function, and the loops (mandelbrot_julia.dfy, claude_explorer.dfy,
    legacy_julia.dfy) are proved to apply it to every cell. */
module EscapeTime {
  import opened Complex

  /** The recurrence z <- f(z, c). */
  datatype Recurrence = Quadratic | BurningShip

  function Step(rec: Recurrence, z: Complex, c: Complex): Complex
  {
    match rec
    case Quadratic => Add(Square(z), c)
    case BurningShip => Add(Square(FoldAbs(z)), c)
  }

  /** The unmasked orbit: z_0 = z0, z_(k+1) = f(z_k, c). */
  function Orbit(rec: Recurrence, z0: Complex, c: Complex, k: nat): Complex
  {
    if k == 0 then z0 else Step(rec, Orbit(rec, z0, c, k - 1), c)
  }

  // ---------------------------------------------------------------------------
  // MandelbrotJulia.calculate: mask |z| < R, step, record i + 1 where |z| >= R.
  // ---------------------------------------------------------------------------

  /** `np.abs(z) < r`, stated without a square root (false for every z when r <= 0). */
  predicate Inside(z: Complex, r: real)
  {
    r > 0.0 && AbsSq(z) < r * r
  }

  /** One cell of `Z` and `result`. */
  datatype Sample = Sample(z: Complex, count: int)

  /** Iteration `i` of the loop for one cell: only a cell still inside the radius is
      stepped, and it is recorded as `i + 1` when the step takes it out. */
  function MaskedStep(s: Sample, c: Complex, r: real, i: int): Sample
  {
    if Inside(s.z, r) then
      var z' := Step(Quadratic, s.z, c);
      Sample(z', if Inside(z', r) then s.count else i + 1)
    else s
  }

  /** The cell after `n` iterations, starting from `z0` with count 0. */
  function MaskedRun(z0: Complex, c: Complex, r: real, n: nat): Sample
  {
    if n == 0 then Sample(z0, 0) else MaskedStep(MaskedRun(z0, c, r, n - 1), c, r, n - 1)
  }

  lemma {:induction false} MaskedRunBounds(z0: Complex, c: Complex, r: real, n: nat)
    ensures 0 <= MaskedRun(z0, c, r, n).count <= n
  {
    if n > 0 {
      MaskedRunBounds(z0, c, r, n - 1);
    }
  }

  /** While every earlier orbit point is inside, the cell follows the orbit and is
      recorded exactly when the current point is outside. */
  lemma {:induction false} MaskedRunWhileInside(z0: Complex, c: Complex, r: real, n: nat)
    requires forall j :: 0 <= j < n ==> Inside(Orbit(Quadratic, z0, c, j), r)
    ensures MaskedRun(z0, c, r, n).z == Orbit(Quadratic, z0, c, n)
    ensures MaskedRun(z0, c, r, n).count ==
      (if n > 0 && !Inside(Orbit(Quadratic, z0, c, n), r) then n else 0)
  {
    if n > 0 {
      MaskedRunWhileInside(z0, c, r, n - 1);
      assert Inside(Orbit(Quadratic, z0, c, n - 1), r);
    }
  }

  /** Once the orbit has left at step k, the cell is frozen at z_k with count k (or 0
      when it started outside). */
  lemma {:induction false} MaskedRunAfterExit(z0: Complex, c: Complex, r: real, n: nat, k: nat)
    requires k <= n
    requires forall j :: 0 <= j < k ==> Inside(Orbit(Quadratic, z0, c, j), r)
    requires !Inside(Orbit(Quadratic, z0, c, k), r)
    ensures MaskedRun(z0, c, r, n) == Sample(Orbit(Quadratic, z0, c, k), if k > 0 then k else 0)
  {
    if n == k {
      MaskedRunWhileInside(z0, c, r, k);
    } else {
      MaskedRunAfterExit(z0, c, r, n - 1, k);
    }
  }

  /** The first orbit index in 0..n that is outside the radius, or -1 when there is none. */
  lemma {:induction false} FirstOutside(rec: Recurrence, z0: Complex, c: Complex, r: real, n: nat)
    returns (e: int)
    ensures -1 <= e <= n
    ensures forall j :: 0 <= j <= n && (e == -1 || j < e) ==> Inside(Orbit(rec, z0, c, j), r)
    ensures e >= 0 ==> !Inside(Orbit(rec, z0, c, e), r)
  {
    if n == 0 {
      e := if Inside(z0, r) then -1 else 0;
    } else {
      e := FirstOutside(rec, z0, c, r, n - 1);
      if e == -1 && !Inside(Orbit(rec, z0, c, n), r) {
        e := n;
      }
    }
  }

  /** A recorded count k > 0 means exactly: z_0 .. z_(k-1) are inside the radius and z_k
      is not, with k within the iteration budget (the first escape, 1-indexed). */
  lemma EscapeCountIsFirstEscape(z0: Complex, c: Complex, r: real, n: nat, k: int)
    ensures (k > 0 && MaskedRun(z0, c, r, n).count == k) <==>
      (1 <= k <= n && (forall j :: 0 <= j < k ==> Inside(Orbit(Quadratic, z0, c, j), r))
       && !Inside(Orbit(Quadratic, z0, c, k), r))
  {
    var e := FirstOutside(Quadratic, z0, c, r, n);
    if e == -1 {
      MaskedRunWhileInside(z0, c, r, n);
      if 1 <= k <= n {
        assert Inside(Orbit(Quadratic, z0, c, k), r);
      }
    } else {
      MaskedRunAfterExit(z0, c, r, n, e);
    }
  }

  /** Once a cell is outside the radius its z and its count never change again. */
  lemma {:induction false} MaskedRunFrozen(z0: Complex, c: Complex, r: real, n: nat, m: nat)
    requires n <= m
    requires !Inside(MaskedRun(z0, c, r, n).z, r)
    ensures MaskedRun(z0, c, r, m) == MaskedRun(z0, c, r, n)
  {
    if m > n {
      MaskedRunFrozen(z0, c, r, n, m - 1);
    }
  }

  /** A cell that starts outside is never recorded: it stays 0, like an interior point. */
  lemma StartOutsideStaysZero(z0: Complex, c: Complex, r: real, n: nat)
    requires !Inside(z0, r)
    ensures MaskedRun(z0, c, r, n) == Sample(z0, 0)
  {
    MaskedRunAfterExit(z0, c, r, n, 0);
  }

  // ---------------------------------------------------------------------------
  // The generators of CLAUDE_fractal_app/test_claude_exp.py: step the masked cells,
  // record the 0-indexed iteration where |z| > 2 first holds, then unmask.
  // ---------------------------------------------------------------------------

  /** `np.abs(z) > 2`, also `z * conj(z) > 2**2`. */
  predicate Beyond2(z: Complex)
  {
    AbsSq(z) > 4.0
  }

  /** One cell of `z`, `divtime` and `mask`. */
  datatype Tracked = Tracked(z: Complex, divtime: int, active: bool)

  function TrackedStep(rec: Recurrence, s: Tracked, c: Complex, i: int): Tracked
  {
    if s.active then
      var z' := Step(rec, s.z, c);
      if Beyond2(z') then Tracked(z', i, false) else Tracked(z', s.divtime, true)
    else s
  }

  /** The cell after `n` iterations; `divtime` starts at `maxIterations`. */
  function TrackedRun(rec: Recurrence, z0: Complex, c: Complex, maxIterations: int, n: nat): Tracked
  {
    if n == 0 then Tracked(z0, maxIterations, true)
    else TrackedStep(rec, TrackedRun(rec, z0, c, maxIterations, n - 1), c, n - 1)
  }

  lemma {:induction false} TrackedWhileQuiet(rec: Recurrence, z0: Complex, c: Complex, maxIterations: int, n: nat)
    requires forall j :: 1 <= j < n ==> !Beyond2(Orbit(rec, z0, c, j))
    ensures TrackedRun(rec, z0, c, maxIterations, n) ==
      if n > 0 && Beyond2(Orbit(rec, z0, c, n)) then Tracked(Orbit(rec, z0, c, n), n - 1, false)
      else Tracked(Orbit(rec, z0, c, n), maxIterations, true)
  {
    if n > 0 {
      TrackedWhileQuiet(rec, z0, c, maxIterations, n - 1);
      if n - 1 > 0 {
        assert !Beyond2(Orbit(rec, z0, c, n - 1));
      }
    }
  }

  lemma {:induction false} TrackedAfterEscape(rec: Recurrence, z0: Complex, c: Complex, maxIterations: int, n: nat, k: nat)
    requires 1 <= k <= n
    requires forall j :: 1 <= j < k ==> !Beyond2(Orbit(rec, z0, c, j))
    requires Beyond2(Orbit(rec, z0, c, k))
    ensures TrackedRun(rec, z0, c, maxIterations, n) == Tracked(Orbit(rec, z0, c, k), k - 1, false)
  {
    if n == k {
      TrackedWhileQuiet(rec, z0, c, maxIterations, k);
    } else {
      TrackedAfterEscape(rec, z0, c, maxIterations, n - 1, k);
    }
  }

  /** The first orbit index in 1..n beyond radius 2, or 0 when there is none. */
  lemma {:induction false} FirstBeyond(rec: Recurrence, z0: Complex, c: Complex, n: nat) returns (e: nat)
    ensures e <= n
    ensures forall j :: 1 <= j <= n && (e == 0 || j < e) ==> !Beyond2(Orbit(rec, z0, c, j))
    ensures e > 0 ==> Beyond2(Orbit(rec, z0, c, e))
  {
    if n == 0 {
      e := 0;
    } else {
      e := FirstBeyond(rec, z0, c, n - 1);
      if e == 0 && Beyond2(Orbit(rec, z0, c, n)) {
        e := n;
      }
    }
  }

  /** Two indices that are each the first orbit point beyond radius 2 coincide. */
  lemma FirstEscapeUnique(rec: Recurrence, z0: Complex, c: Complex, a: nat, b: nat)
    requires 1 <= a && 1 <= b
    requires forall j :: 1 <= j < a ==> !Beyond2(Orbit(rec, z0, c, j))
    requires Beyond2(Orbit(rec, z0, c, a))
    requires forall j :: 1 <= j < b ==> !Beyond2(Orbit(rec, z0, c, j))
    requires Beyond2(Orbit(rec, z0, c, b))
    ensures a == b
  {
  }

  /** A cell is unmasked with divtime k exactly when z_(k+1) is the first orbit point
      with |z| > 2 and k is one of the iterations run (the first escape, 0-indexed);
      a cell still masked has never exceeded 2 and keeps divtime = maxIterations. */
  lemma DivtimeIsFirstEscape(rec: Recurrence, z0: Complex, c: Complex, maxIterations: int, n: nat, k: int)
    ensures var s := TrackedRun(rec, z0, c, maxIterations, n);
      (!s.active && s.divtime == k) <==>
      (0 <= k < n && (forall j :: 1 <= j <= k ==> !Beyond2(Orbit(rec, z0, c, j)))
       && Beyond2(Orbit(rec, z0, c, k + 1)))
    ensures var s := TrackedRun(rec, z0, c, maxIterations, n);
      s.active <==> (forall j :: 1 <= j <= n ==> !Beyond2(Orbit(rec, z0, c, j)))
    ensures var s := TrackedRun(rec, z0, c, maxIterations, n);
      s.active ==> s.divtime == maxIterations
  {
    var e := FirstBeyond(rec, z0, c, n);
    if e == 0 {
      TrackedWhileQuiet(rec, z0, c, maxIterations, n);
      if 0 <= k < n {
        assert !Beyond2(Orbit(rec, z0, c, k + 1));
      }
    } else {
      TrackedAfterEscape(rec, z0, c, maxIterations, n, e);
      assert !(forall j :: 1 <= j <= n ==> !Beyond2(Orbit(rec, z0, c, j)));
    }
  }

  /** Every divtime is either the initial maxIterations or an iteration index run so far. */
  lemma {:induction false} TrackedBounds(rec: Recurrence, z0: Complex, c: Complex, maxIterations: int, n: nat)
    ensures var s := TrackedRun(rec, z0, c, maxIterations, n);
      s.divtime == maxIterations || 0 <= s.divtime < n
    ensures TrackedRun(rec, z0, c, maxIterations, n).active ==>
      TrackedRun(rec, z0, c, maxIterations, n).divtime == maxIterations
  {
    if n > 0 {
      TrackedBounds(rec, z0, c, maxIterations, n - 1);
    }
  }

  /** An unmasked cell is a fixed point of the loop body: running more iterations
      changes nothing, which is why the early `break` is harmless. */
  lemma {:induction false} TrackedFrozen(rec: Recurrence, z0: Complex, c: Complex, maxIterations: int, n: nat, m: nat)
    requires n <= m
    requires !TrackedRun(rec, z0, c, maxIterations, n).active
    ensures TrackedRun(rec, z0, c, maxIterations, m) == TrackedRun(rec, z0, c, maxIterations, n)
  {
    if m > n {
      TrackedFrozen(rec, z0, c, maxIterations, n, m - 1);
    }
  }

  // ---------------------------------------------------------------------------
  // julia_set of test_claude_exp.py: step every cell, record the first iteration
  // with |z|² > 4 while divtime is still the sentinel, then reset diverged z to 2.
  // ---------------------------------------------------------------------------

  const Two := Complex(2.0, 0.0)

  /** One cell of `z` and `divtime`. */
  datatype Legacy = Legacy(z: Complex, divtime: int)

  function LegacyStep(s: Legacy, c: Complex, i: int, maxIterations: int): Legacy
  {
    var z' := Step(Quadratic, s.z, c);
    if Beyond2(z') then Legacy(Two, if s.divtime == maxIterations then i else s.divtime)
    else Legacy(z', s.divtime)
  }

  function LegacyRun(z0: Complex, c: Complex, maxIterations: int, n: nat): Legacy
  {
    if n == 0 then Legacy(z0, maxIterations)
    else LegacyStep(LegacyRun(z0, c, maxIterations, n - 1), c, n - 1, maxIterations)
  }

  lemma {:induction false} LegacyWhileQuiet(z0: Complex, c: Complex, maxIterations: int, n: nat)
    requires forall j :: 1 <= j < n ==> !Beyond2(Orbit(Quadratic, z0, c, j))
    ensures LegacyRun(z0, c, maxIterations, n) ==
      if n > 0 && Beyond2(Orbit(Quadratic, z0, c, n)) then Legacy(Two, n - 1)
      else Legacy(Orbit(Quadratic, z0, c, n), maxIterations)
  {
    if n > 0 {
      LegacyWhileQuiet(z0, c, maxIterations, n - 1);
      if n - 1 > 0 {
        assert !Beyond2(Orbit(Quadratic, z0, c, n - 1));
      }
    }
  }

  lemma {:induction false} LegacyAfterEscape(z0: Complex, c: Complex, maxIterations: int, n: nat, k: nat)
    requires 1 <= k <= n <= maxIterations
    requires forall j :: 1 <= j < k ==> !Beyond2(Orbit(Quadratic, z0, c, j))
    requires Beyond2(Orbit(Quadratic, z0, c, k))
    ensures LegacyRun(z0, c, maxIterations, n).divtime == k - 1
  {
    if n == k {
      LegacyWhileQuiet(z0, c, maxIterations, k);
    } else {
      LegacyAfterEscape(z0, c, maxIterations, n - 1, k);
    }
  }

  /** Within the budget, divtime is k < maxIterations exactly when z_(k+1) of the plain
      orbit is the first point with |z|² > 4: the resets to 2 only happen after the
      first divergence, so they never move the recorded iteration. */
  lemma LegacyDivtimeIsFirstEscape(z0: Complex, c: Complex, maxIterations: int, n: nat, k: int)
    requires n <= maxIterations
    ensures (k != maxIterations && LegacyRun(z0, c, maxIterations, n).divtime == k) <==>
      (0 <= k < n && (forall j :: 1 <= j <= k ==> !Beyond2(Orbit(Quadratic, z0, c, j)))
       && Beyond2(Orbit(Quadratic, z0, c, k + 1)))
  {
    var e := FirstBeyond(Quadratic, z0, c, n);
    if e == 0 {
      LegacyWhileQuiet(z0, c, maxIterations, n);
      if 0 <= k < n {
        assert !Beyond2(Orbit(Quadratic, z0, c, k + 1));
      }
    } else {
      LegacyAfterEscape(z0, c, maxIterations, n, e);
      assert Beyond2(Orbit(Quadratic, z0, c, (e - 1) + 1));
      if 0 <= k < n && (forall j :: 1 <= j <= k ==> !Beyond2(Orbit(Quadratic, z0, c, j)))
         && Beyond2(Orbit(Quadratic, z0, c, k + 1)) {
        FirstEscapeUnique(Quadratic, z0, c, k + 1, e);
      }
    }
  }

  /** A divtime, once assigned, is never reassigned (the sentinel check). */
  lemma {:induction false} LegacyAssignedOnce(z0: Complex, c: Complex, maxIterations: int, n: nat, m: nat)
    requires n <= m <= maxIterations
    requires LegacyRun(z0, c, maxIterations, n).divtime != maxIterations
    ensures LegacyRun(z0, c, maxIterations, m).divtime == LegacyRun(z0, c, maxIterations, n).divtime
  {
    if m > n {
      LegacyAssignedOnce(z0, c, maxIterations, n, m - 1);
    }
  }

  lemma {:induction false} LegacyBounds(z0: Complex, c: Complex, maxIterations: int, n: nat)
    requires n <= maxIterations
    ensures 0 <= LegacyRun(z0, c, maxIterations, n).divtime <= maxIterations
  {
    if n > 0 {
      LegacyBounds(z0, c, maxIterations, n - 1);
    }
  }
}
