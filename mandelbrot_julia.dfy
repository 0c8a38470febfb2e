/** `MandelbrotJulia`: the one concrete fractal. Its `calculate` iterates z <- z² + c on
    a `linspace` grid under an escape-radius mask and records the 1-indexed iteration at
    which each sample first leaves the radius. */
module MandelbrotJulia {
  import opened Common
  import opened ParamBag
  import opened Complex
  import opened EscapeTime
  import opened Sampling
  import opened Fractal

  /** The parameter dictionary the constructor installs. */
  function DefaultParams(): Bag
  {
    map["max_iter" := VInt(100), "escape_radius" := VReal(2.0),
        "c_real" := VReal(-0.7), "c_imag" := VReal(0.27015),
        "z_real" := VReal(0.0), "z_imag" := VReal(0.0),
        "is_julia" := VBool(false)]
  }

  /** `MandelbrotJulia(width, height)`: the base initialiser, then the defaults. */
  method New(width: int, height: int) returns (f: FractalBase)
    ensures fresh(f)
    ensures f.width == width && f.height == height
    ensures f.params == DefaultParams()
  {
    f := new FractalBase(width, height);
    f.params := DefaultParams();
  }

  /** `get_params`: a copy, so later changes to either side do not reach the other. */
  method GetParams(f: FractalBase) returns (p: Bag)
    ensures p == f.params
  {
    p := f.params;
  }

  /** `set_params`: overwrite the parameters already present, ignore the rest. */
  method SetParams(f: FractalBase, updates: Bag)
    modifies f
    ensures f.params == Merge(old(f.params), updates)
    ensures f.width == old(f.width) && f.height == old(f.height)
  {
    f.params := MergeParams(f.params, updates);
  }

  /** What `calculate` reads from the parameters before its loop. */
  datatype Setup = Setup(steps: nat, radius: real, julia: bool, z0: Complex, c: Complex)

  /** The number of passes `range(max_iter)` makes, or None when it raises TypeError. */
  function RangeLength(v: Value): Option<nat>
  {
    match v
    case VBool(b) => Some(if b then 1 else 0)
    case VInt(i) => Some(if i > 0 then i else 0)
    case VReal(_) => None
  }

  /** Lines 54-77 of `calculate`, with the exception they raise: a negative size makes
      `linspace`/`zeros` raise ValueError, a missing key raises KeyError (only the keys
      of the chosen mode are read), and a float `max_iter` makes `range` raise TypeError. */
  function Prepare(width: int, height: int, params: Bag): Outcome<Setup>
  {
    if width < 0 || height < 0 then Raised("ValueError")
    else if "max_iter" !in params || "escape_radius" !in params || "is_julia" !in params then
      Raised("KeyError")
    else
      var julia := Truthy(params["is_julia"]);
      var keys := if julia then ["c_real", "c_imag"] else ["z_real", "z_imag"];
      if keys[0] !in params || keys[1] !in params then Raised("KeyError")
      else
        var given := Complex(AsReal(params[keys[0]]), AsReal(params[keys[1]]));
        match RangeLength(params["max_iter"])
        case None => Raised("TypeError")
        case Some(n) =>
          Ok(Setup(n, AsReal(params["escape_radius"]), julia,
                   if julia then Zero else given, if julia then given else Zero))
  }

  /** The starting z of the sample at grid point p: the grid point for a Julia set,
      the fixed (z_real, z_imag) for the Mandelbrot set. */
  function Start(s: Setup, p: Complex): Complex
  {
    if s.julia then p else s.z0
  }

  /** The constant c of the sample at grid point p. */
  function Constant(s: Setup, p: Complex): Complex
  {
    if s.julia then s.c else p
  }

  /** The recorded count of the sample at row i, column j after `n` passes. */
  function CellAfter(s: Setup, xs: seq<real>, ys: seq<real>, i: int, j: int, n: nat): Sample
    requires 0 <= i < |ys| && 0 <= j < |xs|
  {
    var p := GridPoint(xs, ys, i, j);
    MaskedRun(Start(s, p), Constant(s, p), s.radius, n)
  }

  /** The value `calculate` returns or the exception it raises. In Julia mode the scalar
      `c` is indexed as `c[mask]` in the first pass, which raises TypeError, so only a
      Julia set with no passes returns (all zeros). */
  function Field(width: int, height: int, params: Bag, xMin: real, xMax: real, yMin: real, yMax: real)
    : (r: Outcome<seq<seq<int>>>)
    ensures r.Ok? ==>
      width >= 0 && height >= 0 && |r.value| == height && forall row :: row in r.value ==> |row| == width
  {
    match Prepare(width, height, params)
    case Raised(e) => Raised(e)
    case Ok(s) =>
      if s.julia && s.steps >= 1 then Raised("TypeError")
      else
        var xs := Linspace(xMin, xMax, width);
        var ys := Linspace(yMin, yMax, height);
        Ok(seq(height, i requires 0 <= i < height =>
             seq(width, j requires 0 <= j < width => CellAfter(s, xs, ys, i, j, s.steps).count)))
  }

  /** The cells of `z` and `result` hold the state after `n` passes. */
  ghost predicate AfterPasses(z: array2<Complex>, result: array2<int>, s: Setup,
                              xs: seq<real>, ys: seq<real>, n: nat)
    reads z, result
    requires z.Length0 == result.Length0 == |ys| && z.Length1 == result.Length1 == |xs|
  {
    forall i, j :: 0 <= i < |ys| && 0 <= j < |xs| ==>
      Sample(z[i, j], result[i, j]) == CellAfter(s, xs, ys, i, j, n)
  }

  /** One pass of the loop over row i: every cell of the row is stepped once under the
      mask; the other rows are untouched. */
  method PassRow(z: array2<Complex>, result: array2<int>, s: Setup, xs: seq<real>, ys: seq<real>,
                 pass: nat, i: int)
    requires z != result as object
    requires z.Length0 == result.Length0 == |ys| && z.Length1 == result.Length1 == |xs|
    requires 0 <= i < |ys|
    requires forall b :: 0 <= b < |xs| ==> Sample(z[i, b], result[i, b]) == CellAfter(s, xs, ys, i, b, pass)
    modifies z, result
    ensures forall b :: 0 <= b < |xs| ==> Sample(z[i, b], result[i, b]) == CellAfter(s, xs, ys, i, b, pass + 1)
    ensures forall a, b :: 0 <= a < |ys| && a != i && 0 <= b < |xs| ==>
      z[a, b] == old(z[a, b]) && result[a, b] == old(result[a, b])
  {
    var j := 0;
    while j < |xs|
      invariant 0 <= j <= |xs|
      invariant forall b :: 0 <= b < |xs| ==>
        Sample(z[i, b], result[i, b]) == CellAfter(s, xs, ys, i, b, if b < j then pass + 1 else pass)
      invariant forall a, b :: 0 <= a < |ys| && a != i && 0 <= b < |xs| ==>
        z[a, b] == old(z[a, b]) && result[a, b] == old(result[a, b])
    {
      var c := Constant(s, GridPoint(xs, ys, i, j));
      if Inside(z[i, j], s.radius) {
        z[i, j] := Step(Quadratic, z[i, j], c);
        if !Inside(z[i, j], s.radius) {
          result[i, j] := pass + 1;
        }
      }
      j := j + 1;
    }
  }

  /** One iteration of the `for i in range(max_iter)` loop, over every cell. */
  method Pass(z: array2<Complex>, result: array2<int>, s: Setup, xs: seq<real>, ys: seq<real>, pass: nat)
    requires z != result as object
    requires z.Length0 == result.Length0 == |ys| && z.Length1 == result.Length1 == |xs|
    requires AfterPasses(z, result, s, xs, ys, pass)
    modifies z, result
    ensures AfterPasses(z, result, s, xs, ys, pass + 1)
  {
    var i := 0;
    while i < |ys|
      invariant 0 <= i <= |ys|
      invariant forall a, b :: 0 <= a < |ys| && 0 <= b < |xs| ==>
        Sample(z[a, b], result[a, b]) == CellAfter(s, xs, ys, a, b, if a < i then pass + 1 else pass)
    {
      PassRow(z, result, s, xs, ys, pass, i);
      i := i + 1;
    }
  }

  /** `calculate(x_min, x_max, y_min, y_max)`. Each pass visits every cell; a cell inside
      the radius is stepped and, if the step takes it out, recorded as `pass + 1`. */
  method Calculate(f: FractalBase, xMin: real, xMax: real, yMin: real, yMax: real)
    returns (out: Outcome<array2<int>>)
    ensures Prepare(f.width, f.height, f.params).Raised? ==>
      out == Raised(Prepare(f.width, f.height, f.params).error)
    ensures Prepare(f.width, f.height, f.params).Ok? ==>
      var s := Prepare(f.width, f.height, f.params).value;
      if s.julia && s.steps >= 1 then out == Raised("TypeError")
      else
        var xs := Linspace(xMin, xMax, f.width);
        var ys := Linspace(yMin, yMax, f.height);
        out.Ok? && fresh(out.value) && out.value.Length0 == f.height && out.value.Length1 == f.width
        && forall i, j :: 0 <= i < f.height && 0 <= j < f.width ==>
          out.value[i, j] == CellAfter(s, xs, ys, i, j, s.steps).count
  {
    var prepared := Prepare(f.width, f.height, f.params);
    if prepared.Raised? {
      return Raised(prepared.error);
    }
    var s := prepared.value;
    var h, w := f.height, f.width;
    var xs := Linspace(xMin, xMax, w);
    var ys := Linspace(yMin, yMax, h);
    var result := new int[h, w]((i, j) => 0);
    var z := new Complex[h, w]((i, j) =>
      if 0 <= i < |ys| && 0 <= j < |xs| then Start(s, GridPoint(xs, ys, i, j)) else s.z0);
    var pass := 0;
    while pass < s.steps
      invariant 0 <= pass <= s.steps
      invariant AfterPasses(z, result, s, xs, ys, pass)
      invariant s.julia ==> pass == 0
    {
      if s.julia {
        return Raised("TypeError");
      }
      Pass(z, result, s, xs, ys, pass);
      pass := pass + 1;
    }
    return Ok(result);
  }

  /** `Field` is what `Calculate` produces: it raises exactly when the parameters cannot
      be read or a Julia pass runs, and otherwise holds the counts after every pass. */
  lemma FieldCells(width: int, height: int, params: Bag, xMin: real, xMax: real, yMin: real, yMax: real)
    ensures Prepare(width, height, params).Raised? ==>
      Field(width, height, params, xMin, xMax, yMin, yMax) == Raised(Prepare(width, height, params).error)
    ensures Prepare(width, height, params).Ok? ==>
      var s := Prepare(width, height, params).value;
      var xs := Linspace(xMin, xMax, width);
      var ys := Linspace(yMin, yMax, height);
      var g := Field(width, height, params, xMin, xMax, yMin, yMax);
      if s.julia && s.steps >= 1 then g == Raised("TypeError")
      else g.Ok? && forall i, j :: 0 <= i < height && 0 <= j < width ==>
        g.value[i][j] == CellAfter(s, xs, ys, i, j, s.steps).count
  {
  }

  // ---------------------------------------------------------------------------
  // Properties of the field.
  // ---------------------------------------------------------------------------

  /** Every entry lies in [0, max_iter]; max_iter <= 0 gives an all-zero field. */
  lemma FieldBounds(width: int, height: int, params: Bag, xMin: real, xMax: real, yMin: real, yMax: real)
    requires Field(width, height, params, xMin, xMax, yMin, yMax).Ok?
    ensures var s := Prepare(width, height, params).value;
      var g := Field(width, height, params, xMin, xMax, yMin, yMax).value;
      forall i, j :: 0 <= i < height && 0 <= j < width ==> 0 <= g[i][j] <= s.steps
    ensures var g := Field(width, height, params, xMin, xMax, yMin, yMax).value;
      Prepare(width, height, params).value.steps == 0 ==>
        forall i, j :: 0 <= i < height && 0 <= j < width ==> g[i][j] == 0
  {
    var s := Prepare(width, height, params).value;
    var xs := Linspace(xMin, xMax, width);
    var ys := Linspace(yMin, yMax, height);
    forall i, j | 0 <= i < height && 0 <= j < width
      ensures 0 <= CellAfter(s, xs, ys, i, j, s.steps).count <= s.steps
    {
      var p := GridPoint(xs, ys, i, j);
      MaskedRunBounds(Start(s, p), Constant(s, p), s.radius, s.steps);
    }
  }

  /** An entry equals k > 0 exactly when the orbit of its sample stays inside the radius
      for z_0 .. z_(k-1) and is outside at z_k, with k <= max_iter. */
  lemma FieldRecordsFirstEscape(width: int, height: int, params: Bag,
                                xMin: real, xMax: real, yMin: real, yMax: real, i: int, j: int, k: int)
    requires Field(width, height, params, xMin, xMax, yMin, yMax).Ok?
    requires 0 <= i < height && 0 <= j < width
    ensures var s := Prepare(width, height, params).value;
      var p := GridPoint(Linspace(xMin, xMax, width), Linspace(yMin, yMax, height), i, j);
      (k > 0 && Field(width, height, params, xMin, xMax, yMin, yMax).value[i][j] == k) <==>
        (1 <= k <= s.steps
         && (forall m :: 0 <= m < k ==> Inside(Orbit(Quadratic, Start(s, p), Constant(s, p), m), s.radius))
         && !Inside(Orbit(Quadratic, Start(s, p), Constant(s, p), k), s.radius))
  {
    var s := Prepare(width, height, params).value;
    var p := GridPoint(Linspace(xMin, xMax, width), Linspace(yMin, yMax, height), i, j);
    EscapeCountIsFirstEscape(Start(s, p), Constant(s, p), s.radius, s.steps, k);
  }

  /** Row i, column j of the grid has real part x_min + j·(x_max - x_min)/(width - 1)
      and imaginary part y_min + i·(y_max - y_min)/(height - 1): row 0 is y_min and the
      last row y_max. */
  lemma GridCoordinates(width: int, height: int, xMin: real, xMax: real, yMin: real, yMax: real, i: int, j: int)
    requires 2 <= height && 2 <= width && 0 <= i < height && 0 <= j < width
    ensures GridPoint(Linspace(xMin, xMax, width), Linspace(yMin, yMax, height), i, j) ==
      Complex(xMin + (j as real) * (xMax - xMin) / ((width - 1) as real),
              yMin + (i as real) * (yMax - yMin) / ((height - 1) as real))
    ensures GridPoint(Linspace(xMin, xMax, width), Linspace(yMin, yMax, height), 0, j).im == yMin
    ensures GridPoint(Linspace(xMin, xMax, width), Linspace(yMin, yMax, height), height - 1, j).im == yMax
  {
    LinspaceAt(xMin, xMax, width, j);
    LinspaceAt(yMin, yMax, height, i);
    LinspaceShape(yMin, yMax, height);
  }

  /** Mandelbrot mode: every sample starts at (z_real, z_imag) and uses its grid point as
      c; Julia mode: every sample starts at its grid point and uses (c_real, c_imag). */
  lemma ModeRoles(width: int, height: int, params: Bag, p: Complex)
    requires Prepare(width, height, params).Ok?
    ensures var s := Prepare(width, height, params).value;
      s.julia <==> Truthy(params["is_julia"])
    ensures var s := Prepare(width, height, params).value;
      !s.julia ==> Start(s, p) == Complex(AsReal(params["z_real"]), AsReal(params["z_imag"]))
                   && Constant(s, p) == p
    ensures var s := Prepare(width, height, params).value;
      s.julia ==> Start(s, p) == p
                  && Constant(s, p) == Complex(AsReal(params["c_real"]), AsReal(params["c_imag"]))
  {
  }

  /** Julia mode with at least one pass raises; with none it returns zeros. */
  lemma JuliaModeFails(width: int, height: int, params: Bag, n: int,
                       xMin: real, xMax: real, yMin: real, yMax: real)
    requires width >= 0 && height >= 0
    requires "is_julia" in params && Truthy(params["is_julia"])
    requires params.Keys == DefaultParams().Keys
    requires params["max_iter"] == VInt(n)
    ensures n >= 1 ==> Field(width, height, params, xMin, xMax, yMin, yMax) == Raised("TypeError")
    ensures n <= 0 ==> var r := Field(width, height, params, xMin, xMax, yMin, yMax);
      r.Ok? && |r.value| == height
      && forall i, j :: 0 <= i < height && 0 <= j < width ==> r.value[i][j] == 0
  {
  }

  /** Parameters that went through `set_params` from the defaults always hold every key
      `calculate` reads, so it never raises KeyError. */
  lemma SetParamsNeverLosesKeys(width: int, height: int, updates: Bag)
    ensures Merge(DefaultParams(), updates).Keys == DefaultParams().Keys
    ensures Prepare(width, height, Merge(DefaultParams(), updates)) != Raised("KeyError")
  {
    var p := Merge(DefaultParams(), updates);
    assert "max_iter" in p && "escape_radius" in p && "is_julia" in p;
    assert "c_real" in p && "c_imag" in p && "z_real" in p && "z_imag" in p;
  }

  /** With the default parameters the Mandelbrot set is computed for 100 passes with
      escape radius 2 from z_0 = 0. */
  lemma DefaultSetup(width: nat, height: nat)
    ensures Prepare(width, height, DefaultParams()) == Ok(Setup(100, 2.0, false, Zero, Zero))
  {
  }
}
