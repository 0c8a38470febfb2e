/** Colouring algorithms (coloring.py): iteration counts are normalised, scaled, offset,
    inverted, wrapped or clipped into [0, 1] and turned into an index into a gradient. */
module Coloring {
  import opened Common
  import opened ParamBag
  import opened Gradient

  // ---------------------------------------------------------------------------
  // The normalisation pipeline, one value at a time.
  // ---------------------------------------------------------------------------

  /** The four style parameters both algorithms read. */
  datatype Style = Style(cyclic: bool, offset: real, scale: real, invert: bool)

  function StyleKeys(): set<string>
  {
    {"cyclic", "offset", "scale", "invert"}
  }

  function StyleOf(params: Bag): Style
    requires StyleKeys() <= params.Keys
  {
    Style(Truthy(params["cyclic"]), AsReal(params["offset"]), AsReal(params["scale"]),
          Truthy(params["invert"]))
  }

  /** `v * scale + offset`, then `1.0 - v` when inverting. */
  function Shape(v: real, style: Style): real
  {
    var w := v * style.scale + style.offset;
    if style.invert then 1.0 - w else w
  }

  /** `v % 1.0` on a float: the fractional part, also for negative v. */
  function Wrap(v: real): (r: real)
    ensures 0.0 <= r < 1.0
    ensures v - r == v.Floor as real
  {
    v - v.Floor as real
  }

  /** `% 1.0` when cyclic, `np.clip(v, 0.0, 1.0)` otherwise. */
  function Finish(v: real, style: Style): real
  {
    if style.cyclic then Wrap(v) else ClampReal(0.0, 1.0, v)
  }

  /** `(v * (gradient_length - 1)).astype(int)`. */
  function GradientIndex(v: real, gradientLength: int): int
  {
    Trunc(v * (gradientLength - 1) as real)
  }

  /** The index a normalised value ends up at. */
  function IndexOf(v: real, style: Style, gradientLength: int): int
  {
    GradientIndex(Finish(Shape(v, style), style), gradientLength)
  }

  lemma FinishUnit(v: real, style: Style)
    ensures 0.0 <= Finish(v, style) <= 1.0
    ensures style.cyclic ==> Finish(v, style) < 1.0
  {
  }

  /** Whatever the scale, offset and inversion, a non-empty gradient is indexed inside
      its bounds; in cyclic mode the last colour is never reached. */
  lemma IndexInRange(v: real, style: Style, gradientLength: int)
    requires gradientLength >= 1
    ensures 0 <= IndexOf(v, style, gradientLength) < gradientLength
    ensures style.cyclic && gradientLength >= 2 ==> IndexOf(v, style, gradientLength) < gradientLength - 1
  {
    FinishUnit(Shape(v, style), style);
    GradientIndexInRange(Finish(Shape(v, style), style), gradientLength);
  }

  lemma GradientIndexInRange(f: real, gradientLength: int)
    requires 0.0 <= f <= 1.0 && gradientLength >= 1
    ensures 0 <= GradientIndex(f, gradientLength) < gradientLength
    ensures f < 1.0 && gradientLength >= 2 ==> GradientIndex(f, gradientLength) < gradientLength - 1
  {
    var m := (gradientLength - 1) as real;
    assert 0.0 <= f * m <= m by {
      assert f * m <= 1.0 * m;
    }
    if f < 1.0 && gradientLength >= 2 {
      assert f * m < m;
    }
  }

  /** An empty gradient is always indexed out of bounds: the index is 0 or -1. */
  lemma EmptyGradientIndex(v: real, style: Style)
    ensures IndexOf(v, style, 0) == 0 || IndexOf(v, style, 0) == -1
  {
    FinishUnit(Shape(v, style), style);
  }

  /** `(x - min) / (max - min)` when the values differ, else `0`: the min-max
      normalisation of the potential branch, one value at a time. */
  function NormalizeValue(x: real, lo: real, hi: real): real
  {
    if hi > lo then (x - lo) / (hi - lo) else 0.0
  }

  function MinMaxNormalize(xs: seq<real>, lo: real, hi: real): (r: seq<real>)
    ensures |r| == |xs|
    ensures forall i :: 0 <= i < |xs| ==> r[i] == NormalizeValue(xs[i], lo, hi)
  {
    seq(|xs|, i requires 0 <= i < |xs| => NormalizeValue(xs[i], lo, hi))
  }

  function MinOf(xs: seq<real>): (m: real)
    requires |xs| >= 1
    ensures forall i :: 0 <= i < |xs| ==> m <= xs[i]
    ensures exists i :: 0 <= i < |xs| && m == xs[i]
  {
    if |xs| == 1 then xs[0]
    else
      var m := MinOf(xs[1..]);
      assert forall i :: 1 <= i < |xs| ==> xs[i] == xs[1..][i - 1];
      if xs[0] <= m then xs[0] else m
  }

  function MaxOf(xs: seq<real>): (m: real)
    requires |xs| >= 1
    ensures forall i :: 0 <= i < |xs| ==> xs[i] <= m
    ensures exists i :: 0 <= i < |xs| && m == xs[i]
  {
    if |xs| == 1 then xs[0]
    else
      var m := MaxOf(xs[1..]);
      assert forall i :: 1 <= i < |xs| ==> xs[i] == xs[1..][i - 1];
      if xs[0] >= m then xs[0] else m
  }

  /** Normalising by the minimum and maximum puts every value in [0, 1], the minimum at
      0 and the maximum at 1, or gives all zeros when they coincide. */
  lemma MinMaxNormalizeUnit(xs: seq<real>, i: int)
    requires 0 <= i < |xs|
    ensures 0.0 <= NormalizeValue(xs[i], MinOf(xs), MaxOf(xs)) <= 1.0
    ensures MaxOf(xs) == MinOf(xs) ==> NormalizeValue(xs[i], MinOf(xs), MaxOf(xs)) == 0.0
    ensures xs[i] == MinOf(xs) ==> NormalizeValue(xs[i], MinOf(xs), MaxOf(xs)) == 0.0
    ensures MaxOf(xs) > MinOf(xs) && xs[i] == MaxOf(xs) ==> NormalizeValue(xs[i], MinOf(xs), MaxOf(xs)) == 1.0
  {
    NormalizeBetween(xs[i], MinOf(xs), MaxOf(xs));
  }

  lemma NormalizeBetween(x: real, lo: real, hi: real)
    requires lo <= x <= hi
    ensures 0.0 <= NormalizeValue(x, lo, hi) <= 1.0
    ensures x == lo ==> NormalizeValue(x, lo, hi) == 0.0
    ensures hi > lo && x == hi ==> NormalizeValue(x, lo, hi) == 1.0
  {
    if hi > lo {
      UnitFraction(x, lo, hi);
    }
  }

  lemma UnitFraction(x: real, lo: real, hi: real)
    requires lo <= x <= hi && lo < hi
    ensures 0.0 <= (x - lo) / (hi - lo) <= 1.0
    ensures x == lo ==> (x - lo) / (hi - lo) == 0.0
    ensures x == hi ==> (x - lo) / (hi - lo) == 1.0
  {
    FractionUnit(x - lo, hi - lo);
  }

  // ---------------------------------------------------------------------------
  // The algorithms.
  // ---------------------------------------------------------------------------

  datatype Kind = IterationCount | Potential

  /** `IterationColoring` parameters. */
  function IterationDefaults(): Bag
  {
    map["cyclic" := VBool(true), "offset" := VInt(0), "scale" := VReal(1.0), "invert" := VBool(false)]
  }

  /** `ContinuousPotentialColoring` parameters: the same plus `log_scale`. */
  function PotentialDefaults(): Bag
  {
    IterationDefaults()["log_scale" := VBool(true)]
  }

  /** The RGBA value `apply` leaves for a sample: opaque black for a non-divergent
      sample (value 0); a divergent sample keeps the zeros of `np.zeros`, because the
      colour loop assigns into `result[divergent]`, a copy made by boolean indexing. */
  function Pixel(v: int): seq<int>
  {
    if v == 0 then [0, 0, 0, 255] else [0, 0, 0, 0]
  }

  /** Some sample of the field diverged (`np.any(fractal_data > 0)` for counts >= 0). */
  predicate AnyDivergent(data: array2<int>)
    reads data
  {
    exists i, j :: 0 <= i < data.Length0 && 0 <= j < data.Length1 && data[i, j] != 0
  }

  /** The exception `apply` raises, if any: `np.max` of an empty field raises ValueError,
      and a divergent sample with an empty gradient raises IndexError in the colour loop. */
  function ApplyFailure(data: array2<int>, gradientLength: int): Option<string>
    reads data
  {
    if data.Length0 == 0 || data.Length1 == 0 then Some("ValueError")
    else if gradientLength == 0 && AnyDivergent(data) then Some("IndexError")
    else None
  }

  /** `ApplyFailure` on the counts as rows: what `apply` raises for a field given as
      a sequence of equally long rows. */
  function FieldFailure(counts: seq<seq<int>>, gradientLength: int): Option<string>
  {
    if |counts| == 0 || |counts[0]| == 0 then Some("ValueError")
    else if gradientLength == 0 &&
      exists i, j :: 0 <= i < |counts| && 0 <= j < |counts[i]| && counts[i][j] != 0 then Some("IndexError")
    else None
  }

  /** The array and the rows it holds fail in the same way. */
  lemma FailureAgrees(data: array2<int>, counts: seq<seq<int>>, gradientLength: int)
    requires |counts| == data.Length0 && forall i :: 0 <= i < |counts| ==> |counts[i]| == data.Length1
    requires forall i, j :: 0 <= i < data.Length0 && 0 <= j < data.Length1 ==> data[i, j] == counts[i][j]
    ensures ApplyFailure(data, gradientLength) == FieldFailure(counts, gradientLength)
  {
    if data.Length0 > 0 && data.Length1 > 0 && gradientLength == 0 {
      if AnyDivergent(data) {
        var i, j :| 0 <= i < data.Length0 && 0 <= j < data.Length1 && data[i, j] != 0;
        assert counts[i][j] != 0;
      } else {
        assert forall i, j :: 0 <= i < |counts| && 0 <= j < |counts[i]| ==> data[i, j] == counts[i][j];
      }
    }
  }

  class ColoringAlgorithm {
    var kind: Kind
    var params: Bag

    /** Both algorithms always hold their style keys, and the potential one `log_scale`. */
    predicate Valid()
      reads this
    {
      StyleKeys() <= params.Keys && (kind == Potential ==> "log_scale" in params)
    }

    /** `IterationColoring()`. */
    constructor Iteration()
      ensures kind == IterationCount && params == IterationDefaults() && Valid()
    {
      kind := IterationCount;
      params := IterationDefaults();
    }

    /** `ContinuousPotentialColoring()`. */
    constructor ContinuousPotential()
      ensures kind == Potential && params == PotentialDefaults() && Valid()
    {
      kind := Potential;
      params := PotentialDefaults();
    }

    /** `get_params`: a copy of the parameters. */
    method GetParams() returns (p: Bag)
      ensures p == params
    {
      p := params;
    }

    /** `set_params`: only keys already present are overwritten. */
    method SetParams(updates: Bag)
      modifies this
      requires Valid()
      ensures params == Merge(old(params), updates) && kind == old(kind)
      ensures Valid()
    {
      params := MergeParams(params, updates);
    }

    /** `IterationColoring.apply(fractal_data, gradient)` on a field of non-negative
        counts. */
    method ApplyIteration(data: array2<int>, gradient: seq<Color>) returns (out: Outcome<array3<int>>)
      requires Valid()
      requires forall i, j :: 0 <= i < data.Length0 && 0 <= j < data.Length1 ==> data[i, j] >= 0
      ensures ApplyFailure(data, |gradient|).Some? ==> out == Raised(ApplyFailure(data, |gradient|).value)
      ensures ApplyFailure(data, |gradient|).None? ==>
        out.Ok? && fresh(out.value)
        && out.value.Length0 == data.Length0 && out.value.Length1 == data.Length1 && out.value.Length2 == 4
        && forall i, j, k :: 0 <= i < data.Length0 && 0 <= j < data.Length1 && 0 <= k < 4 ==>
             out.value[i, j, k] == Pixel(data[i, j])[k]
    {
      var h, w := data.Length0, data.Length1;
      if h == 0 || w == 0 {
        return Raised("ValueError");
      }
      var maxIter := FieldMax(data);
      var style := StyleOf(params);
      var result := Blank(data);
      var anyDivergent := AnyDivergent(data);
      if anyDivergent {
        // The whole loop writes into the copy `result[divergent]`, never into `result`.
        var selected: seq<Color> := [];
        var i := 0;
        label colouring:
        while i < h
          invariant 0 <= i <= h
          invariant |gradient| == 0 ==> forall a, b :: 0 <= a < i && 0 <= b < w ==> data[a, b] == 0
          invariant unchanged@colouring(result)
        {
          var j := 0;
          while j < w
            invariant 0 <= j <= w
            invariant |gradient| == 0 ==> forall b :: 0 <= b < j ==> data[i, b] == 0
            invariant unchanged@colouring(result)
          {
            if data[i, j] != 0 {
              var normalized := data[i, j] as real / maxIter as real;
              var idx := IndexOf(normalized, style, |gradient|);
              if |gradient| >= 1 {
                IndexInRange(normalized, style, |gradient|);
              }
              if !(-|gradient| <= idx < |gradient|) {
                assert data[i, j] != 0;
                return Raised("IndexError");
              }
              selected := selected + [gradient[if idx >= 0 then idx else idx + |gradient|]];
            }
            j := j + 1;
          }
          i := i + 1;
        }
        assert |gradient| == 0 ==> !AnyDivergent(data);
      }
      return Ok(result);
    }

    /** `coloring_algorithm.apply(fractal_data, gradient)` as the renderer calls it: the
        potential colouring then runs without z values. */
    method Apply(data: array2<int>, gradient: seq<Color>) returns (out: Outcome<array3<int>>)
      requires Valid()
      requires forall i, j :: 0 <= i < data.Length0 && 0 <= j < data.Length1 ==> data[i, j] >= 0
      ensures ApplyFailure(data, |gradient|).Some? ==> out == Raised(ApplyFailure(data, |gradient|).value)
      ensures ApplyFailure(data, |gradient|).None? ==>
        out.Ok? && fresh(out.value)
        && out.value.Length0 == data.Length0 && out.value.Length1 == data.Length1 && out.value.Length2 == 4
        && forall i, j, k :: 0 <= i < data.Length0 && 0 <= j < data.Length1 && 0 <= k < 4 ==>
             out.value[i, j, k] == Pixel(data[i, j])[k]
    {
      if kind == IterationCount {
        out := ApplyIteration(data, gradient);
      } else {
        // Without z values the smoothing function is never called.
        out := ApplyPotential(data, gradient, None, x => x);
      }
    }

    /** `ContinuousPotentialColoring.apply(fractal_data, gradient, z_values)`. `moduli`
        stands for `np.abs(z_values)` and `logPotential` for the log-log smoothing of the
        `log_scale` branch. Without z values, or without a divergent sample, the work is
        handed to a fresh `IterationColoring` that receives these parameters. */
    method ApplyPotential(data: array2<int>, gradient: seq<Color>, moduli: Option<array2<real>>,
                          logPotential: real -> real)
      returns (out: Outcome<array3<int>>)
      requires Valid() && kind == Potential
      requires forall i, j :: 0 <= i < data.Length0 && 0 <= j < data.Length1 ==> data[i, j] >= 0
      requires moduli.Some? ==> moduli.value.Length0 == data.Length0 && moduli.value.Length1 == data.Length1
      ensures ApplyFailure(data, |gradient|).Some? ==> out == Raised(ApplyFailure(data, |gradient|).value)
      ensures ApplyFailure(data, |gradient|).None? ==>
        out.Ok? && fresh(out.value)
        && out.value.Length0 == data.Length0 && out.value.Length1 == data.Length1 && out.value.Length2 == 4
        && forall i, j, k :: 0 <= i < data.Length0 && 0 <= j < data.Length1 && 0 <= k < 4 ==>
             out.value[i, j, k] == Pixel(data[i, j])[k]
    {
      var h, w := data.Length0, data.Length1;
      var anyDivergent := AnyDivergent(data);
      if anyDivergent && moduli.Some? {
        var style := StyleOf(params);
        var logScale := Truthy(params["log_scale"]);
        var result := Blank(data);
        var shifted := Divergent(data, moduli.value, logScale, logPotential);
        var normalized := MinMaxNormalize(shifted, MinOf(shifted), MaxOf(shifted));
        var indexed := LookUpAll(normalized, style, gradient);
        if !indexed {
          return Raised("IndexError");
        }
        return Ok(result);
      } else {
        var fallback := new ColoringAlgorithm.Iteration();
        fallback.SetParams(params);
        out := fallback.ApplyIteration(data, gradient);
      }
    }
  }

  /** The colour loop of the potential branch: looks every index up in the gradient, into a
      discarded copy, and reports whether all of them were in bounds. */
  method LookUpAll(normalized: seq<real>, style: Style, gradient: seq<Color>) returns (inBounds: bool)
    requires |normalized| >= 1
    ensures inBounds <==> |gradient| >= 1
  {
    var selected: seq<Color> := [];
    var k := 0;
    while k < |normalized|
      invariant 0 <= k <= |normalized|
      invariant |gradient| == 0 ==> k == 0
    {
      var idx := IndexOf(normalized[k], style, |gradient|);
      if |gradient| == 0 {
        EmptyGradientIndex(normalized[k], style);
      } else {
        IndexInRange(normalized[k], style, |gradient|);
      }
      if !(-|gradient| <= idx < |gradient|) {
        return false;
      }
      selected := selected + [gradient[if idx >= 0 then idx else idx + |gradient|]];
      k := k + 1;
    }
    return true;
  }

  /** `np.max(fractal_data)` of a non-empty field. */
  method FieldMax(data: array2<int>) returns (m: int)
    requires data.Length0 >= 1 && data.Length1 >= 1
    ensures forall i, j :: 0 <= i < data.Length0 && 0 <= j < data.Length1 ==> data[i, j] <= m
    ensures exists i, j :: 0 <= i < data.Length0 && 0 <= j < data.Length1 && data[i, j] == m
  {
    m := data[0, 0];
    var i := 0;
    while i < data.Length0
      invariant 0 <= i <= data.Length0
      invariant forall a, b :: 0 <= a < i && 0 <= b < data.Length1 ==> data[a, b] <= m
      invariant exists a, b :: 0 <= a < data.Length0 && 0 <= b < data.Length1 && data[a, b] == m
    {
      var j := 0;
      while j < data.Length1
        invariant 0 <= j <= data.Length1
        invariant forall a, b :: 0 <= a < i && 0 <= b < data.Length1 ==> data[a, b] <= m
        invariant forall b :: 0 <= b < j ==> data[i, b] <= m
        invariant exists a, b :: 0 <= a < data.Length0 && 0 <= b < data.Length1 && data[a, b] == m
      {
        if data[i, j] > m {
          m := data[i, j];
        }
        j := j + 1;
      }
      i := i + 1;
    }
  }

  /** `np.zeros((height, width, 4))` with `[0, 0, 0, 255]` written at every sample that
      equals 0. */
  method Blank(data: array2<int>) returns (result: array3<int>)
    ensures fresh(result)
    ensures result.Length0 == data.Length0 && result.Length1 == data.Length1 && result.Length2 == 4
    ensures forall i, j, k :: 0 <= i < data.Length0 && 0 <= j < data.Length1 && 0 <= k < 4 ==>
      result[i, j, k] == Pixel(data[i, j])[k]
  {
    result := new int[data.Length0, data.Length1, 4]((i, j, k) => 0);
    var i := 0;
    while i < data.Length0
      invariant 0 <= i <= data.Length0
      invariant forall a, b, k :: 0 <= a < data.Length0 && 0 <= b < data.Length1 && 0 <= k < 4 ==>
        result[a, b, k] == if a < i then Pixel(data[a, b])[k] else 0
    {
      var j := 0;
      while j < data.Length1
        invariant 0 <= j <= data.Length1
        invariant forall a, b, k :: 0 <= a < data.Length0 && 0 <= b < data.Length1 && 0 <= k < 4 ==>
          result[a, b, k] == if a < i || (a == i && b < j) then Pixel(data[a, b])[k] else 0
      {
        if data[i, j] == 0 {
          result[i, j, 3] := 255;
        }
        j := j + 1;
      }
      i := i + 1;
    }
  }

  /** `c1` comes before `c2` in row-major order. */
  predicate RowMajorBefore(c1: (int, int), c2: (int, int))
  {
    c1.0 < c2.0 || (c1.0 == c2.0 && c1.1 < c2.1)
  }

  /** The non-zero cells of row i in the columns below j, left to right. */
  function CellsInRow(data: array2<int>, i: int, j: int): seq<(int, int)>
    reads data
    requires 0 <= i < data.Length0 && 0 <= j <= data.Length1
    decreases j
  {
    if j == 0 then []
    else CellsInRow(data, i, j - 1) + (if data[i, j - 1] != 0 then [(i, j - 1)] else [])
  }

  /** The non-zero cells of the rows below i in row-major order. */
  function CellsBefore(data: array2<int>, i: int): seq<(int, int)>
    reads data
    requires 0 <= i <= data.Length0
    decreases i
  {
    if i == 0 then [] else CellsBefore(data, i - 1) + CellsInRow(data, i - 1, data.Length1)
  }

  /** Row i contributes exactly its non-zero cells below column j, left to right. */
  lemma {:induction false} CellsInRowExact(data: array2<int>, i: int, j: int)
    requires 0 <= i < data.Length0 && 0 <= j <= data.Length1
    ensures forall k :: 0 <= k < |CellsInRow(data, i, j)| ==>
      CellsInRow(data, i, j)[k].0 == i && 0 <= CellsInRow(data, i, j)[k].1 < j &&
      data[i, CellsInRow(data, i, j)[k].1] != 0
    ensures forall k, m :: 0 <= k < m < |CellsInRow(data, i, j)| ==>
      CellsInRow(data, i, j)[k].1 < CellsInRow(data, i, j)[m].1
    ensures forall b :: 0 <= b < j && data[i, b] != 0 ==> (i, b) in CellsInRow(data, i, j)
    decreases j
  {
    if j > 0 {
      CellsInRowExact(data, i, j - 1);
    }
  }

  /** A cell `fractal_data > 0` selects among the first `rows` rows. */
  predicate SelectedBelow(data: array2<int>, c: (int, int), rows: int)
    reads data
  {
    0 <= c.0 < rows && 0 <= c.1 < data.Length1 && c.0 < data.Length0 && data[c.0, c.1] != 0
  }

  /** `CellsBefore(data, data.Length0)` is exactly what the boolean mask `fractal_data > 0`
      selects, in the order NumPy visits it: every listed cell is inside and non-zero,
      the cells come in strictly increasing row-major order (so none twice), and every
      non-zero cell is listed. */
  lemma CellsBeforeExact(data: array2<int>, i: int)
    requires 0 <= i <= data.Length0
    ensures forall k :: 0 <= k < |CellsBefore(data, i)| ==>
      SelectedBelow(data, CellsBefore(data, i)[k], i)
    ensures forall k, m :: 0 <= k < m < |CellsBefore(data, i)| ==>
      RowMajorBefore(CellsBefore(data, i)[k], CellsBefore(data, i)[m])
    ensures forall a, b :: 0 <= a < i && 0 <= b < data.Length1 && data[a, b] != 0 ==>
      (a, b) in CellsBefore(data, i)
  {
    CellsBeforeSelected(data, i);
    CellsBeforeOrdered(data, i);
  }

  /** The rows below i list exactly their non-zero cells. */
  lemma CellsBeforeSelected(data: array2<int>, i: int)
    requires 0 <= i <= data.Length0
    ensures forall k :: 0 <= k < |CellsBefore(data, i)| ==>
      SelectedBelow(data, CellsBefore(data, i)[k], i)
    ensures forall a, b :: 0 <= a < i && 0 <= b < data.Length1 && data[a, b] != 0 ==>
      (a, b) in CellsBefore(data, i)
  {
    CellsBeforeSound(data, i);
    CellsBeforeComplete(data, i);
    forall a, b | 0 <= a < i && 0 <= b < data.Length1 && data[a, b] != 0
      ensures (a, b) in CellsBefore(data, i)
    {
      assert SelectedBelow(data, (a, b), i);
    }
  }

  /** Every cell listed for the rows below i is inside them and non-zero. */
  lemma {:induction false} CellsBeforeSound(data: array2<int>, i: int)
    requires 0 <= i <= data.Length0
    ensures forall k :: 0 <= k < |CellsBefore(data, i)| ==>
      SelectedBelow(data, CellsBefore(data, i)[k], i)
    decreases i
  {
    if i > 0 {
      CellsBeforeSound(data, i - 1);
      CellsInRowExact(data, i - 1, data.Length1);
      var before, row := CellsBefore(data, i - 1), CellsInRow(data, i - 1, data.Length1);
      var r := before + row;
      assert CellsBefore(data, i) == r;
      forall k | 0 <= k < |r|
        ensures SelectedBelow(data, r[k], i)
      {
        if k < |before| {
          var c := before[k];
          assert SelectedBelow(data, c, i - 1);
          assert r[k] == c;
        } else {
          var c := row[k - |before|];
          assert c.0 == i - 1 && 0 <= c.1 < data.Length1 && data[i - 1, c.1] != 0;
          assert r[k] == c;
        }
      }
    }
  }

  /** Every non-zero cell of the rows below i is listed. */
  lemma {:induction false} CellsBeforeComplete(data: array2<int>, i: int)
    requires 0 <= i <= data.Length0
    ensures forall c :: SelectedBelow(data, c, i) ==> c in CellsBefore(data, i)
    decreases i
  {
    if i > 0 {
      CellsBeforeComplete(data, i - 1);
      CellsInRowExact(data, i - 1, data.Length1);
      var before, row := CellsBefore(data, i - 1), CellsInRow(data, i - 1, data.Length1);
      assert CellsBefore(data, i) == before + row;
      forall c | SelectedBelow(data, c, i)
        ensures c in before + row
      {
        if c.0 < i - 1 {
          assert SelectedBelow(data, c, i - 1);
        } else {
          assert c == (i - 1, c.1);
          assert c in row;
        }
      }
    }
  }

  /** The rows below i list their cells in strictly increasing row-major order. */
  lemma {:induction false} CellsBeforeOrdered(data: array2<int>, i: int)
    requires 0 <= i <= data.Length0
    ensures forall k, m :: 0 <= k < m < |CellsBefore(data, i)| ==>
      RowMajorBefore(CellsBefore(data, i)[k], CellsBefore(data, i)[m])
    decreases i
  {
    if i > 0 {
      CellsBeforeOrdered(data, i - 1);
      CellsBeforeSelected(data, i - 1);
      CellsInRowExact(data, i - 1, data.Length1);
      var before, row := CellsBefore(data, i - 1), CellsInRow(data, i - 1, data.Length1);
      var r := before + row;
      assert CellsBefore(data, i) == r;
      forall k, m | 0 <= k < m < |r|
        ensures RowMajorBefore(r[k], r[m])
      {
        if m < |before| {
          assert r[k] == before[k] && r[m] == before[m];
        } else if k < |before| {
          assert r[k] == before[k] && r[m] == row[m - |before|];
        } else {
          assert r[k] == row[k - |before|] && r[m] == row[m - |before|];
        }
      }
    }
  }

  /** The potential of one sample: the modulus itself, or its log-log smoothing. */
  function CellPotential(modulus: real, logScale: bool, logPotential: real -> real): real
  {
    if logScale then logPotential(modulus) else modulus
  }

  /** `fractal_data[i, j] - potential[i, j]` for one selected cell. */
  function Shift(data: array2<int>, moduli: array2<real>, logScale: bool, logPotential: real -> real,
                 c: (int, int)): real
    reads data, moduli
    requires 0 <= c.0 < data.Length0 && 0 <= c.1 < data.Length1
    requires moduli.Length0 == data.Length0 && moduli.Length1 == data.Length1
  {
    data[c.0, c.1] as real - CellPotential(moduli[c.0, c.1], logScale, logPotential)
  }

  /** Every cell of `cells` lies inside `data`. */
  predicate CellsInside(data: array2<int>, cells: seq<(int, int)>)
  {
    forall k :: 0 <= k < |cells| ==> 0 <= cells[k].0 < data.Length0 && 0 <= cells[k].1 < data.Length1
  }

  /** `shifted` holds, in order, the shifted value of each cell of `cells`. */
  ghost predicate ShiftsOf(data: array2<int>, moduli: array2<real>, logScale: bool, logPotential: real -> real,
                           shifted: seq<real>, cells: seq<(int, int)>)
    reads data, moduli
    requires moduli.Length0 == data.Length0 && moduli.Length1 == data.Length1
    requires CellsInside(data, cells)
  {
    |shifted| == |cells|
    && forall k :: 0 <= k < |shifted| ==> shifted[k] == Shift(data, moduli, logScale, logPotential, cells[k])
  }

  /** `fractal_data[divergent] - potential`: one value per divergent sample, in row-major
      order (the order of boolean indexing), each its count minus its potential; there is
      at least one when some sample diverged. */
  method Divergent(data: array2<int>, moduli: array2<real>, logScale: bool, logPotential: real -> real)
    returns (shifted: seq<real>)
    requires moduli.Length0 == data.Length0 && moduli.Length1 == data.Length1
    requires exists i, j :: 0 <= i < data.Length0 && 0 <= j < data.Length1 && data[i, j] != 0
    ensures CellsInside(data, CellsBefore(data, data.Length0))
    ensures var cells := CellsBefore(data, data.Length0);
      |shifted| == |cells|
      && forall k :: 0 <= k < |shifted| ==> shifted[k] == Shift(data, moduli, logScale, logPotential, cells[k])
    ensures |shifted| >= 1
  {
    shifted := [];
    var i := 0;
    while i < data.Length0
      invariant 0 <= i <= data.Length0
      invariant CellsInside(data, CellsBefore(data, i))
      invariant ShiftsOf(data, moduli, logScale, logPotential, shifted, CellsBefore(data, i))
    {
      var row := DivergentRow(data, moduli, logScale, logPotential, i);
      ShiftsConcat(data, moduli, logScale, logPotential, shifted, CellsBefore(data, i),
                   row, CellsInRow(data, i, data.Length1));
      shifted := shifted + row;
      i := i + 1;
    }
    var a, b :| 0 <= a < data.Length0 && 0 <= b < data.Length1 && data[a, b] != 0;
    CellsBeforeSelected(data, data.Length0);
    assert (a, b) in CellsBefore(data, data.Length0);
  }

  /** The values row i contributes to `fractal_data[divergent] - potential`. */
  method DivergentRow(data: array2<int>, moduli: array2<real>, logScale: bool, logPotential: real -> real,
                      i: int)
    returns (row: seq<real>)
    requires moduli.Length0 == data.Length0 && moduli.Length1 == data.Length1
    requires 0 <= i < data.Length0
    ensures CellsInside(data, CellsInRow(data, i, data.Length1))
    ensures ShiftsOf(data, moduli, logScale, logPotential, row, CellsInRow(data, i, data.Length1))
  {
    row := [];
    ghost var cells: seq<(int, int)> := [];
    var j := 0;
    while j < data.Length1
      invariant 0 <= j <= data.Length1
      invariant cells == CellsInRow(data, i, j)
      invariant CellsInside(data, cells)
      invariant ShiftsOf(data, moduli, logScale, logPotential, row, cells)
    {
      if data[i, j] != 0 {
        var potential := if logScale then logPotential(moduli[i, j]) else moduli[i, j];
        ShiftsAppend(data, moduli, logScale, logPotential, row, cells, (i, j));
        row := row + [data[i, j] as real - potential];
        cells := cells + [(i, j)];
      }
      j := j + 1;
    }
  }

  lemma ShiftsConcat(data: array2<int>, moduli: array2<real>, logScale: bool, logPotential: real -> real,
                     s1: seq<real>, c1: seq<(int, int)>, s2: seq<real>, c2: seq<(int, int)>)
    requires moduli.Length0 == data.Length0 && moduli.Length1 == data.Length1
    requires CellsInside(data, c1) && CellsInside(data, c2)
    requires ShiftsOf(data, moduli, logScale, logPotential, s1, c1)
    requires ShiftsOf(data, moduli, logScale, logPotential, s2, c2)
    ensures CellsInside(data, c1 + c2)
    ensures ShiftsOf(data, moduli, logScale, logPotential, s1 + s2, c1 + c2)
  {
    var s, c := s1 + s2, c1 + c2;
    forall k | 0 <= k < |c|
      ensures 0 <= c[k].0 < data.Length0 && 0 <= c[k].1 < data.Length1
    {
      if k < |c1| { assert c[k] == c1[k]; } else { assert c[k] == c2[k - |c1|]; }
    }
    forall k | 0 <= k < |s|
      ensures s[k] == Shift(data, moduli, logScale, logPotential, c[k])
    {
      if k < |s1| {
        assert s[k] == s1[k] && c[k] == c1[k];
      } else {
        assert s[k] == s2[k - |s1|] && c[k] == c2[k - |c1|];
      }
    }
  }

  lemma ShiftsAppend(data: array2<int>, moduli: array2<real>, logScale: bool, logPotential: real -> real,
                     shifted: seq<real>, cells: seq<(int, int)>, c: (int, int))
    requires moduli.Length0 == data.Length0 && moduli.Length1 == data.Length1
    requires CellsInside(data, cells) && 0 <= c.0 < data.Length0 && 0 <= c.1 < data.Length1
    requires ShiftsOf(data, moduli, logScale, logPotential, shifted, cells)
    ensures CellsInside(data, cells + [c])
    ensures ShiftsOf(data, moduli, logScale, logPotential,
                     shifted + [Shift(data, moduli, logScale, logPotential, c)], cells + [c])
  {
    var s2, c2 := shifted + [Shift(data, moduli, logScale, logPotential, c)], cells + [c];
    forall k | 0 <= k < |s2|
      ensures s2[k] == Shift(data, moduli, logScale, logPotential, c2[k])
    {
      if k < |shifted| {
        assert s2[k] == shifted[k] && c2[k] == cells[k];
      }
    }
  }

  /** The fallback `IterationColoring` keeps cyclic, offset, scale and invert from a
      potential colouring's parameters and drops `log_scale`, which it does not have. */
  lemma FallbackDropsLogScale(p: Bag)
    requires p.Keys == PotentialDefaults().Keys
    ensures Merge(IterationDefaults(), p).Keys == StyleKeys()
    ensures forall k :: k in StyleKeys() ==> Merge(IterationDefaults(), p)[k] == p[k]
    ensures "log_scale" !in Merge(IterationDefaults(), p)
  {
  }
}
