/** The rendering engine (renderer.py): computes a fractal, colours it, splits the work
    into horizontal bands, and paints a vertical background gradient. Images are kept as
    the RGBA arrays that PIL would receive. */
module Renderer {
  import opened Common
  import opened ParamBag
  import opened Gradient
  import opened Fractal
  import opened MandelbrotJulia
  import opened Coloring

  // ---------------------------------------------------------------------------
  // Computing and colouring a field.
  // ---------------------------------------------------------------------------

  /** The counts `calculate` returns when `apply` then succeeds on them, or the
      exception one of the two raises. */
  function Colored(field: Outcome<seq<seq<int>>>, gradientLength: int): Outcome<seq<seq<int>>>
  {
    match field
    case Raised(e) => Raised(e)
    case Ok(g) =>
      match FieldFailure(g, gradientLength)
      case Some(e) => Raised(e)
      case None => Ok(g)
  }

  /** The RGBA image `render` hands to PIL, or the exception it raises: every sample is
      coloured by `Pixel` of its count. */
  predicate IsImage(img: array3<int>, counts: seq<seq<int>>, height: int, width: int)
    reads img
  {
    img.Length0 == height && img.Length1 == width && img.Length2 == 4
    && |counts| == height && (forall i :: 0 <= i < height ==> |counts[i]| == width)
    && forall i, j, k :: 0 <= i < height && 0 <= j < width && 0 <= k < 4 ==>
         img[i, j, k] == Pixel(counts[i][j])[k]
  }

  /** `fractal.calculate(...)` followed by `coloring_algorithm.apply(fractal_data, gradient)`. */
  method ComputeAndColor(f: FractalBase, xMin: real, xMax: real, yMin: real, yMax: real,
                         coloring: ColoringAlgorithm, gradient: seq<Color>)
    returns (out: Outcome<array3<int>>)
    requires coloring.Valid()
    ensures var r := Colored(Field(f.width, f.height, f.params, xMin, xMax, yMin, yMax), |gradient|);
      (r.Raised? ==> out == Raised(r.error))
      && (r.Ok? ==> out.Ok? && fresh(out.value) && IsImage(out.value, r.value, f.height, f.width))
  {
    var data := Calculate(f, xMin, xMax, yMin, yMax);
    FieldCells(f.width, f.height, f.params, xMin, xMax, yMin, yMax);
    if data.Raised? {
      return Raised(data.error);
    }
    var g := Field(f.width, f.height, f.params, xMin, xMax, yMin, yMax).value;
    FieldBounds(f.width, f.height, f.params, xMin, xMax, yMin, yMax);
    FailureAgrees(data.value, g, |gradient|);
    out := coloring.Apply(data.value, gradient);
  }

  // ---------------------------------------------------------------------------
  // Bands of `render_parallel`.
  // ---------------------------------------------------------------------------

  /** `start_y = i * height_per_thread` with `height_per_thread = height // n`. */
  function BandStart(height: nat, n: nat, i: nat): nat
    requires n >= 1
  {
    i * (height / n)
  }

  /** `end_y`: the next band's start, except that the last band runs to `height`. */
  function BandEnd(height: nat, n: nat, i: nat): nat
    requires n >= 1
  {
    if i < n - 1 then BandStart(height, n, i) + height / n else height
  }

  lemma MulLe(a: nat, b: nat, q: nat)
    requires a <= b
    ensures a * q <= b * q
  {
  }

  /** The first n-1 bands are `height // n` rows high and the last takes the rest; each
      band ends where the next one starts, the first starts at row 0, the last ends at
      `height`. */
  lemma BandShape(height: nat, n: nat, i: nat)
    requires n >= 1 && i < n
    ensures BandStart(height, n, i) <= BandEnd(height, n, i) <= height
    ensures i < n - 1 ==> BandEnd(height, n, i) - BandStart(height, n, i) == height / n
    ensures i == n - 1 ==> BandEnd(height, n, i) == height
    ensures i + 1 < n ==> BandEnd(height, n, i) == BandStart(height, n, i + 1)
    ensures i == 0 ==> BandStart(height, n, i) == 0
  {
    var q := height / n;
    assert n * q <= height;
    MulLe(i + 1, n, q);
    MulLe(i, n - 1, q);
    assert (i + 1) * q == i * q + q;
  }

  /** The band that holds row y. */
  function BandOf(height: nat, n: nat, y: nat): (i: nat)
    requires n >= 1 && y < height
    ensures i < n
  {
    var q := height / n;
    if q == 0 || y / q >= n - 1 then n - 1 else y / q
  }

  /** Every row lies in the band `BandOf` names, and in no other: the bands are disjoint
      and cover rows 0 .. height-1. */
  lemma BandOfContains(height: nat, n: nat, y: nat)
    requires n >= 1 && y < height
    ensures BandStart(height, n, BandOf(height, n, y)) <= y < BandEnd(height, n, BandOf(height, n, y))
    ensures forall i: nat :: i < n && BandStart(height, n, i) <= y < BandEnd(height, n, i) ==> i == BandOf(height, n, y)
  {
    var q := height / n;
    var b := BandOf(height, n, y);
    if q == 0 {
      assert BandStart(height, n, b) == b * 0 == 0;
    } else {
      DivMul(y, q);
      if y / q >= n - 1 {
        MulLe(n - 1, y / q, q);
        assert BandStart(height, n, b) <= y;
      } else {
        assert BandStart(height, n, b) == (y / q) * q;
        assert BandEnd(height, n, b) == (y / q) * q + q;
      }
    }
    forall i: nat | i < n && BandStart(height, n, i) <= y < BandEnd(height, n, i)
      ensures i == b
    {
      if i < b {
        BandsOrdered(height, n, i, b);
      } else if b < i {
        BandsOrdered(height, n, b, i);
      }
    }
  }

  lemma DivMul(y: nat, q: nat)
    requires q > 0
    ensures (y / q) * q <= y < (y / q) * q + q
  {
  }

  /** A band ends no later than any later band starts. */
  lemma BandsOrdered(height: nat, n: nat, i: nat, j: nat)
    requires n >= 1 && i < j < n
    ensures BandEnd(height, n, i) <= BandStart(height, n, j)
  {
    BandShape(height, n, i);
    var q := height / n;
    MulLe(i + 1, j, q);
    assert (i + 1) * q == i * q + q;
  }

  /** `y_min + (y_max - y_min) * (row / height)`, the y bound of a band edge. */
  function EdgeY(yMin: real, yMax: real, height: nat, row: nat): real
    requires height >= 1
  {
    yMin + (yMax - yMin) * (row as real / height as real)
  }

  /** The y-slices of the bands: the first starts at `y_min`, the last ends at `y_max`,
      and each band's upper edge is the next band's lower edge. */
  lemma BandSlices(yMin: real, yMax: real, height: nat, n: nat, i: nat)
    requires n >= 1 && height >= 1 && i < n
    ensures i == 0 ==> EdgeY(yMin, yMax, height, BandStart(height, n, i)) == yMin
    ensures i == n - 1 ==> EdgeY(yMin, yMax, height, BandEnd(height, n, i)) == yMax
    ensures i + 1 < n ==>
      EdgeY(yMin, yMax, height, BandEnd(height, n, i)) == EdgeY(yMin, yMax, height, BandStart(height, n, i + 1))
  {
    BandShape(height, n, i);
    DivSelf(height as real);
  }

  lemma DivSelf(h: real)
    requires h > 0.0
    ensures h / h == 1.0
  {
  }

  /** What band i of `render_parallel` computes: a fresh fractal of the renderer's width
      and the band's height, given the original's parameters through `set_params`,
      evaluated over the band's y-slice and coloured. */
  function BandColored(width: nat, height: nat, n: nat, i: nat, params: Bag,
                       xMin: real, xMax: real, yMin: real, yMax: real, gradientLength: int)
    : Outcome<seq<seq<int>>>
    requires n >= 1 && height >= 1 && i < n
  {
    BandShape(height, n, i);
    var start, end := BandStart(height, n, i), BandEnd(height, n, i);
    Colored(Field(width, end - start, Merge(DefaultParams(), params), xMin, xMax,
                  EdgeY(yMin, yMax, height, start), EdgeY(yMin, yMax, height, end)),
            gradientLength)
  }

  /** The pixel band i leaves at row y, column x of the image: the colour it computed
      for that row, or the zeros of `np.zeros` when its thread raised. */
  function PixelOfBand(width: nat, height: nat, n: nat, i: nat, params: Bag,
                       xMin: real, xMax: real, yMin: real, yMax: real, gradientLength: int,
                       y: nat, x: nat): seq<int>
    requires n >= 1 && i < n && y < height && x < width
    requires BandStart(height, n, i) <= y < BandEnd(height, n, i)
  {
    BandShape(height, n, i);
    var r := BandColored(width, height, n, i, params, xMin, xMax, yMin, yMax, gradientLength);
    if r.Ok? then Pixel(r.value[y - BandStart(height, n, i)][x]) else [0, 0, 0, 0]
  }

  /** The pixel `render_parallel` leaves at row y, column x: the one of the band that
      holds row y. */
  function BandPixel(width: nat, height: nat, n: nat, params: Bag,
                     xMin: real, xMax: real, yMin: real, yMax: real, gradientLength: int,
                     y: nat, x: nat): seq<int>
    requires n >= 1 && y < height && x < width
  {
    BandOfContains(height, n, y);
    PixelOfBand(width, height, n, BandOf(height, n, y), params, xMin, xMax, yMin, yMax, gradientLength, y, x)
  }

  /** A row of band i takes its pixel from band i's own computation, whichever band
      that row is in. */
  lemma BandPixelInBand(width: nat, height: nat, n: nat, params: Bag,
                        xMin: real, xMax: real, yMin: real, yMax: real, gradientLength: int,
                        i: nat, y: nat, x: nat)
    requires n >= 1 && i < n && x < width
    requires BandStart(height, n, i) <= y < BandEnd(height, n, i)
    ensures y < height
    ensures BandPixel(width, height, n, params, xMin, xMax, yMin, yMax, gradientLength, y, x)
      == PixelOfBand(width, height, n, i, params, xMin, xMax, yMin, yMax, gradientLength, y, x)
  {
    BandShape(height, n, i);
    BandOfContains(height, n, y);
    assert BandOf(height, n, y) == i;
  }

  /** `calculate_segment(start_y, end_y, i)` up to the write: the band's coloured rows,
      or None when the thread raises (the exception ends that thread only). */
  method RenderSegment(width: nat, height: nat, n: nat, i: nat, params: Bag,
                       xMin: real, xMax: real, yMin: real, yMax: real,
                       coloring: ColoringAlgorithm, gradient: seq<Color>)
    returns (segment: Option<array3<int>>)
    requires n >= 1 && height >= 1 && i < n
    requires coloring.Valid()
    ensures var r := BandColored(width, height, n, i, params, xMin, xMax, yMin, yMax, |gradient|);
      (r.Raised? ==> segment.None?)
      && (r.Ok? ==> segment.Some? && fresh(segment.value)
                    && IsImage(segment.value, r.value, BandEnd(height, n, i) - BandStart(height, n, i), width))
  {
    BandShape(height, n, i);
    var start, end := BandStart(height, n, i), BandEnd(height, n, i);
    var f := New(width, end - start);
    SetParams(f, params);
    var y0, y1 := EdgeY(yMin, yMax, height, start), EdgeY(yMin, yMax, height, end);
    ghost var r := Colored(Field(f.width, f.height, f.params, xMin, xMax, y0, y1), |gradient|);
    assert r == BandColored(width, height, n, i, params, xMin, xMax, yMin, yMax, |gradient|);
    var out := ComputeAndColor(f, xMin, xMax, y0, y1, coloring, gradient);
    if out.Raised? {
      return None;
    }
    return Some(out.value);
  }

  /** Rows before `rows` hold their band's pixels, the others are still zero. */
  ghost predicate FilledUpTo(result: array3<int>, width: nat, height: nat, n: nat, params: Bag,
                             xMin: real, xMax: real, yMin: real, yMax: real, gradientLength: int, rows: int)
    reads result
    requires n >= 1 && result.Length0 == height && result.Length1 == width && result.Length2 == 4
  {
    forall y, x, k :: 0 <= y < height && 0 <= x < width && 0 <= k < 4 ==>
      result[y, x, k] == if y < rows
        then BandPixel(width, height, n, params, xMin, xMax, yMin, yMax, gradientLength, y, x)[k] else 0
  }

  /** One thread of `render_parallel`: band i is computed and, unless that raised,
      written into its rows. */
  method FillBand(result: array3<int>, width: nat, height: nat, n: nat, i: nat, params: Bag,
                  xMin: real, xMax: real, yMin: real, yMax: real,
                  coloring: ColoringAlgorithm, gradient: seq<Color>)
    modifies result
    requires n >= 1 && i < n && coloring.Valid()
    requires result.Length0 == height && result.Length1 == width && result.Length2 == 4
    requires FilledUpTo(result, width, height, n, params, xMin, xMax, yMin, yMax, |gradient|, BandStart(height, n, i))
    ensures FilledUpTo(result, width, height, n, params, xMin, xMax, yMin, yMax, |gradient|, BandEnd(height, n, i))
  {
    BandShape(height, n, i);
    var start, end := BandStart(height, n, i), BandEnd(height, n, i);
    if height == 0 {
      return;
    }
    ghost var r := BandColored(width, height, n, i, params, xMin, xMax, yMin, yMax, |gradient|);
    var segment := RenderSegment(width, height, n, i, params, xMin, xMax, yMin, yMax, coloring, gradient);
    if segment.Some? {
      WriteBand(result, start, segment.value);
    }
    forall y, x, k | 0 <= y < height && 0 <= x < width && 0 <= k < 4
      ensures result[y, x, k] == if y < end
        then BandPixel(width, height, n, params, xMin, xMax, yMin, yMax, |gradient|, y, x)[k] else 0
    {
      if start <= y < end {
        BandPixelInBand(width, height, n, params, xMin, xMax, yMin, yMax, |gradient|, i, y, x);
        var p := PixelOfBand(width, height, n, i, params, xMin, xMax, yMin, yMax, |gradient|, y, x);
        if segment.Some? {
          assert result[y, x, k] == segment.value[y - start, x, k];
          assert segment.value[y - start, x, k] == Pixel(r.value[y - start][x])[k];
          assert result[y, x, k] == p[k];
        } else {
          assert result[y, x, k] == old(result[y, x, k]) == 0;
          assert p == [0, 0, 0, 0];
        }
      } else {
        assert result[y, x, k] == old(result[y, x, k]);
      }
    }
  }

  /** The thread loop of `render_parallel`, run band after band: starting from zeros,
      every row ends up holding its band's pixels. */
  method FillBands(result: array3<int>, width: nat, height: nat, n: nat, params: Bag,
                   xMin: real, xMax: real, yMin: real, yMax: real,
                   coloring: ColoringAlgorithm, gradient: seq<Color>)
    modifies result
    requires n >= 1 && coloring.Valid()
    requires result.Length0 == height && result.Length1 == width && result.Length2 == 4
    requires forall y, x, k :: 0 <= y < height && 0 <= x < width && 0 <= k < 4 ==> result[y, x, k] == 0
    ensures FilledUpTo(result, width, height, n, params, xMin, xMax, yMin, yMax, |gradient|, height)
  {
    BandShape(height, n, 0);
    ghost var rows := 0;
    assert FilledUpTo(result, width, height, n, params, xMin, xMax, yMin, yMax, |gradient|, rows);
    var i := 0;
    while i < n
      invariant 0 <= i <= n
      invariant rows == if i < n then BandStart(height, n, i) else height
      invariant FilledUpTo(result, width, height, n, params, xMin, xMax, yMin, yMax, |gradient|, rows)
    {
      BandShape(height, n, i);
      FillBand(result, width, height, n, i, params, xMin, xMax, yMin, yMax, coloring, gradient);
      rows := BandEnd(height, n, i);
      i := i + 1;
    }
  }

  /** `result[start_y:end_y, :, :] = segment_colored`. */
  method WriteBand(result: array3<int>, start: nat, segment: array3<int>)
    modifies result
    requires result != segment
    requires start + segment.Length0 <= result.Length0
    requires segment.Length1 == result.Length1 && segment.Length2 == result.Length2
    ensures forall y, x, k :: 0 <= y < result.Length0 && 0 <= x < result.Length1 && 0 <= k < result.Length2 ==>
      result[y, x, k] == if start <= y < start + segment.Length0 then segment[y - start, x, k] else old(result[y, x, k])
  {
    var a := 0;
    while a < segment.Length0
      invariant 0 <= a <= segment.Length0
      invariant forall y, x, k :: 0 <= y < result.Length0 && 0 <= x < result.Length1 && 0 <= k < result.Length2 ==>
        result[y, x, k] == if start <= y < start + a then segment[y - start, x, k] else old(result[y, x, k])
    {
      var x := 0;
      while x < segment.Length1
        invariant 0 <= x <= segment.Length1
        invariant forall y, b, k :: 0 <= y < result.Length0 && 0 <= b < result.Length1 && 0 <= k < result.Length2 ==>
          result[y, b, k] == if start <= y < start + a || (y == start + a && b < x) then segment[y - start, b, k]
                             else old(result[y, b, k])
      {
        var k := 0;
        while k < segment.Length2
          invariant 0 <= k <= segment.Length2
          invariant forall y, b, c :: 0 <= y < result.Length0 && 0 <= b < result.Length1 && 0 <= c < result.Length2 ==>
            result[y, b, c] == if start <= y < start + a || (y == start + a && (b < x || (b == x && c < k)))
                               then segment[y - start, b, c] else old(result[y, b, c])
        {
          result[start + a, x, k] := segment[a, x, k];
          k := k + 1;
        }
        x := x + 1;
      }
      a := a + 1;
    }
  }

  // ---------------------------------------------------------------------------
  // The background gradient.
  // ---------------------------------------------------------------------------

  /** The colour of every row of the background `apply_background_gradient` draws (the
      stops are searched in the order given, not sorted), or what it raises: a negative
      size makes `Image.new` raise ValueError, a single row divides 0 by 0, and with no
      stops the end-colour fallback raises IndexError. */
  function BackgroundRows(width: int, height: int, stops: seq<Stop>): (r: Outcome<seq<Color>>)
    ensures r.Ok? ==> |r.value| == height
  {
    if width < 0 || height < 0 then Raised("ValueError")
    else if height == 0 then Ok([])
    else if height == 1 then Raised("ZeroDivisionError")
    else if |stops| == 0 then Raised("IndexError")
    else Ok(seq(height, y requires 0 <= y < height => ColorAt(stops, PointPosition(y, height))))
  }

  /** For stops already in position order the background rows are the gradient table
      `create_rgb_gradient` builds with one entry per row. */
  lemma BackgroundIsGradientTable(width: nat, height: nat, stops: seq<Stop>)
    requires SortedByPosition(stops)
    ensures BackgroundRows(width, height, stops) == GradientTable(stops, height)
  {
    SortedUnchanged(stops);
  }

  /** Row 0 takes the colour at position 0.0 and the last row the colour at 1.0. */
  lemma BackgroundEnds(width: nat, height: nat, stops: seq<Stop>)
    requires height >= 2 && |stops| >= 1
    ensures BackgroundRows(width, height, stops).Ok?
    ensures BackgroundRows(width, height, stops).value[0] == ColorAt(stops, 0.0)
    ensures BackgroundRows(width, height, stops).value[height - 1] == ColorAt(stops, 1.0)
  {
    EndPositions(height);
  }

  class FractalRenderer {
    var width: int
    var height: int
    var background: Color

    /** `FractalRenderer(width, height)`: opaque black background. */
    constructor (width: int, height: int)
      ensures this.width == width && this.height == height
      ensures background == Color(0, 0, 0, 255)
    {
      this.width := width;
      this.height := height;
      background := Color(0, 0, 0, 255);
    }

    /** `set_background_color`: replaces the colour, nothing else. */
    method SetBackgroundColor(color: Color)
      modifies this
      ensures background == color && width == old(width) && height == old(height)
    {
      background := color;
    }

    /** `render`: the coloured field at the fractal's own size. */
    method Render(f: FractalBase, xMin: real, xMax: real, yMin: real, yMax: real,
                  coloring: ColoringAlgorithm, gradient: seq<Color>)
      returns (out: Outcome<array3<int>>)
      requires coloring.Valid()
      ensures var r := Colored(Field(f.width, f.height, f.params, xMin, xMax, yMin, yMax), |gradient|);
        (r.Raised? ==> out == Raised(r.error))
        && (r.Ok? ==> out.Ok? && fresh(out.value) && IsImage(out.value, r.value, f.height, f.width))
    {
      out := ComputeAndColor(f, xMin, xMax, yMin, yMax, coloring, gradient);
    }

    /** `render_high_quality`: computes at `oversample` times the renderer's size and
        sets the fractal back to its own size afterwards. If computing or colouring
        raises, the restoring `resize` is never reached and the fractal keeps the
        enlarged size. */
    method RenderHighQuality(f: FractalBase, xMin: real, xMax: real, yMin: real, yMax: real,
                             coloring: ColoringAlgorithm, gradient: seq<Color>, oversample: int)
      returns (out: Outcome<array3<int>>)
      modifies f
      requires coloring.Valid()
      ensures f.params == old(f.params)
      ensures var r := Colored(Field(width * oversample, height * oversample, f.params, xMin, xMax, yMin, yMax),
                               |gradient|);
        (r.Raised? ==> out == Raised(r.error)
                       && f.width == width * oversample && f.height == height * oversample)
        && (r.Ok? ==> out.Ok? && fresh(out.value)
                      && IsImage(out.value, r.value, height * oversample, width * oversample)
                      && f.width == old(f.width) && f.height == old(f.height))
    {
      var originalWidth, originalHeight := f.width, f.height;
      f.Resize(width * oversample, height * oversample);
      out := ComputeAndColor(f, xMin, xMax, yMin, yMax, coloring, gradient);
      if out.Raised? {
        return;
      }
      f.Resize(originalWidth, originalHeight);
    }

    /** `render_parallel` with `num_threads` given (the CPU count when it is None): the
        bands run one after another here. Zero threads divide by zero; a negative size
        makes `np.zeros` raise; otherwise every row holds its band's colours, or zeros
        where the band's thread raised, and with a negative thread count no band runs. */
    method RenderParallel(f: FractalBase, xMin: real, xMax: real, yMin: real, yMax: real,
                          coloring: ColoringAlgorithm, gradient: seq<Color>, numThreads: int)
      returns (out: Outcome<array3<int>>)
      requires coloring.Valid()
      ensures numThreads == 0 ==> out == Raised("ZeroDivisionError")
      ensures numThreads != 0 && (width < 0 || height < 0) ==> out == Raised("ValueError")
      ensures numThreads != 0 && width >= 0 && height >= 0 ==>
        out.Ok? && fresh(out.value)
        && out.value.Length0 == height && out.value.Length1 == width && out.value.Length2 == 4
        && forall y, x, k :: 0 <= y < height && 0 <= x < width && 0 <= k < 4 ==>
             out.value[y, x, k] == if numThreads < 0 then 0
               else BandPixel(width, height, numThreads, f.params, xMin, xMax, yMin, yMax, |gradient|, y, x)[k]
    {
      if numThreads == 0 {
        return Raised("ZeroDivisionError");
      }
      if width < 0 || height < 0 {
        return Raised("ValueError");
      }
      var result := new int[height, width, 4]((y, x, k) => 0);
      if numThreads < 0 {
        return Ok(result);
      }
      FillBands(result, width, height, numThreads, f.params, xMin, xMax, yMin, yMax, coloring, gradient);
      return Ok(result);
    }

    /** `apply_background_gradient`: the colour of each row of the background. */
    method ApplyBackgroundGradient(stops: seq<Stop>) returns (out: Outcome<seq<Color>>)
      ensures out == BackgroundRows(width, height, stops)
    {
      if width < 0 || height < 0 {
        return Raised("ValueError");
      }
      var rows: seq<Color> := [];
      var y := 0;
      while y < height
        invariant 0 <= y <= height
        invariant y > 0 ==> height >= 2 && |stops| >= 1
        invariant |rows| == y
        invariant forall k :: 0 <= k < y ==> rows[k] == ColorAt(stops, PointPosition(k, height))
      {
        if height - 1 == 0 {
          return Raised("ZeroDivisionError");
        }
        var color := ScanStops(stops, PointPosition(y, height));
        if color.None? {
          return Raised("IndexError");
        }
        rows := rows + [color.value];
        y := y + 1;
      }
      assert height >= 2 ==> rows == BackgroundRows(width, height, stops).value;
      return Ok(rows);
    }
  }
}
