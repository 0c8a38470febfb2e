/** The state and the event rules shared by the two Julia set viewers: the stand-alone
    `JuliaSetViewer` and the `MainWindow`/`ControlPanel` pair. Both keep the same five
    Tk variables, the same view rectangle over an 800×500 canvas and the same pan start,
    and their wheel, pan and reset handlers compute the same new state. */
module Viewers {
  import opened Common
  import opened Viewport
  import opened Sampling
  import opened HexColor

  const CanvasWidth: int := 800
  const CanvasHeight: int := 500
  const DefaultStartColor: string := "#0000FF"
  const DefaultEndColor: string := "#FFFFFF"

  /** The viewer's state: the Julia constant c = real + imag·i, the iteration limit, the
      two colour strings as typed, the view rectangle and the recorded pan start. */
  datatype Settings = Settings(cReal: real, cImag: real, maxIter: int, startColor: string,
                               endColor: string, view: View, panStart: Option<(int, int)>)

  /** The state after construction: c = −0.4 + 0.6i, 100 iterations, blue to white, the
      view [−2, 2]², no pan in progress. */
  const InitialSettings := Settings(-0.4, 0.6, 100, DefaultStartColor, DefaultEndColor, ViewerInitialView, None)

  // ---------------------------------------------------------------------------
  // Wheel and pan.
  // ---------------------------------------------------------------------------

  /** `on_mousewheel` with the pointer at canvas pixel (canvasX, canvasY). */
  function MousewheelSpec(s: Settings, num: int, delta: int, canvasX: int, canvasY: int): Settings
  {
    s.(view := WheelZoom(s.view, ViewerWheelFactor(num, delta),
                         canvasX as real / CanvasWidth as real, canvasY as real / CanvasHeight as real))
  }

  /** The wheel changes only the view; the complex point under the pointer stays under it,
      and both spans are scaled by 0.9 (in) or 1.1 (out). */
  lemma MousewheelKeepsPointer(s: Settings, num: int, delta: int, canvasX: int, canvasY: int)
    ensures var t := MousewheelSpec(s, num, delta, canvasX, canvasY);
            var relX, relY := canvasX as real / 800.0, canvasY as real / 500.0;
            && ViewerPoint(t.view, relX, relY) == ViewerPoint(s.view, relX, relY)
            && Width(t.view) == Width(s.view) * (if num == 4 || delta > 0 then 0.9 else 1.1)
            && Height(t.view) == Height(s.view) * (if num == 4 || delta > 0 then 0.9 else 1.1)
            && t.(view := s.view) == s
  {
    WheelZoomKeepsPointer(s.view, ViewerWheelFactor(num, delta), canvasX as real / 800.0, canvasY as real / 500.0);
  }

  /** `start_pan`: record the pointer. */
  function StartPanSpec(s: Settings, x: int, y: int): Settings
  {
    s.(panStart := Some((x, y)))
  }

  /** `on_pan` with the pointer at (x, y): nothing before a pan start is recorded;
      otherwise the view moves against the pointer's motion and the pointer becomes the
      new pan start. */
  function OnPanSpec(s: Settings, x: int, y: int): Settings
  {
    match s.panStart
    case None => s
    case Some((px, py)) =>
      s.(view := Pan(s.view, x - px, y - py, CanvasWidth, CanvasHeight), panStart := Some((x, y)))
  }

  /** Panning before `start_pan` changes nothing. After it, both spans are kept and the
      complex point that was under the previous pointer position is under the new one. */
  lemma PanDragsPoint(s: Settings, x: int, y: int)
    ensures s.panStart.None? ==> OnPanSpec(s, x, y) == s
    ensures s.panStart.Some? ==>
      var t := OnPanSpec(s, x, y);
      var (px, py) := s.panStart.value;
      && Width(t.view) == Width(s.view) && Height(t.view) == Height(s.view)
      && ViewerPoint(t.view, x as real / 800.0, y as real / 500.0)
         == ViewerPoint(s.view, px as real / 800.0, py as real / 500.0)
      && t.panStart == Some((x, y))
  {
    if s.panStart.Some? {
      var (px, py) := s.panStart.value;
      var relX, relY := px as real / 800.0, py as real / 500.0;
      var t := OnPanSpec(s, x, y);
      assert t.view == Pan(s.view, x - px, y - py, CanvasWidth, CanvasHeight);
      PanFollowsPointer(s.view, x - px, y - py, CanvasWidth, CanvasHeight, relX, relY);
      assert (x - px) as real / CanvasWidth as real == (x - px) as real / 800.0;
      assert relX + (x - px) as real / 800.0 == x as real / 800.0;
      assert relY + (y - py) as real / 500.0 == y as real / 500.0;
      assert ViewerPoint(t.view, relX + (x - px) as real / 800.0, relY + (y - py) as real / 500.0)
          == ViewerPoint(s.view, relX, relY);
    }
  }

  // ---------------------------------------------------------------------------
  // Resets.
  // ---------------------------------------------------------------------------

  /** `reset_view`: the view goes back to `initial_view`. */
  function ResetViewSpec(s: Settings): Settings
  {
    s.(view := ViewerInitialView)
  }

  /** `reset_params`: the five variables get their initial values, then `reset_view`. */
  function ResetParamsSpec(s: Settings): (t: Settings)
    ensures t == InitialSettings.(panStart := s.panStart)
  {
    ResetViewSpec(s.(cReal := -0.4, cImag := 0.6, maxIter := 100,
                     startColor := DefaultStartColor, endColor := DefaultEndColor))
  }

  // ---------------------------------------------------------------------------
  // Parameter and colour validation.
  // ---------------------------------------------------------------------------

  /** Python's `max(1, v)`. */
  function AtLeastOne(v: int): (r: int)
    ensures r >= 1
    ensures v >= 1 ==> r == v
    ensures v < 1 ==> r == 1
  {
    if v >= 1 then v else 1
  }

  /** The colour an entry keeps after validation: itself when it is a valid `#RRGGBB`
      string in the sense of `is_valid_hex_color`, the given default otherwise. */
  function ValidOrDefault(color: string, default: string): (r: string)
    ensures IsValidHexColor(color) ==> r == color
    ensures !IsValidHexColor(color) ==> r == default
  {
    if IsValidHexColor(color) then color else default
  }

  /** The entry handlers' clamp: when both fields read as numbers, real and imag are
      stored clamped into [−2, 2]; when either does not, the handler raises before
      storing anything. */
  function EntryChangeSpec(s: Settings, realIn: Option<real>, imagIn: Option<real>): Settings
  {
    if realIn.Some? && imagIn.Some? then
      s.(cReal := ClampReal(-2.0, 2.0, realIn.value), cImag := ClampReal(-2.0, 2.0, imagIn.value))
    else s
  }

  /** The new c lies in [−2, 2]², a component already inside keeps its value, and nothing
      else changes. */
  lemma EntryChangeClamps(s: Settings, realIn: Option<real>, imagIn: Option<real>)
    ensures var t := EntryChangeSpec(s, realIn, imagIn);
            && t.(cReal := s.cReal, cImag := s.cImag) == s
            && (realIn.Some? && imagIn.Some? ==>
                  && -2.0 <= t.cReal <= 2.0 && -2.0 <= t.cImag <= 2.0
                  && (-2.0 <= realIn.value <= 2.0 ==> t.cReal == realIn.value)
                  && (-2.0 <= imagIn.value <= 2.0 ==> t.cImag == imagIn.value))
            && (realIn.None? || imagIn.None? ==> t == s)
  {
  }

  /** The iteration handlers: a number v is stored as max(1, v); a field that does not
      read as an integer stores nothing. */
  function IterChangeSpec(s: Settings, iterIn: Option<int>): (t: Settings)
    ensures iterIn.Some? ==> t.maxIter >= 1 && (iterIn.value >= 1 ==> t.maxIter == iterIn.value)
    ensures t.(maxIter := s.maxIter) == s
    ensures iterIn.None? ==> t == s
  {
    if iterIn.Some? then s.(maxIter := AtLeastOne(iterIn.value)) else s
  }

  /** Validation of the start colour entry: an invalid string is replaced by blue. */
  function ValidateStartSpec(s: Settings): Settings
  {
    s.(startColor := ValidOrDefault(s.startColor, DefaultStartColor))
  }

  /** Validation of the end colour entry: an invalid string is replaced by white. */
  function ValidateEndSpec(s: Settings): Settings
  {
    s.(endColor := ValidOrDefault(s.endColor, DefaultEndColor))
  }

  /** After both validations both entries hold valid colours, a valid entry is kept as
      typed, and nothing else changes. */
  lemma ValidatedColorsAreValid(s: Settings)
    ensures var t := ValidateEndSpec(ValidateStartSpec(s));
            && IsValidHexColor(t.startColor) && IsValidHexColor(t.endColor)
            && (IsValidHexColor(s.startColor) ==> t.startColor == s.startColor)
            && (IsValidHexColor(s.endColor) ==> t.endColor == s.endColor)
            && t.(startColor := s.startColor, endColor := s.endColor) == s
  {
    DefaultColorsValid();
  }

  /** Both default colours pass `is_valid_hex_color`. */
  lemma DefaultColorsValid()
    ensures IsValidHexColor(DefaultStartColor) && IsValidHexColor(DefaultEndColor)
  {
    StandardColorValid(DefaultStartColor);
    StandardColorValid(DefaultEndColor);
  }

  /** Both default colours parse to the fallback pair of `create_colormap`. */
  lemma DefaultColorsParse()
    ensures HexToRgb(DefaultStartColor) == Ok(DefaultStart)
    ensures HexToRgb(DefaultEndColor) == Ok(DefaultEnd)
  {
    BlueParses(DefaultStartColor);
    WhiteParses(DefaultEndColor);
  }

  lemma BlueParses(c: string)
    requires c == "#0000FF"
    ensures HexToRgb(c) == Ok(DefaultStart)
  {
    assert forall i :: 1 <= i < 7 ==> IsHexDigit(c[i]);
    StandardColorRgb(c);
    assert DigitValue(c[1]) == 0 && DigitValue(c[2]) == 0 && DigitValue(c[3]) == 0;
    assert DigitValue(c[4]) == 0 && DigitValue(c[5]) == 15 && DigitValue(c[6]) == 15;
    assert PairValue(c, 1) == 0 && PairValue(c, 3) == 0 && PairValue(c, 5) == 255;
  }

  lemma WhiteParses(c: string)
    requires c == "#FFFFFF"
    ensures HexToRgb(c) == Ok(DefaultEnd)
  {
    assert forall i :: 1 <= i < 7 ==> IsHexDigit(c[i]);
    StandardColorRgb(c);
    assert forall i :: 1 <= i < 7 ==> DigitValue(c[i]) == 15;
    assert PairValue(c, 1) == 255 && PairValue(c, 3) == 255 && PairValue(c, 5) == 255;
  }

  /** After validation an entry holds a valid colour, and a valid colour is never replaced. */
  lemma ValidationYieldsValidColor(color: string, default: string)
    requires IsValidHexColor(default)
    ensures IsValidHexColor(ValidOrDefault(color, default))
    ensures IsValidHexColor(color) <==> ValidOrDefault(color, default) == color
  {
  }

  // ---------------------------------------------------------------------------
  // Drawing.
  // ---------------------------------------------------------------------------

  /** The grid `calculate_julia(width, height, skip)` samples over view v: every skip-th
      abscissa and ordinate of the canvas linspace. */
  function SampleAxes(v: View, skip: nat): (seq<real>, seq<real>)
    requires skip >= 1
  {
    (Strided(Linspace(v.xMin, v.xMax, CanvasWidth), skip), Strided(Linspace(v.yMin, v.yMax, CanvasHeight), skip))
  }

  /** A quick draw samples a 200×125 grid at every 4th canvas pixel, and repeating each
      sample into a 4×4 block gives back exactly an 800×500 image. A full draw samples
      every pixel. */
  lemma QuickDrawCoversCanvas(v: View)
    ensures var (xs, ys) := SampleAxes(v, Stride(true));
            && |xs| == 200 && |ys| == 125
            && (forall j :: 0 <= j < 200 ==> xs[j] == Linspace(v.xMin, v.xMax, 800)[4 * j])
            && (forall i :: 0 <= i < 125 ==> ys[i] == Linspace(v.yMin, v.yMax, 500)[4 * i])
            && |xs| * Stride(true) == CanvasWidth && |ys| * Stride(true) == CanvasHeight
    ensures SampleAxes(v, Stride(false)) == (Linspace(v.xMin, v.xMax, 800), Linspace(v.yMin, v.yMax, 500))
  {
    var (xs, ys) := SampleAxes(v, 4);
    assert |xs| == (800 + 3) / 4 == 200;
    assert |ys| == (500 + 3) / 4 == 125;
    forall j | 0 <= j < 200
      ensures xs[j] == Linspace(v.xMin, v.xMax, 800)[4 * j]
    {
      assert j * 4 == 4 * j;
    }
    forall i | 0 <= i < 125
      ensures ys[i] == Linspace(v.yMin, v.yMax, 500)[4 * i]
    {
      assert i * 4 == 4 * i;
    }
    var (fx, fy) := SampleAxes(v, 1);
    assert fx == Linspace(v.xMin, v.xMax, 800);
    assert fy == Linspace(v.yMin, v.yMax, 500);
  }
}
