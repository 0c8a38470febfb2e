/** `JuliaSetViewer` of the stand-alone viewer script: the Tk variables and the view as
    fields, one method per event handler. Every handler that ends in a quick draw also
    carries the one state change drawing makes: `create_colormap` resets both colour
    variables to their defaults when either fails to parse. */
module JuliaViewer {
  import opened Common
  import opened Viewport
  import opened HexColor
  import opened Viewers

  /** The state change of a draw: both colours reset to blue and white when either does
      not parse; otherwise nothing. */
  function DrawSpec(s: Settings): Settings
  {
    if HexToRgb(s.startColor).Raised? || HexToRgb(s.endColor).Raised? then
      s.(startColor := DefaultStartColor, endColor := DefaultEndColor)
    else s
  }

  /** After a draw both colour variables parse, and their colours are exactly the end
      colours the draw used (the parsed pair, or the fallback pair). Only the colours can
      change, and drawing again changes nothing. */
  lemma DrawLeavesParsableColors(s: Settings)
    ensures var t := DrawSpec(s);
            && HexToRgb(t.startColor).Ok? && HexToRgb(t.endColor).Ok?
            && Endpoints(s.startColor, s.endColor) == (HexToRgb(t.startColor).value, HexToRgb(t.endColor).value)
            && t.(startColor := s.startColor, endColor := s.endColor) == s
            && DrawSpec(t) == t
  {
    DefaultColorsParse();
  }

  /** A draw from valid, parsable colours changes nothing; in particular the initial
      draw and the draw after `reset_params` keep the defaults. */
  lemma DrawKeepsDefaults(s: Settings)
    requires s.startColor == DefaultStartColor && s.endColor == DefaultEndColor
    ensures DrawSpec(s) == s
  {
    DefaultColorsParse();
  }

  /** `on_color_change`: validate both entries, then draw. Afterwards both colours are
      valid and parse, whatever the entries held. */
  lemma ColorChangeLeavesUsableColors(s: Settings)
    ensures var t := DrawSpec(ValidateEndSpec(ValidateStartSpec(s)));
            && IsValidHexColor(t.startColor) && IsValidHexColor(t.endColor)
            && HexToRgb(t.startColor).Ok? && HexToRgb(t.endColor).Ok?
  {
    var u := ValidateEndSpec(ValidateStartSpec(s));
    ValidatedColorsAreValid(s);
    DrawLeavesParsableColors(u);
    DefaultColorsValid();
  }

  class JuliaSetViewer {
    var cReal: real
    var cImag: real
    var maxIter: int
    var startColor: string
    var endColor: string
    var view: View
    var panStart: Option<(int, int)>

    function Model(): Settings
      reads this
    {
      Settings(cReal, cImag, maxIter, startColor, endColor, view, panStart)
    }

    /** `__init__` without the widgets. Its closing quick draw keeps the defaults. */
    constructor ()
      ensures Model() == InitialSettings
    {
      cReal, cImag, maxIter := -0.4, 0.6, 100;
      startColor, endColor := DefaultStartColor, DefaultEndColor;
      view := ViewerInitialView;
      panStart := None;
      new;
      DrawKeepsDefaults(Model());
      Redraw();
    }

    /** The state change of `quick_draw` and `full_draw`: the colour check of
        `create_colormap`. */
    method Redraw()
      modifies this
      ensures Model() == DrawSpec(old(Model()))
    {
      var s, e := HexToRgb(startColor), HexToRgb(endColor);
      if s.Raised? || e.Raised? {
        startColor, endColor := DefaultStartColor, DefaultEndColor;
      }
    }

    /** `create_colormap(values)`: the colours of the samples, from the end colours the
        variables held, and the reset of both variables when either fails to parse. */
    method CreateColormap(values: array2<real>) returns (colors: array3<int>)
      modifies this
      ensures Model() == DrawSpec(old(Model()))
      ensures fresh(colors)
      ensures colors.Length0 == values.Length0 && colors.Length1 == values.Length1 && colors.Length2 == 3
      ensures forall i, j, k :: 0 <= i < colors.Length0 && 0 <= j < colors.Length1 && 0 <= k < 3 ==>
        colors[i, j, k] == MapChannel(values[i, j], Endpoints(old(startColor), old(endColor)).0,
                                      Endpoints(old(startColor), old(endColor)).1, k)
    {
      var e := Endpoints(startColor, endColor);
      Redraw();
      colors := FillColormap(values, e.0, e.1);
    }

    /** `on_mousewheel` with the pointer at canvas pixel (canvasX, canvasY). */
    method OnMousewheel(num: int, delta: int, canvasX: int, canvasY: int)
      modifies this
      ensures Model() == DrawSpec(MousewheelSpec(old(Model()), num, delta, canvasX, canvasY))
    {
      view := WheelZoom(view, ViewerWheelFactor(num, delta),
                        canvasX as real / CanvasWidth as real, canvasY as real / CanvasHeight as real);
      Redraw();
    }

    /** `start_pan`. */
    method StartPan(x: int, y: int)
      modifies this
      ensures Model() == StartPanSpec(old(Model()), x, y)
    {
      panStart := Some((x, y));
    }

    /** `on_pan`: returns at once before `start_pan`; otherwise pans and draws. */
    method OnPan(x: int, y: int)
      modifies this
      ensures old(panStart).None? ==> Model() == old(Model())
      ensures old(panStart).Some? ==> Model() == DrawSpec(OnPanSpec(old(Model()), x, y))
    {
      if panStart.None? {
        return;
      }
      ghost var s0 := Model();
      var dx, dy := x - panStart.value.0, y - panStart.value.1;
      view := Pan(view, dx, dy, CanvasWidth, CanvasHeight);
      panStart := Some((x, y));
      assert Model() == OnPanSpec(s0, x, y);
      Redraw();
    }

    /** `reset_view`. */
    method ResetView()
      modifies this
      ensures Model() == DrawSpec(ResetViewSpec(old(Model())))
    {
      view := ViewerInitialView;
      Redraw();
    }

    /** `reset_params`: every parameter and the view return to their initial values; only
        the pan start is kept. */
    method ResetParams()
      modifies this
      ensures Model() == InitialSettings.(panStart := old(panStart))
    {
      cReal, cImag, maxIter := -0.4, 0.6, 100;
      startColor, endColor := DefaultStartColor, DefaultEndColor;
      DrawKeepsDefaults(ResetViewSpec(Model()));
      ResetView();
    }

    /** `on_color_change`: invalid entries are replaced by the defaults, then a draw. */
    method OnColorChange()
      modifies this
      ensures Model() == DrawSpec(ValidateEndSpec(ValidateStartSpec(old(Model()))))
      ensures IsValidHexColor(startColor) && IsValidHexColor(endColor)
      ensures HexToRgb(startColor).Ok? && HexToRgb(endColor).Ok?
    {
      ghost var s0 := Model();
      startColor := ValidOrDefault(startColor, DefaultStartColor);
      endColor := ValidOrDefault(endColor, DefaultEndColor);
      assert Model() == ValidateEndSpec(ValidateStartSpec(s0));
      Redraw();
      ColorChangeLeavesUsableColors(s0);
    }

    /** `on_entry_change` with the two fields as read (None: not a number, in which case
        the read raises and nothing is stored or drawn). */
    method OnEntryChange(realIn: Option<real>, imagIn: Option<real>)
      modifies this
      ensures realIn.None? || imagIn.None? ==> Model() == old(Model())
      ensures realIn.Some? && imagIn.Some? ==> Model() == DrawSpec(EntryChangeSpec(old(Model()), realIn, imagIn))
    {
      if realIn.None? || imagIn.None? {
        return;
      }
      cReal := ClampReal(-2.0, 2.0, realIn.value);
      cImag := ClampReal(-2.0, 2.0, imagIn.value);
      Redraw();
    }

    /** `on_iter_change` with the field as read. */
    method OnIterChange(iterIn: Option<int>)
      modifies this
      ensures iterIn.None? ==> Model() == old(Model())
      ensures iterIn.Some? ==> Model() == DrawSpec(IterChangeSpec(old(Model()), iterIn))
    {
      if iterIn.None? {
        return;
      }
      maxIter := AtLeastOne(iterIn.value);
      Redraw();
    }
  }
}
