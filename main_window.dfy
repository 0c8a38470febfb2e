/** `MainWindow` of the `ui` package: the same state as the stand-alone viewer, but the
    drawing goes through `core.color_map.create_colormap`, which never touches the colour
    variables, and the control panel changes parameters through the `set_*_param`
    setters. */
module MainWindowUi {
  import opened Common
  import opened Viewport
  import opened Sampling
  import opened HexColor
  import opened Viewers

  class MainWindow {
    var cReal: real
    var cImag: real
    var maxIter: int
    var startColor: string
    var endColor: string
    var view: View
    var panStart: Option<(int, int)>

    function Model(): Settings
      reads this
    {
      Settings(cReal, cImag, maxIter, startColor, endColor, view, panStart)
    }

    /** `__init__` without the widgets and the control panel. */
    constructor ()
      ensures Model() == InitialSettings
    {
      cReal, cImag, maxIter := -0.4, 0.6, 100;
      startColor, endColor := DefaultStartColor, DefaultEndColor;
      view := ViewerInitialView;
      panStart := None;
    }

    /** `_draw(quick)` once `calculate_julia` has produced `output` on the strided grid:
        the stride is 4 for a quick draw and 1 otherwise, the colours come from the end
        colours the variables hold (or the fallback pair), and no field changes. The
        repetition of each colour into a stride×stride block is `Upsample`. */
    method Draw(quick: bool, output: array2<real>) returns (skip: nat, colors: array3<int>)
      ensures skip == (if quick then 4 else 1)
      ensures fresh(colors)
      ensures colors.Length0 == output.Length0 && colors.Length1 == output.Length1 && colors.Length2 == 3
      ensures forall i, j, k :: 0 <= i < colors.Length0 && 0 <= j < colors.Length1 && 0 <= k < 3 ==>
        colors[i, j, k] == MapChannel(output[i, j], Endpoints(startColor, endColor).0,
                                      Endpoints(startColor, endColor).1, k)
    {
      if quick {
        skip := 4;
      } else {
        skip := 1;
      }
      colors := CreateColormap(output, startColor, endColor);
    }

    /** `on_mousewheel` with the pointer at canvas pixel (canvasX, canvasY). */
    method OnMousewheel(num: int, delta: int, canvasX: int, canvasY: int)
      modifies this
      ensures Model() == MousewheelSpec(old(Model()), num, delta, canvasX, canvasY)
    {
      view := WheelZoom(view, ViewerWheelFactor(num, delta),
                        canvasX as real / CanvasWidth as real, canvasY as real / CanvasHeight as real);
    }

    /** `start_pan`. */
    method StartPan(x: int, y: int)
      modifies this
      ensures Model() == StartPanSpec(old(Model()), x, y)
    {
      panStart := Some((x, y));
    }

    /** `on_pan`. */
    method OnPan(x: int, y: int)
      modifies this
      ensures Model() == OnPanSpec(old(Model()), x, y)
    {
      if panStart.None? {
        return;
      }
      var dx, dy := x - panStart.value.0, y - panStart.value.1;
      view := Pan(view, dx, dy, CanvasWidth, CanvasHeight);
      panStart := Some((x, y));
    }

    /** `reset_view`. */
    method ResetView()
      modifies this
      ensures Model() == ResetViewSpec(old(Model()))
    {
      view := ViewerInitialView;
    }

    /** `reset_params`: every parameter and the view return to their initial values; only
        the pan start is kept. */
    method ResetParams()
      modifies this
      ensures Model() == InitialSettings.(panStart := old(panStart))
    {
      cReal, cImag, maxIter := -0.4, 0.6, 100;
      startColor, endColor := DefaultStartColor, DefaultEndColor;
      ResetView();
    }

    /** `set_real_param`: stores the value as given, without a clamp. */
    method SetRealParam(value: real)
      modifies this
      ensures Model() == old(Model()).(cReal := value)
    {
      cReal := value;
    }

    /** `set_imag_param`: stores the value as given, without a clamp. */
    method SetImagParam(value: real)
      modifies this
      ensures Model() == old(Model()).(cImag := value)
    {
      cImag := value;
    }

    /** `set_max_iter_param`: stores the value as given, without a lower bound. */
    method SetMaxIterParam(value: int)
      modifies this
      ensures Model() == old(Model()).(maxIter := value)
    {
      maxIter := value;
    }

    /** `set_start_color_param`: a valid colour is stored, anything else becomes blue. */
    method SetStartColorParam(colorHex: string)
      modifies this
      ensures Model() == old(Model()).(startColor := ValidOrDefault(colorHex, DefaultStartColor))
      ensures IsValidHexColor(startColor)
    {
      if IsValidHexColor(colorHex) {
        startColor := colorHex;
      } else {
        startColor := DefaultStartColor;
        DefaultColorsValid();
      }
    }

    /** `set_end_color_param`: a valid colour is stored, anything else becomes white. */
    method SetEndColorParam(colorHex: string)
      modifies this
      ensures Model() == old(Model()).(endColor := ValidOrDefault(colorHex, DefaultEndColor))
      ensures IsValidHexColor(endColor)
    {
      if IsValidHexColor(colorHex) {
        endColor := colorHex;
      } else {
        endColor := DefaultEndColor;
        DefaultColorsValid();
      }
    }
  }
}
