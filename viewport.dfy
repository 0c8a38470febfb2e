/** The view rectangle of the complex plane and the mouse gestures that move it: the
    zoom and drag of app_fixed.py, and the wheel zoom and right-button pan of the two
    Julia viewers (fractal_20250216-2122.py and ui/main_window.py). */
module Viewport {

  /** `x_min`, `x_max`, `y_min`, `y_max` of a view. */
  datatype View = View(xMin: real, xMax: real, yMin: real, yMax: real)

  function Width(v: View): real { v.xMax - v.xMin }
  function Height(v: View): real { v.yMax - v.yMin }

  /** The initial view of app_fixed.py: [-2, 1] x [-1.5, 1.5]. */
  const AppInitialView := View(-2.0, 1.0, -1.5, 1.5)

  /** The initial view of both Julia viewers: [-2, 2] x [-2, 2]. */
  const ViewerInitialView := View(-2.0, 2.0, -2.0, 2.0)

  // ---------------------------------------------------------------------------
  // app_fixed.py: canvas row 0 is the top edge, y_max.
  // ---------------------------------------------------------------------------

  /** The complex point at relative canvas position (relX, relY) in the app's
      convention: x grows to the right from `x_min`, y falls downwards from `y_max`. */
  function AppPoint(v: View, relX: real, relY: real): (real, real)
  {
    (v.xMin + Width(v) * relX, v.yMax - Height(v) * relY)
  }

  /** The new view `zoom_at_point` computes for the relative position (x / canvas width,
      y / canvas height). */
  function ZoomAt(v: View, factor: real, relX: real, relY: real): View
  {
    var centerX := v.xMin + Width(v) * relX;
    var centerY := v.yMax - Height(v) * relY;
    var newWidth := Width(v) * factor;
    var newHeight := Height(v) * factor;
    View(centerX - newWidth * relX, centerX + newWidth * (1.0 - relX),
         centerY - newHeight * (1.0 - relY), centerY + newHeight * relY)
  }

  /** Zooming keeps the complex point under the anchor where it was and multiplies both
      spans by the factor. */
  lemma ZoomAtKeepsAnchor(v: View, factor: real, relX: real, relY: real)
    ensures AppPoint(ZoomAt(v, factor, relX, relY), relX, relY) == AppPoint(v, relX, relY)
    ensures Width(ZoomAt(v, factor, relX, relY)) == Width(v) * factor
    ensures Height(ZoomAt(v, factor, relX, relY)) == Height(v) * factor
  {
    var w, h := Width(v) * factor, Height(v) * factor;
    assert w * (1.0 - relX) == w - w * relX;
    assert h * (1.0 - relY) == h - h * relY;
    var z := ZoomAt(v, factor, relX, relY);
    assert Width(z) == w && Height(z) == h;
    assert Width(z) * relX == w * relX && Height(z) * relY == h * relY;
    assert AppPoint(z, relX, relY).0 == AppPoint(v, relX, relY).0;
    assert AppPoint(z, relX, relY).1 == AppPoint(v, relX, relY).1;
  }

  /** The wheel factor of `on_canvas_wheel`: 1.1 (out) for button 5 or a negative delta,
      0.9 (in) otherwise. */
  function AppWheelFactor(num: int, delta: int): real
  {
    if num == 5 || delta < 0 then 1.1 else 0.9
  }

  /** The view after `on_canvas_drag` moved the pointer by (dx, dy) pixels on a canvas of
      the given size. */
  function Drag(v: View, dx: int, dy: int, canvasWidth: int, canvasHeight: int): View
    requires canvasWidth != 0 && canvasHeight != 0
  {
    var dxView := dx as real * Width(v) / canvasWidth as real;
    var dyView := dy as real * Height(v) / canvasHeight as real;
    View(v.xMin - dxView, v.xMax - dxView, v.yMin + dyView, v.yMax + dyView)
  }

  /** Dragging keeps both spans, and the complex point that was under the pointer is
      under it again after the move. */
  lemma DragFollowsPointer(v: View, dx: int, dy: int, canvasWidth: int, canvasHeight: int,
                           relX: real, relY: real)
    requires canvasWidth != 0 && canvasHeight != 0
    ensures Width(Drag(v, dx, dy, canvasWidth, canvasHeight)) == Width(v)
    ensures Height(Drag(v, dx, dy, canvasWidth, canvasHeight)) == Height(v)
    ensures AppPoint(Drag(v, dx, dy, canvasWidth, canvasHeight),
                     relX + dx as real / canvasWidth as real, relY + dy as real / canvasHeight as real)
            == AppPoint(v, relX, relY)
  {
    var cw, ch := canvasWidth as real, canvasHeight as real;
    var d := Drag(v, dx, dy, canvasWidth, canvasHeight);
    var sx, sy := dx as real / cw, dy as real / ch;
    assert dx as real * Width(v) / cw == Width(v) * sx;
    assert dy as real * Height(v) / ch == Height(v) * sy;
    assert Width(d) == Width(v) && Height(d) == Height(v);
    assert Width(d) * (relX + sx) == Width(v) * relX + Width(v) * sx;
    assert Height(d) * (relY + sy) == Height(v) * relY + Height(v) * sy;
    assert AppPoint(d, relX + sx, relY + sy).0 == AppPoint(v, relX, relY).0;
    assert AppPoint(d, relX + sx, relY + sy).1 == AppPoint(v, relX, relY).1;
  }

  // ---------------------------------------------------------------------------
  // The Julia viewers: canvas row 0 is y_min.
  // ---------------------------------------------------------------------------

  /** The complex point at relative canvas position (relX, relY) in the viewers'
      convention: both coordinates grow from the minimum. */
  function ViewerPoint(v: View, relX: real, relY: real): (real, real)
  {
    (v.xMin + Width(v) * relX, v.yMin + Height(v) * relY)
  }

  /** The wheel factor of the viewers' `on_mousewheel`: 0.9 (in) for button 4 or a
      positive delta, 1.1 (out) otherwise. */
  function ViewerWheelFactor(num: int, delta: int): real
  {
    if num == 4 || delta > 0 then 0.9 else 1.1
  }

  /** The two wheel rules agree on real wheel events but not on every event: a delta of
      0 outside buttons 4 and 5 zooms the app in and the viewers out, and button 4 with a
      negative delta zooms the app out and the viewers in. */
  lemma WheelRulesDiffer(num: int, delta: int)
    ensures (num == 4 && delta >= 0) || (num == 5 && delta <= 0) ==>
      AppWheelFactor(num, delta) == ViewerWheelFactor(num, delta)
    ensures num != 4 && num != 5 && delta != 0 ==> AppWheelFactor(num, delta) == ViewerWheelFactor(num, delta)
    ensures num != 4 && num != 5 && delta == 0 ==> AppWheelFactor(num, delta) == 0.9 && ViewerWheelFactor(num, delta) == 1.1
    ensures num == 4 && delta < 0 ==> AppWheelFactor(num, delta) == 1.1 && ViewerWheelFactor(num, delta) == 0.9
  {
  }

  /** The new view of the viewers' `on_mousewheel` for the pointer at relative position
      (canvas_x / canvas_width, canvas_y / canvas_height). */
  function WheelZoom(v: View, factor: real, relX: real, relY: real): View
  {
    var complexX := v.xMin + Width(v) * relX;
    var complexY := v.yMin + Height(v) * relY;
    var width := Width(v) * factor;
    var height := Height(v) * factor;
    View(complexX - width * relX, complexX + width * (1.0 - relX),
         complexY - height * relY, complexY + height * (1.0 - relY))
  }

  /** The wheel keeps the complex point under the pointer and scales both spans. */
  lemma WheelZoomKeepsPointer(v: View, factor: real, relX: real, relY: real)
    ensures ViewerPoint(WheelZoom(v, factor, relX, relY), relX, relY) == ViewerPoint(v, relX, relY)
    ensures Width(WheelZoom(v, factor, relX, relY)) == Width(v) * factor
    ensures Height(WheelZoom(v, factor, relX, relY)) == Height(v) * factor
  {
    var w, h := Width(v) * factor, Height(v) * factor;
    assert w * (1.0 - relX) == w - w * relX;
    assert h * (1.0 - relY) == h - h * relY;
    var z := WheelZoom(v, factor, relX, relY);
    assert Width(z) == w && Height(z) == h;
    assert Width(z) * relX == w * relX && Height(z) * relY == h * relY;
    assert ViewerPoint(z, relX, relY).0 == ViewerPoint(v, relX, relY).0;
    assert ViewerPoint(z, relX, relY).1 == ViewerPoint(v, relX, relY).1;
  }

  /** The view after `on_pan` moved the pointer by (dx, dy) pixels. */
  function Pan(v: View, dx: int, dy: int, canvasWidth: int, canvasHeight: int): View
    requires canvasWidth != 0 && canvasHeight != 0
  {
    var xScale := Width(v) / canvasWidth as real;
    var yScale := Height(v) / canvasHeight as real;
    var dxComplex := -dx as real * xScale;
    var dyComplex := -dy as real * yScale;
    View(v.xMin + dxComplex, v.xMax + dxComplex, v.yMin + dyComplex, v.yMax + dyComplex)
  }

  /** Panning keeps both spans and moves every bound by the same amount, against the
      pointer's motion: the point under the pointer follows it. */
  lemma PanFollowsPointer(v: View, dx: int, dy: int, canvasWidth: int, canvasHeight: int,
                          relX: real, relY: real)
    requires canvasWidth != 0 && canvasHeight != 0
    ensures Width(Pan(v, dx, dy, canvasWidth, canvasHeight)) == Width(v)
    ensures Height(Pan(v, dx, dy, canvasWidth, canvasHeight)) == Height(v)
    ensures ViewerPoint(Pan(v, dx, dy, canvasWidth, canvasHeight),
                        relX + dx as real / canvasWidth as real, relY + dy as real / canvasHeight as real)
            == ViewerPoint(v, relX, relY)
  {
    var cw, ch := canvasWidth as real, canvasHeight as real;
    var p := Pan(v, dx, dy, canvasWidth, canvasHeight);
    var sx, sy := dx as real / cw, dy as real / ch;
    assert -dx as real * (Width(v) / cw) == -(Width(v) * sx);
    assert -dy as real * (Height(v) / ch) == -(Height(v) * sy);
    assert Width(p) == Width(v) && Height(p) == Height(v);
    assert Width(p) * (relX + sx) == Width(v) * relX + Width(v) * sx;
    assert Height(p) * (relY + sy) == Height(v) * relY + Height(v) * sy;
    assert ViewerPoint(p, relX + sx, relY + sy).0 == ViewerPoint(v, relX, relY).0;
    assert ViewerPoint(p, relX + sx, relY + sy).1 == ViewerPoint(v, relX, relY).1;
  }
}
