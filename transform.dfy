/** The pivot and transform editor: `Pivot` (position, rotation in degrees, two scales),
    `Transform` (a named, weighted, coloured pivot with a dictionary of variation weights),
    their dictionary forms, the weighted variation sum of `Transform.apply`, and the two
    editor widgets' state changes. Python dictionaries keep insertion order, so the
    variation dictionary is an ordered list of (name, weight) pairs with distinct names.
    `sin`, `cos`, `atan2` and `sqrt` are not defined here: they come in as the functions
    of a `Trig` value. */
module Transforms {
  import opened Common

  // ---------------------------------------------------------------------------
  // Ordered dictionaries of variation weights.
  // ---------------------------------------------------------------------------

  /** A Python dict from variation name to weight, in insertion order. */
  type Weights = seq<(string, real)>

  /** `name in d`. */
  predicate HasKey(vs: Weights, name: string)
  {
    |vs| > 0 && (vs[0].0 == name || HasKey(vs[1..], name))
  }

  /** Every name occurs once. */
  predicate UniqueKeys(vs: Weights)
  {
    |vs| == 0 || (!HasKey(vs[1..], vs[0].0) && UniqueKeys(vs[1..]))
  }

  /** `d.get(name)`. */
  function Lookup(vs: Weights, name: string): (r: Option<real>)
    ensures r.Some? <==> HasKey(vs, name)
  {
    if |vs| == 0 then None
    else if vs[0].0 == name then Some(vs[0].1)
    else Lookup(vs[1..], name)
  }

  /** `d[name] = w`: an existing entry keeps its place and gets the new weight; a new
      name is appended. */
  function Assign(vs: Weights, name: string, w: real): Weights
  {
    if |vs| == 0 then [(name, w)]
    else if vs[0].0 == name then [(name, w)] + vs[1..]
    else [vs[0]] + Assign(vs[1..], name, w)
  }

  /** `del d[name]`. */
  function Remove(vs: Weights, name: string): Weights
  {
    if |vs| == 0 then []
    else if vs[0].0 == name then vs[1..]
    else [vs[0]] + Remove(vs[1..], name)
  }

  /** After `d[name] = w` the name maps to w, every other name keeps its weight, the
      names stay distinct, and the dictionary grows by one exactly when the name was new. */
  lemma {:induction false} AssignLookup(vs: Weights, name: string, w: real, other: string)
    requires UniqueKeys(vs)
    ensures Lookup(Assign(vs, name, w), name) == Some(w)
    ensures other != name ==> Lookup(Assign(vs, name, w), other) == Lookup(vs, other)
    ensures HasKey(Assign(vs, name, w), other) <==> other == name || HasKey(vs, other)
    ensures UniqueKeys(Assign(vs, name, w))
    ensures |Assign(vs, name, w)| == if HasKey(vs, name) then |vs| else |vs| + 1
  {
    var r := Assign(vs, name, w);
    if |vs| == 0 {
      assert r[1..] == [];
    } else if vs[0].0 == name {
      assert r[1..] == vs[1..];
    } else {
      AssignLookup(vs[1..], name, w, other);
      AssignLookup(vs[1..], name, w, vs[0].0);
      assert r[1..] == Assign(vs[1..], name, w);
    }
  }

  /** `del d[name]` for a name in d removes exactly that name: it is gone, every other
      name keeps its weight, the names stay distinct, and the dictionary shrinks by one. */
  lemma {:induction false} RemoveLookup(vs: Weights, name: string, other: string)
    requires UniqueKeys(vs) && HasKey(vs, name)
    ensures Lookup(Remove(vs, name), name).None?
    ensures other != name ==> Lookup(Remove(vs, name), other) == Lookup(vs, other)
    ensures HasKey(Remove(vs, name), other) <==> other != name && HasKey(vs, other)
    ensures UniqueKeys(Remove(vs, name))
    ensures |Remove(vs, name)| == |vs| - 1
  {
    var r := Remove(vs, name);
    if vs[0].0 != name {
      RemoveLookup(vs[1..], name, other);
      RemoveLookup(vs[1..], name, vs[0].0);
      assert r[1..] == Remove(vs[1..], name);
    }
  }

  // ---------------------------------------------------------------------------
  // Pivot and Transform, and their dictionary forms.
  // ---------------------------------------------------------------------------

  datatype Pivot = Pivot(x: real, y: real, rotation: real, scaleX: real, scaleY: real)

  /** `Pivot()`. */
  const DefaultPivot := Pivot(0.0, 0.0, 0.0, 1.0, 1.0)

  /** `Pivot.to_dict`. */
  function PivotToDict(p: Pivot): map<string, real>
  {
    map["x" := p.x, "y" := p.y, "rotation" := p.rotation, "scale_x" := p.scaleX, "scale_y" := p.scaleY]
  }

  /** `data.get(key, default)`. */
  function Get(data: map<string, real>, key: string, default: real): real
  {
    if key in data then data[key] else default
  }

  /** `Pivot.from_dict`: each field from its key, or its default when the key is missing. */
  function PivotFromDict(data: map<string, real>): Pivot
  {
    Pivot(Get(data, "x", 0.0), Get(data, "y", 0.0), Get(data, "rotation", 0.0),
          Get(data, "scale_x", 1.0), Get(data, "scale_y", 1.0))
  }

  /** `Pivot.from_dict(p.to_dict())` is p, and a dictionary without any of the keys gives
      the default pivot. */
  lemma PivotRoundTrip(p: Pivot, data: map<string, real>)
    ensures PivotFromDict(PivotToDict(p)) == p
    ensures (forall k :: k in data ==> k !in {"x", "y", "rotation", "scale_x", "scale_y"}) ==>
      PivotFromDict(data) == DefaultPivot
  {
    var d := PivotToDict(p);
    assert d["x"] == p.x && d["y"] == p.y && d["rotation"] == p.rotation;
    assert d["scale_x"] == p.scaleX && d["scale_y"] == p.scaleY;
  }

  datatype Transform = Transform(name: string, weight: real, color: int, pivot: Pivot, variations: Weights)

  /** The variations every transform starts with unless given others: {'linear': 1.0}. */
  const LinearOnly: Weights := [("linear", 1.0)]

  /** `Transform(name, weight, color, pivot, variations)`: a missing pivot becomes the
      default pivot, and a missing or empty variation dictionary becomes {'linear': 1.0}. */
  function NewTransform(name: string, weight: real, color: int, pivot: Option<Pivot>,
                        variations: Option<Weights>): (t: Transform)
    ensures |t.variations| >= 1
    ensures variations.Some? && |variations.value| >= 1 ==> t.variations == variations.value
    ensures variations.None? || |variations.value| == 0 ==> t.variations == LinearOnly
  {
    Transform(name, weight, color, if pivot.Some? then pivot.value else DefaultPivot,
              if variations.Some? && |variations.value| >= 1 then variations.value else LinearOnly)
  }

  /** A transform dictionary: each key may be missing. */
  datatype TransformData = TransformData(name: Option<string>, weight: Option<real>, color: Option<int>,
                                         pivot: Option<map<string, real>>, variations: Option<Weights>)

  /** `Transform.to_dict`. */
  function TransformToDict(t: Transform): TransformData
  {
    TransformData(Some(t.name), Some(t.weight), Some(t.color), Some(PivotToDict(t.pivot)), Some(t.variations))
  }

  /** `Transform.from_dict`: defaults 'Transform', 1.0, 0, {} for the pivot and
      {'linear': 1.0} for the variations, then the constructor. */
  function TransformFromDict(data: TransformData): Transform
  {
    NewTransform(if data.name.Some? then data.name.value else "Transform",
                 if data.weight.Some? then data.weight.value else 1.0,
                 if data.color.Some? then data.color.value else 0,
                 Some(PivotFromDict(if data.pivot.Some? then data.pivot.value else map[])),
                 Some(if data.variations.Some? then data.variations.value else LinearOnly))
  }

  /** The dictionary form round-trips every transform with at least one variation (every
      transform the constructor builds), and an empty dictionary gives the default one. */
  lemma TransformRoundTrip(t: Transform)
    ensures |t.variations| >= 1 ==> TransformFromDict(TransformToDict(t)) == t
    ensures TransformFromDict(TransformData(None, None, None, None, None))
            == Transform("Transform", 1.0, 0, DefaultPivot, LinearOnly)
    ensures |t.variations| == 0 ==> TransformFromDict(TransformToDict(t)).variations == LinearOnly
  {
    PivotRoundTrip(t.pivot, map[]);
  }

  // ---------------------------------------------------------------------------
  // Transform.apply.
  // ---------------------------------------------------------------------------

  datatype Vec = Vec(x: real, y: real)

  /** The floating-point functions `apply` and the pivot editor call. `sinDeg`/`cosDeg`
      are sin and cos of an angle in degrees, `atan2Deg` is `degrees(atan2(y, x))`. */
  datatype Trig = Trig(sin: real -> real, cos: real -> real, sinDeg: real -> real, cosDeg: real -> real,
                       atan2Deg: (real, real) -> real, sqrt: real -> real)

  /** `Pivot.apply_transform` for one point: scale, rotate and translate. */
  function PivotMap(p: Pivot, trig: Trig, v: Vec): Vec
  {
    var c, s := trig.cosDeg(p.rotation), trig.sinDeg(p.rotation);
    Vec(p.scaleX * c * v.x - p.scaleY * s * v.y + p.x, p.scaleX * s * v.x + p.scaleY * c * v.y + p.y)
  }

  /** The four variations `apply` knows; any other name acts as 'linear'. */
  function Variation(name: string, trig: Trig, v: Vec): Vec
  {
    if name == "sinusoidal" then Vec(trig.sin(v.x), trig.sin(v.y))
    else if name == "spherical" then
      var r2 := v.x * v.x + v.y * v.y;
      var d := if r2 == 0.0 then 0.0000000001 else r2;
      Vec(v.x / d, v.y / d)
    else if name == "swirl" then
      var r2 := v.x * v.x + v.y * v.y;
      Vec(v.x * trig.sin(r2) - v.y * trig.cos(r2), v.x * trig.cos(r2) + v.y * trig.sin(r2))
    else v
  }

  function Add(a: Vec, b: Vec): Vec { Vec(a.x + b.x, a.y + b.y) }
  function Times(w: real, v: Vec): Vec { Vec(w * v.x, w * v.y) }

  /** Σ weight · variation(v) over the dictionary, in its order. */
  function WeightedSum(vs: Weights, trig: Trig, v: Vec): Vec
  {
    if |vs| == 0 then Vec(0.0, 0.0)
    else Add(WeightedSum(vs[..|vs| - 1], trig, v), Times(vs[|vs| - 1].1, Variation(vs[|vs| - 1].0, trig, v)))
  }

  function TotalWeight(vs: Weights): real
  {
    if |vs| == 0 then 0.0 else TotalWeight(vs[..|vs| - 1]) + vs[|vs| - 1].1
  }

  predicate ActsLinearly(name: string)
  {
    name != "sinusoidal" && name != "spherical" && name != "swirl"
  }

  /** When every variation acts linearly (including names `apply` does not know) the
      sum is the point scaled by the total weight. */
  lemma {:induction false} LinearSumScales(vs: Weights, trig: Trig, v: Vec)
    requires forall i :: 0 <= i < |vs| ==> ActsLinearly(vs[i].0)
    ensures WeightedSum(vs, trig, v) == Times(TotalWeight(vs), v)
  {
    if |vs| > 0 {
      var init := vs[..|vs| - 1];
      assert forall i :: 0 <= i < |init| ==> init[i] == vs[i];
      LinearSumScales(init, trig, v);
      assert ActsLinearly(vs[|vs| - 1].0);
      assert Variation(vs[|vs| - 1].0, trig, v) == v;
      TimesAdd(TotalWeight(init), vs[|vs| - 1].1, v);
    }
  }

  lemma TimesAdd(a: real, b: real, v: Vec)
    ensures Add(Times(a, v), Times(b, v)) == Times(a + b, v)
  {
    assert a * v.x + b * v.x == (a + b) * v.x;
    assert a * v.y + b * v.y == (a + b) * v.y;
  }

  /** `Transform.apply`: every point is pivot-transformed, then the weighted variation
      results are accumulated one variation at a time. */
  method Apply(t: Transform, points: seq<Vec>, trig: Trig) returns (result: seq<Vec>)
    ensures |result| == |points|
    ensures forall i :: 0 <= i < |points| ==>
      result[i] == WeightedSum(t.variations, trig, PivotMap(t.pivot, trig, points[i]))
  {
    var transformed := seq(|points|, i requires 0 <= i < |points| => PivotMap(t.pivot, trig, points[i]));
    result := seq(|points|, i => Vec(0.0, 0.0));
    var k := 0;
    while k < |t.variations|
      invariant 0 <= k <= |t.variations| && |result| == |points|
      invariant forall i :: 0 <= i < |points| ==> result[i] == WeightedSum(t.variations[..k], trig, transformed[i])
    {
      var (name, w) := t.variations[k];
      result := seq(|points|, i requires 0 <= i < |points| => Add(result[i], Times(w, Variation(name, trig, transformed[i]))));
      assert t.variations[..k + 1][..k] == t.variations[..k];
      k := k + 1;
    }
    assert t.variations[..k] == t.variations;
  }

  // ---------------------------------------------------------------------------
  // PivotEditor.
  // ---------------------------------------------------------------------------

  /** Pixels per fractal unit. */
  const Scale: real := 100.0

  /** `fractal_to_canvas`: the y axis points up on the fractal side. */
  function FractalToCanvas(offsetX: real, offsetY: real, x: real, y: real): (real, real)
  {
    (offsetX + x * Scale, offsetY - y * Scale)
  }

  /** `canvas_to_fractal`. */
  function CanvasToFractal(offsetX: real, offsetY: real, cx: real, cy: real): (real, real)
  {
    ((cx - offsetX) / Scale, (offsetY - cy) / Scale)
  }

  /** The two conversions are inverse to each other in both directions. */
  lemma CanvasRoundTrip(offsetX: real, offsetY: real, x: real, y: real)
    ensures var (cx, cy) := FractalToCanvas(offsetX, offsetY, x, y);
            CanvasToFractal(offsetX, offsetY, cx, cy) == (x, y)
    ensures var (fx, fy) := CanvasToFractal(offsetX, offsetY, x, y);
            FractalToCanvas(offsetX, offsetY, fx, fy) == (x, y)
  {
    var (cx, cy) := FractalToCanvas(offsetX, offsetY, x, y);
    assert (cx - offsetX) / Scale == x;
    assert (offsetY - cy) / Scale == y;
  }

  datatype Handle = Center | XHandle | YHandle | RotHandle

  /** What `find_closest` and `gettags` report for a click: no item at all, an item
      without a pivot tag, or one of the four pivot handles. */
  datatype Hit = NoItem | OtherItem | HandleItem(handle: Handle)

  /** `sqrt(dx**2 + dy**2)`. */
  function Distance(trig: Trig, dx: real, dy: real): real
  {
    trig.sqrt(dx * dx + dy * dy)
  }

  /** The projection of the pointer offset from the pivot centre onto the y axis. */
  function Projection(p: Pivot, offsetX: real, offsetY: real, x: int, y: int, trig: Trig): real
  {
    var (cx, cy) := FractalToCanvas(offsetX, offsetY, p.x, p.y);
    (x as real - cx) * -trig.sinDeg(p.rotation) + (y as real - cy) * -trig.cosDeg(p.rotation)
  }

  /** The pivot after dragging handle h to pixel (x, y). */
  function DragPivot(p: Pivot, h: Handle, offsetX: real, offsetY: real, x: int, y: int, trig: Trig): Pivot
  {
    var (cx, cy) := FractalToCanvas(offsetX, offsetY, p.x, p.y);
    match h
    case Center =>
      var (nx, ny) := CanvasToFractal(offsetX, offsetY, x as real, y as real);
      p.(x := nx, y := ny)
    case XHandle =>
      p.(rotation := trig.atan2Deg(cy - y as real, x as real - cx),
         scaleX := Distance(trig, x as real - cx, y as real - cy) / 50.0)
    case YHandle =>
      p.(scaleY := Projection(p, offsetX, offsetY, x, y, trig) / 50.0)
    case RotHandle =>
      p.(rotation := trig.atan2Deg(cy - y as real, x as real - cx) + 45.0)
  }

  /** Dragging the centre puts the pivot under the pointer; the other handles never move
      it. Each handle leaves alone the fields it does not set: the centre keeps rotation
      and both scales, the x handle the y scale, the y handle rotation and the x scale,
      the rotation handle both scales. */
  lemma CenterFollowsPointer(p: Pivot, h: Handle, offsetX: real, offsetY: real, x: int, y: int, trig: Trig)
    ensures var q := DragPivot(p, h, offsetX, offsetY, x, y, trig);
            h == Center ==> FractalToCanvas(offsetX, offsetY, q.x, q.y) == (x as real, y as real)
    ensures var q := DragPivot(p, h, offsetX, offsetY, x, y, trig);
            h != Center ==> q.x == p.x && q.y == p.y
    ensures var q := DragPivot(p, h, offsetX, offsetY, x, y, trig);
            h == Center ==> q.rotation == p.rotation && q.scaleX == p.scaleX && q.scaleY == p.scaleY
    ensures var q := DragPivot(p, h, offsetX, offsetY, x, y, trig);
            h == XHandle ==> q.scaleY == p.scaleY
    ensures var q := DragPivot(p, h, offsetX, offsetY, x, y, trig);
            h == YHandle ==> q.rotation == p.rotation && q.scaleX == p.scaleX
    ensures var q := DragPivot(p, h, offsetX, offsetY, x, y, trig);
            h == RotHandle ==> q.scaleX == p.scaleX && q.scaleY == p.scaleY
  {
    CanvasRoundTrip(offsetX, offsetY, x as real, y as real);
  }

  datatype PivotEditorState = PivotEditorState(pivot: Pivot, dragging: Option<Handle>, dragStartX: int,
                                               dragStartY: int, dragStartPivot: Option<Pivot>)

  /** `on_click`: nothing on an empty canvas; an item without a pivot tag ends any drag;
      a handle starts a drag from the pointer with a copy of the pivot. */
  function ClickSpec(s: PivotEditorState, hit: Hit, x: int, y: int): PivotEditorState
  {
    match hit
    case NoItem => s
    case OtherItem => s.(dragging := None)
    case HandleItem(h) => s.(dragging := Some(h), dragStartX := x, dragStartY := y, dragStartPivot := Some(s.pivot))
  }

  class PivotEditor {
    var pivot: Pivot
    const offsetX: real
    const offsetY: real
    var dragging: Option<Handle>
    var dragStartX: int
    var dragStartY: int
    var dragStartPivot: Option<Pivot>

    function Model(): PivotEditorState
      reads this
    {
      PivotEditorState(pivot, dragging, dragStartX, dragStartY, dragStartPivot)
    }

    /** `__init__` on a canvas of the given size: the origin sits at the canvas centre. */
    constructor (pivot: Option<Pivot>, canvasWidth: int, canvasHeight: int)
      ensures Model() == PivotEditorState(if pivot.Some? then pivot.value else DefaultPivot, None, 0, 0, None)
      ensures offsetX == canvasWidth as real / 2.0 && offsetY == canvasHeight as real / 2.0
    {
      this.pivot := if pivot.Some? then pivot.value else DefaultPivot;
      offsetX := canvasWidth as real / 2.0;
      offsetY := canvasHeight as real / 2.0;
      dragging := None;
      dragStartX, dragStartY := 0, 0;
      dragStartPivot := None;
    }

    /** `on_click`. */
    method OnClick(hit: Hit, x: int, y: int)
      modifies this
      ensures Model() == ClickSpec(old(Model()), hit, x, y)
    {
      match hit {
        case NoItem =>
          return;
        case OtherItem =>
          dragging := None;
          return;
        case HandleItem(h) =>
          dragging := Some(h);
          dragStartX, dragStartY := x, y;
          dragStartPivot := Some(pivot);
      }
    }

    /** `on_drag`: nothing unless a handle is being dragged; otherwise the pivot changes
        as the handle demands and is passed to the change callback (returned here). The
        y handle stores |projection| / 50 and then restores the sign, which is the
        projection / 50. */
    method OnDrag(x: int, y: int, trig: Trig) returns (notified: Option<Pivot>)
      modifies this
      ensures old(dragging).None? ==> Model() == old(Model()) && notified.None?
      ensures old(dragging).Some? ==>
        && Model() == old(Model()).(pivot := DragPivot(old(pivot), old(dragging).value, offsetX, offsetY, x, y, trig))
        && notified == Some(pivot)
    {
      if dragging.None? {
        return None;
      }
      ghost var p0 := pivot;
      var (cx, cy) := FractalToCanvas(offsetX, offsetY, pivot.x, pivot.y);
      match dragging.value {
        case Center =>
          var dx, dy := x - dragStartX, y - dragStartY;
          var (nx, ny) := CanvasToFractal(offsetX, offsetY, (dragStartX + dx) as real, (dragStartY + dy) as real);
          pivot := pivot.(x := nx, y := ny);
          assert pivot == DragPivot(p0, Center, offsetX, offsetY, x, y, trig);
        case XHandle =>
          var angle := trig.atan2Deg(cy - y as real, x as real - cx);
          pivot := pivot.(rotation := angle);
          var distance := Distance(trig, x as real - cx, y as real - cy);
          pivot := pivot.(scaleX := distance / 50.0);
          assert pivot == DragPivot(p0, XHandle, offsetX, offsetY, x, y, trig);
        case YHandle =>
          var yDirX, yDirY := -trig.sinDeg(pivot.rotation), -trig.cosDeg(pivot.rotation);
          var projection := (x as real - cx) * yDirX + (y as real - cy) * yDirY;
          assert projection == Projection(pivot, offsetX, offsetY, x, y, trig);
          pivot := pivot.(scaleY := (if projection < 0.0 then -projection else projection) / 50.0);
          if projection < 0.0 {
            pivot := pivot.(scaleY := -pivot.scaleY);
          }
          assert pivot == DragPivot(p0, YHandle, offsetX, offsetY, x, y, trig);
        case RotHandle =>
          var angle := trig.atan2Deg(cy - y as real, x as real - cx);
          pivot := pivot.(rotation := angle + 45.0);
          assert pivot == DragPivot(p0, RotHandle, offsetX, offsetY, x, y, trig);
      }
      notified := Some(pivot);
    }

    /** `on_release`. */
    method OnRelease()
      modifies this
      ensures Model() == old(Model()).(dragging := None)
    {
      dragging := None;
    }

    /** `set_pivot`. */
    method SetPivot(p: Pivot)
      modifies this
      ensures Model() == old(Model()).(pivot := p)
    {
      pivot := p;
    }
  }

  // ---------------------------------------------------------------------------
  // TransformEditor.
  // ---------------------------------------------------------------------------

  /** A transform the editor can hold: distinct variation names, at least one variation. */
  predicate WellFormed(t: Transform)
  {
    UniqueKeys(t.variations) && |t.variations| >= 1
  }

  /** `on_param_change` with the three entries as read (None: the text does not parse).
      The name is stored first; an unparsable weight stops there; a negative weight is
      ignored; an unparsable colour stops after the weight; a negative colour is ignored. */
  function ParamChangeSpec(t: Transform, name: string, weightIn: Option<real>, colorIn: Option<int>): Transform
  {
    var t1 := t.(name := name);
    if weightIn.None? then t1
    else
      var t2 := if weightIn.value >= 0.0 then t1.(weight := weightIn.value) else t1;
      if colorIn.None? then t2
      else if colorIn.value >= 0 then t2.(color := colorIn.value) else t2
  }

  /** The weight and the colour never become negative through the editor: a non-negative
      weight or colour stays non-negative, and a parsed negative entry changes nothing. */
  lemma ParamChangeKeepsSigns(t: Transform, name: string, weightIn: Option<real>, colorIn: Option<int>)
    ensures var u := ParamChangeSpec(t, name, weightIn, colorIn);
            && u.name == name && u.pivot == t.pivot && u.variations == t.variations
            && (t.weight >= 0.0 ==> u.weight >= 0.0) && (t.color >= 0 ==> u.color >= 0)
            && (weightIn.Some? && weightIn.value >= 0.0 ==> u.weight == weightIn.value)
            && (weightIn.None? || weightIn.value < 0.0 ==> u.weight == t.weight)
            && (weightIn.Some? && colorIn.Some? && colorIn.value >= 0 ==> u.color == colorIn.value)
            && (weightIn.None? || colorIn.None? || colorIn.value < 0 ==> u.color == t.color)
  {
  }

  class TransformEditor {
    var transform: Transform
    const pivotEditor: PivotEditor

    predicate Invariant()
      reads this
    {
      WellFormed(transform)
    }

    /** `__init__` with the canvas size the pivot editor reads at creation. */
    constructor (transform: Option<Transform>, canvasWidth: int, canvasHeight: int)
      requires transform.Some? ==> WellFormed(transform.value)
      ensures Invariant()
      ensures this.transform == if transform.Some? then transform.value else NewTransform("Transform", 1.0, 0, None, None)
      ensures fresh(pivotEditor)
      ensures pivotEditor.Model() == PivotEditorState(this.transform.pivot, None, 0, 0, None)
    {
      var t := if transform.Some? then transform.value else NewTransform("Transform", 1.0, 0, None, None);
      this.transform := t;
      pivotEditor := new PivotEditor(Some(t.pivot), canvasWidth, canvasHeight);
    }

    /** `on_param_change`. */
    method OnParamChange(name: string, weightIn: Option<real>, colorIn: Option<int>)
      modifies this
      requires Invariant()
      ensures Invariant()
      ensures transform == ParamChangeSpec(old(transform), name, weightIn, colorIn)
    {
      transform := transform.(name := name);
      if weightIn.None? {
        return;
      }
      if weightIn.value >= 0.0 {
        transform := transform.(weight := weightIn.value);
      }
      if colorIn.None? {
        return;
      }
      if colorIn.value >= 0 {
        transform := transform.(color := colorIn.value);
      }
    }

    /** `on_pivot_change`: the callback of the pivot editor. */
    method OnPivotChange(p: Pivot)
      modifies this
      requires Invariant()
      ensures Invariant()
      ensures transform == old(transform).(pivot := p)
    {
      transform := transform.(pivot := p);
    }

    /** A drag on the pivot canvas: the pivot editor's `on_drag` followed by its callback. */
    method OnPivotDrag(x: int, y: int, trig: Trig)
      modifies this, pivotEditor
      requires Invariant()
      ensures Invariant()
      ensures old(pivotEditor.dragging).None? ==> transform == old(transform)
      ensures old(pivotEditor.dragging).Some? ==> transform == old(transform).(pivot := pivotEditor.pivot)
      ensures old(pivotEditor.dragging).Some? ==>
        pivotEditor.pivot == DragPivot(old(pivotEditor.pivot), old(pivotEditor.dragging).value,
                                       pivotEditor.offsetX, pivotEditor.offsetY, x, y, trig)
      ensures pivotEditor.Model() == old(pivotEditor.Model()).(pivot := pivotEditor.pivot)
    {
      var notified := pivotEditor.OnDrag(x, y, trig);
      if notified.Some? {
        OnPivotChange(notified.value);
      }
    }

    /** `add_variation` as written: the dialog it builds asks for `ttk.Combobox`, but this
        file imports tkinter only as `tk` and never `ttk`, so the call raises NameError
        before the OK button exists and no variation is ever added. */
    method AddVariation() returns (out: Outcome<()>)
      ensures out == Raised("NameError")
    {
      out := Raised("NameError");
    }

    /** The OK button both variation dialogs share: a parsed weight is assigned to the
        name, which then maps to it; an unparsable weight shows an error and changes
        nothing. This is what `add_variation` evidently intended. */
    method ConfirmVariation(name: string, weightIn: Option<real>)
      modifies this
      requires Invariant()
      ensures Invariant()
      ensures weightIn.None? ==> transform == old(transform)
      ensures weightIn.Some? ==> transform == old(transform).(variations := Assign(old(transform.variations), name, weightIn.value))
      ensures weightIn.Some? ==> Lookup(transform.variations, name) == weightIn
    {
      if weightIn.Some? {
        AssignLookup(transform.variations, name, weightIn.value, name);
        transform := transform.(variations := Assign(transform.variations, name, weightIn.value));
      }
    }

    /** `edit_variation` for the selected row's name (None: no selection) and the OK
        button's weight: the selected name gets the parsed weight. */
    method EditVariation(selected: Option<string>, weightIn: Option<real>)
      modifies this
      requires Invariant()
      ensures Invariant()
      ensures selected.None? || weightIn.None? ==> transform == old(transform)
      ensures selected.Some? && weightIn.Some? ==>
        transform == old(transform).(variations := Assign(old(transform.variations), selected.value, weightIn.value))
      ensures selected.Some? && weightIn.Some? ==> Lookup(transform.variations, selected.value) == weightIn
    {
      if selected.None? {
        return;
      }
      ConfirmVariation(selected.value, weightIn);
    }

    /** `remove_variation` for the selected row's name: refused when only one variation
        is left, so the dictionary never becomes empty. */
    method RemoveVariation(selected: Option<string>)
      modifies this
      requires Invariant()
      requires selected.Some? ==> HasKey(transform.variations, selected.value)
      ensures Invariant()
      ensures selected.None? || |old(transform.variations)| <= 1 ==> transform == old(transform)
      ensures selected.Some? && |old(transform.variations)| > 1 ==>
        && transform == old(transform).(variations := Remove(old(transform.variations), selected.value))
        && Lookup(transform.variations, selected.value).None?
        && |transform.variations| == |old(transform.variations)| - 1
    {
      if selected.None? {
        return;
      }
      if |transform.variations| <= 1 {
        return;
      }
      RemoveLookup(transform.variations, selected.value, selected.value);
      transform := transform.(variations := Remove(transform.variations, selected.value));
    }
  }
}
