/** The main window of the MANUS application (app_fixed.py), without its widgets: the
    current fractal parameters, view, colouring and gradient, the list of animation
    frames, and the undo/redo history. Every handler is a method of `FractalApp`, and
    each is specified by a function on `AppState`, the value of all its fields. */
module App {
  import opened Common
  import opened ParamBag
  import opened Gradient
  import opened Coloring
  import opened Viewport
  import opened MandelbrotJulia

  /** `self.max_history`. */
  const MaxHistory := 50

  /** The two entries of the colouring dropdown. */
  const IterationLabel := "反復回数"
  const PotentialLabel := "連続ポテンシャル"

  /** The entries of the gradient dropdown; only "rainbow" names a preset. */
  const GradientChoices := ["rainbow", "fire", "ice", "grayscale", "sepia"]

  /** An entry of `self.frames`. */
  datatype Frame = Frame(params: Bag, view: View, coloring: string, gradient: string)

  /** An entry of `self.history`. */
  datatype Snapshot = Snapshot(params: Bag, view: View, coloring: string, gradient: string,
                               frames: seq<Frame>, frameIndex: int)

  /** The fields of the application the handlers read and write: `coloringName` and
      `gradientName` are the dropdown variables, `coloring` and `gradient` the objects
      they select, and `anchor` the last pointer position of a drag. */
  datatype AppState = AppState(params: Bag, view: View, coloringName: string, coloring: Kind,
                               gradientName: string, gradient: seq<Color>,
                               frames: seq<Frame>, frameIndex: int,
                               history: seq<Snapshot>, position: int,
                               anchor: Option<(int, int)>)

  /** What every handler keeps: the history position points into the history (or is -1
      while it is empty), the history holds at most 50 entries, and the frame index,
      here and in every snapshot, points into a non-empty frame list. */
  predicate Valid(a: AppState)
  {
    -1 <= a.position < |a.history| <= MaxHistory
    && (|a.history| > 0 ==> a.position >= 0)
    && 0 <= a.frameIndex < |a.frames|
    && forall s :: s in a.history ==> FramesOk(s)
  }

  /** A snapshot's frame index points into its non-empty frame list. */
  predicate FramesOk(s: Snapshot)
  {
    0 <= s.frameIndex < |s.frames|
  }

  // ---------------------------------------------------------------------------
  // History.
  // ---------------------------------------------------------------------------

  /** The history and position after `add_to_history` pushes `s`: entries after the
      position are dropped, `s` is appended, and only the newest 50 are kept. */
  function Pushed(history: seq<Snapshot>, position: int, s: Snapshot): (seq<Snapshot>, int)
    requires -1 <= position < |history|
  {
    var kept := if position < |history| - 1 then history[..position + 1] else history;
    var grown := kept + [s];
    if |grown| > MaxHistory then (grown[|grown| - MaxHistory..], MaxHistory - 1)
    else (grown, |grown| - 1)
  }

  /** After a push the position is the last entry, which is the pushed snapshot; at
      most 50 entries remain; what remains is the newest part of the entries up to the
      old position followed by `s`, so the redo branch is gone; and nothing older is
      dropped while fewer than 50 entries remain. */
  lemma PushedShape(history: seq<Snapshot>, position: int, s: Snapshot)
    requires -1 <= position < |history| <= MaxHistory
    ensures var (h, p) := Pushed(history, position, s);
      && p == |h| - 1 && h[p] == s && 1 <= |h| <= MaxHistory
      && var prefix := history[..position + 1] + [s];
         h == prefix[|prefix| - |h|..]
         && (position + 1 < MaxHistory ==> h == prefix)
  {
    if position == |history| - 1 {
      assert history[..position + 1] == history;
    }
  }

  function Snap(a: AppState): Snapshot
  {
    Snapshot(a.params, a.view, a.coloringName, a.gradientName, a.frames, a.frameIndex)
  }

  /** `add_to_history`. */
  function AddToHistorySpec(a: AppState): AppState
    requires Valid(a)
  {
    var (h, p) := Pushed(a.history, a.position, Snap(a));
    a.(history := h, position := p)
  }

  /** A push keeps the application valid and leaves the position at the tail. */
  lemma AddToHistoryValid(a: AppState)
    requires Valid(a)
    ensures Valid(AddToHistorySpec(a))
    ensures AddToHistorySpec(a).position == |AddToHistorySpec(a).history| - 1
    ensures AddToHistorySpec(a).history[AddToHistorySpec(a).position] == Snap(a)
  {
    PushedShape(a.history, a.position, Snap(a));
    PushedKeepsFrames(a.history, a.position, Snap(a));
  }

  /** Every entry left after a push was in the history or is the pushed one. */
  lemma PushedKeepsFrames(history: seq<Snapshot>, position: int, s: Snapshot)
    requires -1 <= position < |history|
    requires FramesOk(s) && forall t :: t in history ==> FramesOk(t)
    ensures forall t :: t in Pushed(history, position, s).0 ==> FramesOk(t)
  {
    var kept := if position < |history| - 1 then history[..position + 1] else history;
    forall t | t in kept
      ensures FramesOk(t)
    {
      var k :| 0 <= k < |kept| && kept[k] == t;
      assert history[k] == t;
    }
    var grown := kept + [s];
    forall t | t in grown
      ensures FramesOk(t)
    {
      if t != s {
        var k :| 0 <= k < |grown| && grown[k] == t;
        assert kept[k] == t;
      }
    }
    if |grown| > MaxHistory {
      var h := grown[|grown| - MaxHistory..];
      forall t | t in h
        ensures FramesOk(t)
      {
        var k :| 0 <= k < |h| && h[k] == t;
        assert grown[|grown| - MaxHistory + k] == t;
      }
    }
  }

  // ---------------------------------------------------------------------------
  // Colouring and gradient selection.
  // ---------------------------------------------------------------------------

  /** The colouring object `on_coloring_change` installs for a dropdown value; any other
      value keeps the current one. */
  function ColoringFor(name: string, current: Kind): Kind
  {
    if name == IterationLabel then IterationCount
    else if name == PotentialLabel then Potential
    else current
  }

  /** The 256-entry table of a preset. */
  function PresetTable(name: string): seq<Color>
    requires name in PresetStops()
  {
    PresetsWellFormed(name);
    GradientTable(PresetStops()[name], 256).value
  }

  /** `on_coloring_change`: select the colouring, then push. */
  function OnColoringChangeSpec(a: AppState): AppState
    requires Valid(a)
  {
    AddToHistorySpec(a.(coloring := ColoringFor(a.coloringName, a.coloring)))
  }

  /** `on_gradient_change`: select the preset if the name is one, then push. */
  function OnGradientChangeSpec(a: AppState): AppState
    requires Valid(a)
  {
    var gradient := if a.gradientName in PresetStops() then PresetTable(a.gradientName) else a.gradient;
    AddToHistorySpec(a.(gradient := gradient))
  }

  /** Of the five dropdown entries only "rainbow" is a preset: choosing "fire", "ice",
      "grayscale" or "sepia" keeps the current gradient (and still pushes). */
  lemma GradientDropdownChoices(a: AppState)
    requires Valid(a) && a.gradientName in GradientChoices
    ensures a.gradientName == "rainbow" ==> OnGradientChangeSpec(a).gradient == PresetTable("rainbow")
    ensures a.gradientName != "rainbow" ==> OnGradientChangeSpec(a).gradient == a.gradient
    ensures OnGradientChangeSpec(a).history == Pushed(a.history, a.position, Snap(a)).0
  {
  }

  /** The part of `apply_history_state` and `apply_frame` that sets the parameters,
      the view and the two dropdowns, and runs both dropdown handlers, each of which
      pushes onto the history. */
  function RestoreSpec(a: AppState, params: Bag, view: View, coloring: string, gradient: string): AppState
    requires Valid(a)
  {
    var b := a.(params := params, view := view, coloringName := coloring);
    var c := OnColoringChangeSpec(b);
    AddToHistoryValid(b.(coloring := ColoringFor(b.coloringName, b.coloring)));
    OnGradientChangeSpec(c.(gradientName := gradient))
  }

  /** Restoring keeps the application valid, installs what it was given, leaves the
      frames alone, and ends at the tail of the history. */
  lemma RestoreValid(a: AppState, params: Bag, view: View, coloring: string, gradient: string)
    requires Valid(a)
    ensures var r := RestoreSpec(a, params, view, coloring, gradient);
      Valid(r) && r.params == params && r.view == view
      && r.coloringName == coloring && r.gradientName == gradient
      && r.coloring == ColoringFor(coloring, a.coloring)
      && r.frames == a.frames && r.frameIndex == a.frameIndex
      && r.position == |r.history| - 1
  {
    var b := a.(params := params, view := view, coloringName := coloring);
    var b1 := b.(coloring := ColoringFor(b.coloringName, b.coloring));
    AddToHistoryValid(b1);
    var c := OnColoringChangeSpec(b);
    var d := c.(gradientName := gradient);
    var gradientTable := if d.gradientName in PresetStops() then PresetTable(d.gradientName) else d.gradient;
    AddToHistoryValid(d.(gradient := gradientTable));
  }

  /** `apply_history_state`: restore, then replace the frames and the frame index. */
  function ApplyHistoryStateSpec(a: AppState, s: Snapshot): AppState
    requires Valid(a)
  {
    RestoreSpec(a, s.params, s.view, s.coloring, s.gradient).(frames := s.frames, frameIndex := s.frameIndex)
  }

  /** `undo`: step back one entry and apply it. */
  function UndoSpec(a: AppState): AppState
    requires Valid(a)
  {
    if a.position > 0 then ApplyHistoryStateSpec(a.(position := a.position - 1), a.history[a.position - 1])
    else a
  }

  /** `redo`: step forward one entry and apply it. */
  function RedoSpec(a: AppState): AppState
    requires Valid(a)
  {
    if a.position < |a.history| - 1 then
      ApplyHistoryStateSpec(a.(position := a.position + 1), a.history[a.position + 1])
    else a
  }

  lemma ApplyHistoryStateValid(a: AppState, s: Snapshot)
    requires Valid(a) && FramesOk(s)
    ensures var r := ApplyHistoryStateSpec(a, s);
      Valid(r) && r.position == |r.history| - 1
      && r.params == s.params && r.view == s.view && r.coloringName == s.coloring
      && r.gradientName == s.gradient && r.frames == s.frames && r.frameIndex == s.frameIndex
  {
    RestoreValid(a, s.params, s.view, s.coloring, s.gradient);
  }

  /** `undo` acts only when the position is above 0 and then installs the previous
      entry's parameters, view, dropdown values and frames. Because applying the entry
      pushes twice, the position ends at the tail of the history, not one step back. */
  lemma UndoRestoresPrevious(a: AppState)
    requires Valid(a)
    ensures Valid(UndoSpec(a))
    ensures a.position <= 0 ==> UndoSpec(a) == a
    ensures a.position > 0 ==>
      var s, u := a.history[a.position - 1], UndoSpec(a);
      u.params == s.params && u.view == s.view && u.coloringName == s.coloring
      && u.gradientName == s.gradient && u.frames == s.frames && u.frameIndex == s.frameIndex
      && u.position == |u.history| - 1
  {
    if a.position > 0 {
      assert a.history[a.position - 1] in a.history;
      ApplyHistoryStateValid(a.(position := a.position - 1), a.history[a.position - 1]);
    }
  }

  /** `redo` acts only below the tail and then installs the next entry's parameters,
      view, dropdown values and frames. */
  lemma RedoRestoresNext(a: AppState)
    requires Valid(a)
    ensures Valid(RedoSpec(a))
    ensures a.position >= |a.history| - 1 ==> RedoSpec(a) == a
    ensures a.position < |a.history| - 1 ==>
      var s, r := a.history[a.position + 1], RedoSpec(a);
      r.params == s.params && r.view == s.view && r.coloringName == s.coloring
      && r.gradientName == s.gradient && r.frames == s.frames && r.frameIndex == s.frameIndex
      && r.position == |r.history| - 1
  {
    if a.position < |a.history| - 1 {
      assert a.history[a.position + 1] in a.history;
      ApplyHistoryStateValid(a.(position := a.position + 1), a.history[a.position + 1]);
    }
  }

  /** After an undo that acted, redo does nothing: the undo's own pushes discarded the
      entries it could have returned to. */
  lemma RedoAfterUndoIsNoOp(a: AppState)
    requires Valid(a) && a.position > 0
    ensures Valid(UndoSpec(a))
    ensures RedoSpec(UndoSpec(a)) == UndoSpec(a)
  {
    UndoRestoresPrevious(a);
  }

  /** The entries an undo pushes record the frames as they were before the undo, not
      the frames it restores: the snapshots are taken before `apply_history_state`
      replaces the frame list. */
  lemma UndoRecordsOldFrames(a: AppState)
    requires Valid(a) && a.position > 0
    ensures UndoSpec(a).history[|UndoSpec(a).history| - 1].frames == a.frames
    ensures UndoSpec(a).history[|UndoSpec(a).history| - 1].frameIndex == a.frameIndex
  {
    var s := a.history[a.position - 1];
    var a1 := a.(position := a.position - 1);
    var b := a1.(params := s.params, view := s.view, coloringName := s.coloring);
    var b1 := b.(coloring := ColoringFor(b.coloringName, b.coloring));
    AddToHistoryValid(b1);
    var c := OnColoringChangeSpec(b);
    var d := c.(gradientName := s.gradient);
    var gradientTable := if d.gradientName in PresetStops() then PresetTable(d.gradientName) else d.gradient;
    AddToHistoryValid(d.(gradient := gradientTable));
  }

  // ---------------------------------------------------------------------------
  // Frames.
  // ---------------------------------------------------------------------------

  /** `add_frame`: append a frame made from the current state and select it. */
  function AddFrameSpec(a: AppState): AppState
  {
    a.(frames := a.frames + [Frame(a.params, a.view, a.coloringName, a.gradientName)],
       frameIndex := |a.frames|)
  }

  /** `apply_frame(index)`: restore the frame's settings; an index out of range does
      nothing. The frame index itself is not changed. */
  function ApplyFrameSpec(a: AppState, index: int): AppState
    requires Valid(a)
  {
    if 0 <= index < |a.frames| then
      var f := a.frames[index];
      RestoreSpec(a, f.params, f.view, f.coloring, f.gradient)
    else a
  }

  /** `delete_frame`: refused while one frame is left; otherwise the selected frame is
      removed, the index is pulled back into range, and that frame is applied. */
  function DeleteFrameSpec(a: AppState): AppState
    requires Valid(a)
  {
    if |a.frames| <= 1 then a
    else
      var frames := a.frames[..a.frameIndex] + a.frames[a.frameIndex + 1..];
      var index := if a.frameIndex >= |frames| then |frames| - 1 else a.frameIndex;
      ApplyFrameSpec(a.(frames := frames, frameIndex := index), index)
  }

  /** `prev_frame`. */
  function PrevFrameSpec(a: AppState): AppState
    requires Valid(a)
  {
    if a.frameIndex > 0 then ApplyFrameSpec(a.(frameIndex := a.frameIndex - 1), a.frameIndex - 1) else a
  }

  /** `next_frame`. */
  function NextFrameSpec(a: AppState): AppState
    requires Valid(a)
  {
    if a.frameIndex < |a.frames| - 1 then ApplyFrameSpec(a.(frameIndex := a.frameIndex + 1), a.frameIndex + 1)
    else a
  }

  /** Adding a frame appends the current settings and selects the new last frame. */
  lemma AddFrameSelectsLast(a: AppState)
    requires Valid(a)
    ensures Valid(AddFrameSpec(a))
    ensures |AddFrameSpec(a).frames| == |a.frames| + 1
    ensures AddFrameSpec(a).frameIndex == |AddFrameSpec(a).frames| - 1
    ensures AddFrameSpec(a).frames[..|a.frames|] == a.frames
    ensures AddFrameSpec(a).frames[|a.frames|] == Frame(a.params, a.view, a.coloringName, a.gradientName)
  {
  }

  /** Deleting refuses with one frame left; otherwise exactly the selected frame goes,
      the index stays in range (the same position, or the new last one), and the
      settings of the frame now selected are restored. */
  lemma DeleteFrameKeepsIndexInRange(a: AppState)
    requires Valid(a)
    ensures Valid(DeleteFrameSpec(a))
    ensures |a.frames| <= 1 ==> DeleteFrameSpec(a) == a
    ensures |a.frames| > 1 ==>
      var d := DeleteFrameSpec(a);
      d.frames == a.frames[..a.frameIndex] + a.frames[a.frameIndex + 1..]
      && d.frameIndex == (if a.frameIndex == |a.frames| - 1 then a.frameIndex - 1 else a.frameIndex)
      && d.params == d.frames[d.frameIndex].params && d.view == d.frames[d.frameIndex].view
  {
    if |a.frames| > 1 {
      var frames := a.frames[..a.frameIndex] + a.frames[a.frameIndex + 1..];
      var index := if a.frameIndex >= |frames| then |frames| - 1 else a.frameIndex;
      var b := a.(frames := frames, frameIndex := index);
      var f := frames[index];
      RestoreValid(b, f.params, f.view, f.coloring, f.gradient);
    }
  }

  /** Stepping through the frames moves the index by one while it stays in [0, len),
      restores the frame stepped to, and otherwise does nothing. */
  lemma StepFramesStayInRange(a: AppState)
    requires Valid(a)
    ensures Valid(PrevFrameSpec(a)) && Valid(NextFrameSpec(a))
    ensures a.frameIndex > 0 ==>
      PrevFrameSpec(a).frameIndex == a.frameIndex - 1 && PrevFrameSpec(a).params == a.frames[a.frameIndex - 1].params
    ensures a.frameIndex == 0 ==> PrevFrameSpec(a) == a
    ensures a.frameIndex < |a.frames| - 1 ==>
      NextFrameSpec(a).frameIndex == a.frameIndex + 1 && NextFrameSpec(a).params == a.frames[a.frameIndex + 1].params
    ensures a.frameIndex == |a.frames| - 1 ==> NextFrameSpec(a) == a
  {
    if a.frameIndex > 0 {
      var f := a.frames[a.frameIndex - 1];
      RestoreValid(a.(frameIndex := a.frameIndex - 1), f.params, f.view, f.coloring, f.gradient);
    }
    if a.frameIndex < |a.frames| - 1 {
      var f := a.frames[a.frameIndex + 1];
      RestoreValid(a.(frameIndex := a.frameIndex + 1), f.params, f.view, f.coloring, f.gradient);
    }
  }

  // ---------------------------------------------------------------------------
  // The view.
  // ---------------------------------------------------------------------------

  /** `zoom_at_point(factor, x, y)` on a canvas of the given size, then a push. */
  function ZoomAtPointSpec(a: AppState, factor: real, x: real, y: real, canvasWidth: int, canvasHeight: int)
    : AppState
    requires Valid(a) && canvasWidth >= 1 && canvasHeight >= 1
  {
    AddToHistorySpec(a.(view := ZoomAt(a.view, factor, x / canvasWidth as real, y / canvasHeight as real)))
  }

  /** `on_canvas_drag` with the pointer at (x, y): nothing happens before a click has
      recorded a position (the missing attribute raises before any change). */
  function OnCanvasDragSpec(a: AppState, x: int, y: int, canvasWidth: int, canvasHeight: int): AppState
    requires canvasWidth >= 1 && canvasHeight >= 1
  {
    match a.anchor
    case None => a
    case Some((lastX, lastY)) =>
      a.(anchor := Some((x, y)), view := Drag(a.view, x - lastX, y - lastY, canvasWidth, canvasHeight))
  }

  /** `reset_view`: back to [-2, 1] x [-1.5, 1.5], then a push. */
  function ResetViewSpec(a: AppState): AppState
    requires Valid(a)
  {
    AddToHistorySpec(a.(view := AppInitialView))
  }

  /** Zooming at a point records the zoomed view as the newest history entry, and the
      point under the anchor does not move. */
  lemma ZoomAtPointRecorded(a: AppState, factor: real, x: real, y: real, canvasWidth: int, canvasHeight: int)
    requires Valid(a) && canvasWidth >= 1 && canvasHeight >= 1
    ensures var z := ZoomAtPointSpec(a, factor, x, y, canvasWidth, canvasHeight);
      var rx, ry := x / canvasWidth as real, y / canvasHeight as real;
      Valid(z) && z.history[z.position].view == z.view
      && AppPoint(z.view, rx, ry) == AppPoint(a.view, rx, ry)
      && Width(z.view) == Width(a.view) * factor && Height(z.view) == Height(a.view) * factor
  {
    var rx, ry := x / canvasWidth as real, y / canvasHeight as real;
    AddToHistoryValid(a.(view := ZoomAt(a.view, factor, rx, ry)));
    ZoomAtKeepsAnchor(a.view, factor, rx, ry);
  }

  /** A drag preserves both spans, follows the pointer, and does not touch the history. */
  lemma DragPreservesSpans(a: AppState, x: int, y: int, canvasWidth: int, canvasHeight: int)
    requires canvasWidth >= 1 && canvasHeight >= 1
    ensures var d := OnCanvasDragSpec(a, x, y, canvasWidth, canvasHeight);
      Width(d.view) == Width(a.view) && Height(d.view) == Height(a.view)
      && d.history == a.history && d.position == a.position
      && (a.anchor.Some? ==> d.anchor == Some((x, y)))
  {
    if a.anchor.Some? {
      var (lastX, lastY) := a.anchor.value;
      DragFollowsPointer(a.view, x - lastX, y - lastY, canvasWidth, canvasHeight, 0.0, 0.0);
    }
  }

  // ---------------------------------------------------------------------------
  // The application object.
  // ---------------------------------------------------------------------------

  class FractalApp {
    var params: Bag
    var view: View
    var coloringName: string
    var coloring: Kind
    var gradientName: string
    var gradient: seq<Color>
    var frames: seq<Frame>
    var frameIndex: int
    var history: seq<Snapshot>
    var position: int
    var anchor: Option<(int, int)>

    function Model(): AppState
      reads this
    {
      AppState(params, view, coloringName, coloring, gradientName, gradient, frames, frameIndex,
               history, position, anchor)
    }

    predicate Invariant()
      reads this
    {
      Valid(Model())
    }

    /** `FractalApp.__init__` without the widgets: default Mandelbrot parameters, the
        initial view, iteration colouring, the rainbow preset, an empty history and one
        frame made from these settings. The first render is not modelled. */
    constructor ()
      ensures Invariant()
      ensures Model() == AddFrameSpec(AppState(DefaultParams(), AppInitialView, IterationLabel, IterationCount,
                                               "rainbow", PresetTable("rainbow"), [], 0, [], -1, None))
    {
      params := DefaultParams();
      view := AppInitialView;
      coloringName := IterationLabel;
      coloring := IterationCount;
      gradientName := "rainbow";
      var presets := CreatePresetGradients();
      PresetsWellFormed("rainbow");
      gradient := presets["rainbow"];
      frames := [];
      frameIndex := 0;
      history := [];
      position := -1;
      anchor := None;
      new;
      frames := frames + [Frame(params, view, coloringName, gradientName)];
      frameIndex := |frames| - 1;
    }

    /** `add_to_history`. */
    method AddToHistory()
      modifies this
      requires Invariant()
      ensures Model() == AddToHistorySpec(old(Model())) && Invariant()
    {
      AddToHistoryValid(Model());
      var state := Snapshot(params, view, coloringName, gradientName, frames, frameIndex);
      var h, p := history, position;
      if p < |h| - 1 {
        h := h[..p + 1];
      }
      h := h + [state];
      p := |h| - 1;
      if |h| > MaxHistory {
        h := h[|h| - MaxHistory..];
        p := |h| - 1;
      }
      assert (h, p) == Pushed(history, position, state);
      history, position := h, p;
    }

    /** `on_coloring_change` (the render it triggers is not modelled). */
    method OnColoringChange()
      modifies this
      requires Invariant()
      ensures Model() == OnColoringChangeSpec(old(Model())) && Invariant()
    {
      if coloringName == IterationLabel {
        coloring := IterationCount;
      } else if coloringName == PotentialLabel {
        coloring := Potential;
      }
      AddToHistory();
    }

    /** `on_gradient_change`: the presets are built afresh and looked up by name. */
    method OnGradientChange()
      modifies this
      requires Invariant()
      ensures Model() == OnGradientChangeSpec(old(Model())) && Invariant()
    {
      var gradients := CreatePresetGradients();
      if gradientName in gradients {
        PresetsWellFormed(gradientName);
        gradient := gradients[gradientName];
      }
      AddToHistory();
    }

    /** Sets the values `apply_history_state` and `apply_frame` share, then runs the two
        dropdown handlers. */
    method Restore(p: Bag, v: View, coloringChoice: string, gradientChoice: string)
      modifies this
      requires Invariant()
      ensures Model() == RestoreSpec(old(Model()), p, v, coloringChoice, gradientChoice) && Invariant()
    {
      params := p;
      view := v;
      coloringName := coloringChoice;
      OnColoringChange();
      gradientName := gradientChoice;
      OnGradientChange();
    }

    /** `apply_history_state`. */
    method ApplyHistoryState(state: Snapshot)
      modifies this
      requires Invariant() && 0 <= state.frameIndex < |state.frames|
      ensures Model() == ApplyHistoryStateSpec(old(Model()), state) && Invariant()
    {
      ApplyHistoryStateValid(Model(), state);
      Restore(state.params, state.view, state.coloring, state.gradient);
      frames := state.frames;
      frameIndex := state.frameIndex;
    }

    /** `undo`. */
    method Undo()
      modifies this
      requires Invariant()
      ensures Model() == UndoSpec(old(Model())) && Invariant()
    {
      if position > 0 {
        assert history[position - 1] in history;
        position := position - 1;
        ApplyHistoryState(history[position]);
      }
    }

    /** `redo`. */
    method Redo()
      modifies this
      requires Invariant()
      ensures Model() == RedoSpec(old(Model())) && Invariant()
    {
      if position < |history| - 1 {
        assert history[position + 1] in history;
        position := position + 1;
        ApplyHistoryState(history[position]);
      }
    }

    /** `add_frame`. */
    method AddFrame()
      modifies this
      requires Invariant()
      ensures Model() == AddFrameSpec(old(Model())) && Invariant()
    {
      var frame := Frame(params, view, coloringName, gradientName);
      frames := frames + [frame];
      frameIndex := |frames| - 1;
    }

    /** `apply_frame(index)`. */
    method ApplyFrame(index: int)
      modifies this
      requires Invariant()
      ensures Model() == ApplyFrameSpec(old(Model()), index) && Invariant()
    {
      if 0 <= index < |frames| {
        var frame := frames[index];
        Restore(frame.params, frame.view, frame.coloring, frame.gradient);
      }
    }

    /** `delete_frame`. */
    method DeleteFrame()
      modifies this
      requires Invariant()
      ensures Model() == DeleteFrameSpec(old(Model())) && Invariant()
    {
      if |frames| <= 1 {
        return;
      }
      frames := frames[..frameIndex] + frames[frameIndex + 1..];
      if frameIndex >= |frames| {
        frameIndex := |frames| - 1;
      }
      ApplyFrame(frameIndex);
    }

    /** `prev_frame`. */
    method PrevFrame()
      modifies this
      requires Invariant()
      ensures Model() == PrevFrameSpec(old(Model())) && Invariant()
    {
      if frameIndex > 0 {
        frameIndex := frameIndex - 1;
        ApplyFrame(frameIndex);
      }
    }

    /** `next_frame`. */
    method NextFrame()
      modifies this
      requires Invariant()
      ensures Model() == NextFrameSpec(old(Model())) && Invariant()
    {
      if frameIndex < |frames| - 1 {
        frameIndex := frameIndex + 1;
        ApplyFrame(frameIndex);
      }
    }

    /** `zoom_at_point(factor, x, y)`; the canvas size is what `winfo_width` and
        `winfo_height` report, at least 1. */
    method ZoomAtPoint(factor: real, x: real, y: real, canvasWidth: int, canvasHeight: int)
      modifies this
      requires Invariant() && canvasWidth >= 1 && canvasHeight >= 1
      ensures Model() == ZoomAtPointSpec(old(Model()), factor, x, y, canvasWidth, canvasHeight) && Invariant()
    {
      var relX := x / canvasWidth as real;
      var relY := y / canvasHeight as real;
      view := ZoomAt(view, factor, relX, relY);
      AddToHistory();
    }

    /** `zoom(factor)`: zoom at the centre of the canvas. */
    method Zoom(factor: real, canvasWidth: int, canvasHeight: int)
      modifies this
      requires Invariant() && canvasWidth >= 1 && canvasHeight >= 1
      ensures Model() == ZoomAtPointSpec(old(Model()), factor, canvasWidth as real / 2.0,
                                         canvasHeight as real / 2.0, canvasWidth, canvasHeight) && Invariant()
    {
      ZoomAtPoint(factor, canvasWidth as real / 2.0, canvasHeight as real / 2.0, canvasWidth, canvasHeight);
    }

    /** `on_canvas_wheel`. */
    method OnCanvasWheel(num: int, delta: int, x: int, y: int, canvasWidth: int, canvasHeight: int)
      modifies this
      requires Invariant() && canvasWidth >= 1 && canvasHeight >= 1
      ensures Model() == ZoomAtPointSpec(old(Model()), AppWheelFactor(num, delta), x as real, y as real,
                                         canvasWidth, canvasHeight) && Invariant()
    {
      var factor := if num == 5 || delta < 0 then 1.1 else 0.9;
      ZoomAtPoint(factor, x as real, y as real, canvasWidth, canvasHeight);
    }

    /** `on_canvas_click`: remember the pointer. */
    method OnCanvasClick(x: int, y: int)
      modifies this
      requires Invariant()
      ensures Model() == old(Model()).(anchor := Some((x, y))) && Invariant()
    {
      anchor := Some((x, y));
    }

    /** `on_canvas_drag`. */
    method OnCanvasDrag(x: int, y: int, canvasWidth: int, canvasHeight: int)
      modifies this
      requires Invariant() && canvasWidth >= 1 && canvasHeight >= 1
      ensures Model() == OnCanvasDragSpec(old(Model()), x, y, canvasWidth, canvasHeight) && Invariant()
    {
      if anchor.None? {
        return;
      }
      var (lastX, lastY) := anchor.value;
      var dx, dy := x - lastX, y - lastY;
      anchor := Some((x, y));
      view := Drag(view, dx, dy, canvasWidth, canvasHeight);
    }

    /** `on_canvas_release`: push the state the drag reached. */
    method OnCanvasRelease()
      modifies this
      requires Invariant()
      ensures Model() == AddToHistorySpec(old(Model())) && Invariant()
    {
      AddToHistory();
    }

    /** `reset_view`. */
    method ResetView()
      modifies this
      requires Invariant()
      ensures Model() == ResetViewSpec(old(Model())) && Invariant()
    {
      view := AppInitialView;
      AddToHistoryValid(Model());
      AddToHistory();
    }
  }
}
