# frac-edit: a verified model of the fractal viewers

This project models the computational core of frac-edit. frac-edit is a set of Tkinter
fractal viewers written in Python. The model covers:

- **Escape-time kernels.** These are the masked Mandelbrot/Julia iteration of
  `MandelbrotJulia.calculate` and the three generators of the second explorer (Julia,
  Mandelbrot, burning ship). They also include the unmasked `julia_set` of the first
  explorer. Each kernel is a per-sample state machine (`EscapeTime`). Array methods with
  loop invariants are proved to apply that machine to every cell.
- **Parameter dictionaries.** These are `set_params`/`get_params` of fractals and colouring
  algorithms (`ParamBag`, `Fractal`, `MandelbrotJulia`).
- **Colouring and gradients.** These cover iteration colouring and continuous-potential
  colouring, with their normalisation, wrap, clip and gradient indexing, and the exceptions
  they raise. They also cover `create_rgb_gradient` and the five presets (`Coloring`,
  `Gradient`).
- **The renderer.** This covers `render`, `render_high_quality`, the band split of
  `render_parallel` and the background gradient (`Renderer`).
- **The main application.** This covers history with undo/redo, animation frames, the view
  gestures, and the colouring and gradient dropdowns (`App`, over `Viewport`).
- **The two Julia viewers.** These are the stand-alone `JuliaSetViewer` and the
  `MainWindow`/`ControlPanel` pair: wheel zoom, pan, resets, entry validation and the
  quick-draw sampling (`Viewers`, `JuliaViewer`, `MainWindowUi`, `ControlPanelUi`). The
  model also covers their colour helpers: `is_valid_hex_color`, `hex_to_rgb` with Python's
  `int(s, 16)` and `create_colormap` (`HexColor`).
- **The transform editor.** This covers `Pivot` and `Transform` with their dictionary round
  trips and `Transform.apply`. It also covers the pivot editor's canvas geometry and drag
  handling, and the variation list of `TransformEditor` (`Transforms`).

Objects whose methods update fields in place are classes whose methods are proved against
pure specification functions. These classes are `FractalBase`, `ColoringAlgorithm`,
`FractalRenderer`, `FractalApp`, `JuliaSetViewer`, `MainWindow`, `ControlPanel`,
`PivotEditor` and `TransformEditor`. NumPy arrays that the source fills in place are Dafny
arrays. Python exceptions are an `Outcome` (`Ok` or `Raised(name)`). A Tk variable whose
text does not parse is an `Option` input: `None` means the handler's `get()` raised.

What the code does wins over what its comments or docstrings promise. Where the two
differ, the model follows the code:

- The colour loops of both colouring algorithms write into `result[divergent]`. Boolean
  indexing makes that a copy, so divergent samples keep the zeros of `np.zeros`. Only
  non-divergent samples become opaque black (`Coloring.Pixel`).
- In Julia mode, `MandelbrotJulia.calculate` indexes the Python complex `c` with a mask.
  That raises on the first pass (`MandelbrotJulia.JuliaModeFails`).
- `on_gradient_change` offers five names, but only "rainbow" is a preset. The other four
  leave the gradient unchanged (`App.GradientDropdownChoices`).
- `apply_history_state` runs `on_coloring_change` and `on_gradient_change`, and each of
  them pushes a history entry. So an undo truncates the redo branch, and redo after undo
  does nothing (`App.RedoAfterUndoIsNoOp`).

## Model

| member | source | states |
|---|---|---|
| Common.Trunc | MANUS_fractal_app/lib/src/core/coloring.py:128 | `int()` of a float truncates toward zero: the result is within 1 of x, on the side of zero |
| Common.ClampReal | ui/control_panel.py:94-95 | `max(lo, min(hi, x))` lies in [lo, hi], keeps x when it is inside, and gives the nearer bound otherwise |
| Complex.FoldAbs | CLAUDE_fractal_app/test_claude_exp.py:255-257 | the burning-ship fold gives non-negative parts, each equal to the original part or its negation |
| ParamBag.MergeParams | MANUS_fractal_app/lib/src/core/mandelbrot_julia.py:101-110 | the loop over the updates overwrites exactly the keys already present, and leaves every other key as it was |
| ParamBag.MergeIgnoresUnknownKeys | MANUS_fractal_app/lib/src/core/coloring.py:46-55 | an update key that is not already a parameter never enters the dictionary, whose keys stay the old keys |
| ParamBag.MergeWithOwnCopy | MANUS_fractal_app/lib/src/core/mandelbrot_julia.py:92-110 | writing back what `get_params` returned changes nothing |
| ParamBag.MergeIdempotent | MANUS_fractal_app/lib/src/core/mandelbrot_julia.py:101-110 | applying the same updates twice is the same as applying them once |
| Fractal.FractalBase.constructor | MANUS_fractal_app/lib/src/core/fractal_base.py:18-28 | stores the size and starts with an empty parameter dictionary |
| Fractal.FractalBase.Resize | MANUS_fractal_app/lib/src/core/fractal_base.py:66-75 | the new size replaces the old and the parameters are untouched |
| MandelbrotJulia.New | MANUS_fractal_app/lib/src/core/mandelbrot_julia.py:19-38 | a fresh fractal of the given size holding the seven default parameters |
| MandelbrotJulia.GetParams | MANUS_fractal_app/lib/src/core/mandelbrot_julia.py:92-99 | returns the current parameters and changes nothing |
| MandelbrotJulia.SetParams | MANUS_fractal_app/lib/src/core/mandelbrot_julia.py:101-110 | the parameters become the merge of the old ones with the updates, and the size is unchanged |
| MandelbrotJulia.Field | MANUS_fractal_app/lib/src/core/mandelbrot_julia.py:40-90 | a successful result has height rows of width counts each |
| MandelbrotJulia.PassRow | MANUS_fractal_app/lib/src/core/mandelbrot_julia.py:80-88 | one pass over row i advances every cell of that row by one masked step and leaves the other rows alone |
| MandelbrotJulia.Pass | MANUS_fractal_app/lib/src/core/mandelbrot_julia.py:80-88 | one iteration of the loop advances every cell by one masked step |
| MandelbrotJulia.Calculate | MANUS_fractal_app/lib/src/core/mandelbrot_julia.py:40-90 | returns `Field` of the fractal's size and parameters: the count of every cell after all passes, or the exception |
| MandelbrotJulia.FieldCells | MANUS_fractal_app/lib/src/core/mandelbrot_julia.py:54-88 | cell (i, j) of the result is the masked run of its grid sample for max_iter passes |
| MandelbrotJulia.FieldBounds | MANUS_fractal_app/lib/src/core/mandelbrot_julia.py:62-88 | every entry lies in [0, max_iter], and max_iter <= 0 gives an all-zero field |
| MandelbrotJulia.FieldRecordsFirstEscape | MANUS_fractal_app/lib/src/core/mandelbrot_julia.py:80-88 | an entry is k > 0 iff z_0 .. z_(k-1) lie inside the escape radius and z_k does not, with k <= max_iter |
| MandelbrotJulia.GridCoordinates | MANUS_fractal_app/lib/src/core/mandelbrot_julia.py:54-59 | the sample at row i, column j has real part x_min + j·(x_max - x_min)/(width - 1) and imaginary part y_min + i·(y_max - y_min)/(height - 1); row 0 lies at y_min and the last row at y_max |
| MandelbrotJulia.ModeRoles | MANUS_fractal_app/lib/src/core/mandelbrot_julia.py:69-77 | Mandelbrot mode starts at (z_real, z_imag) with c the grid point; Julia mode starts at the grid point with c = (c_real, c_imag) |
| MandelbrotJulia.JuliaModeFails | MANUS_fractal_app/lib/src/core/mandelbrot_julia.py:69-85 | Julia mode with the default keys and an integer `max_iter` of at least 1 raises TypeError, because `c[mask]` indexes a Python complex; with `max_iter` <= 0 no pass runs and the result is all zeros |
| MandelbrotJulia.SetParamsNeverLosesKeys | MANUS_fractal_app/lib/src/core/mandelbrot_julia.py:30-38 | parameters that went through `set_params` from the defaults always hold every key `calculate` reads |
| MandelbrotJulia.DefaultSetup | MANUS_fractal_app/lib/src/core/mandelbrot_julia.py:30-38 | the defaults compute the Mandelbrot set for 100 passes, radius 2, from z_0 = 0 |
| EscapeTime.MaskedRunBounds | MANUS_fractal_app/lib/src/core/mandelbrot_julia.py:80-88 | after n passes the recorded count lies in [0, n] |
| EscapeTime.MaskedRunWhileInside | MANUS_fractal_app/lib/src/core/mandelbrot_julia.py:82-88 | while the earlier orbit points are inside, the cell follows the orbit and is recorded exactly when its current point is outside |
| EscapeTime.MaskedRunAfterExit | MANUS_fractal_app/lib/src/core/mandelbrot_julia.py:82-88 | once the orbit has left at step k, the cell is frozen at z_k with count k, or with 0 if it started outside |
| EscapeTime.EscapeCountIsFirstEscape | MANUS_fractal_app/lib/src/core/mandelbrot_julia.py:80-88 | a count k > 0 means exactly that z_k is the first orbit point outside the radius |
| EscapeTime.MaskedRunFrozen | MANUS_fractal_app/lib/src/core/mandelbrot_julia.py:82-85 | a cell outside the radius never changes its z or its count again |
| EscapeTime.StartOutsideStaysZero | MANUS_fractal_app/lib/src/core/mandelbrot_julia.py:82-88 | a sample that starts outside is never recorded and keeps the count 0 |
| EscapeTime.TrackedWhileQuiet | CLAUDE_fractal_app/test_claude_exp.py:23-28 | while no orbit point has exceeded 2, the cell follows the orbit, stays masked and keeps divtime = max_iterations |
| EscapeTime.TrackedAfterEscape | CLAUDE_fractal_app/test_claude_exp.py:23-28 | after the first escape the cell is unmasked and frozen with that iteration's index |
| EscapeTime.FirstEscapeUnique | CLAUDE_fractal_app/test_claude_exp.py:25-27 | two indices that are each the first orbit point beyond radius 2 coincide |
| EscapeTime.DivtimeIsFirstEscape | CLAUDE_fractal_app/test_claude_exp.py:17-28 | a cell is unmasked with divtime k iff z_(k+1) is the first orbit point beyond 2; a masked cell never exceeded 2 |
| EscapeTime.TrackedBounds | CLAUDE_fractal_app/test_claude_exp.py:17-28 | divtime is max_iterations or an iteration index run so far |
| EscapeTime.TrackedFrozen | CLAUDE_fractal_app/test_claude_exp.py:30-32 | an unmasked cell is a fixed point of the loop body, so the early break changes no result |
| EscapeTime.LegacyWhileQuiet | test_claude_exp.py:14-19 | before the first divergence the sample follows the plain orbit and keeps the sentinel |
| EscapeTime.LegacyAfterEscape | test_claude_exp.py:14-19 | after the first divergence divtime holds that index for good |
| EscapeTime.LegacyDivtimeIsFirstEscape | test_claude_exp.py:12-19 | divtime is k < max_iterations iff z_(k+1) of the plain orbit is the first point beyond 2; resetting to 2 never moves it |
| EscapeTime.LegacyAssignedOnce | test_claude_exp.py:17-18 | a divtime, once assigned, is never reassigned |
| EscapeTime.LegacyBounds | test_claude_exp.py:12-19 | divtime lies in [0, max_iterations] |
| ClaudeExplorer.PassRow | CLAUDE_fractal_app/test_claude_exp.py:24-28 | one pass over row a advances every cell of that row by one tracked step and leaves the other rows alone |
| ClaudeExplorer.AnyActive | CLAUDE_fractal_app/test_claude_exp.py:31 | `np.any(mask)`: true iff some cell is still masked |
| ClaudeExplorer.EscapeLoop | CLAUDE_fractal_app/test_claude_exp.py:17-34 | every cell of the result is the divtime of its tracked run after all max_iterations passes, despite the early break |
| ClaudeExplorer.JuliaSet | CLAUDE_fractal_app/test_claude_exp.py:6-34 | an h × w field whose cell (a, b) is the tracked run of the grid point of [-1.5, 1.5]² with the fixed c |
| ClaudeExplorer.GenerateOnGrid | CLAUDE_fractal_app/test_claude_exp.py:208-235 | a height × width field whose cell is the tracked run from z_0 = 0 with c the grid point |
| ClaudeExplorer.GenerateMandelbrot | CLAUDE_fractal_app/test_claude_exp.py:208-235 | the Mandelbrot generator's field, cell by cell, with the quadratic step |
| ClaudeExplorer.GenerateBurningShip | CLAUDE_fractal_app/test_claude_exp.py:237-268 | the burning-ship generator's field, cell by cell, with the folded step |
| ClaudeExplorer.DivtimeInRange | CLAUDE_fractal_app/test_claude_exp.py:17-28 | every entry lies in [0, max_iterations] |
| ClaudeExplorer.BurningShipStep | CLAUDE_fractal_app/test_claude_exp.py:255-257 | the step is z <- (abs(Re z) + i·abs(Im z))² + c |
| LegacyJulia.PassRow | test_claude_exp.py:15-19 | one pass over row a steps every sample of that row once and leaves the other rows alone |
| LegacyJulia.JuliaSet | test_claude_exp.py:8-21 | an h × w field whose cell is the divtime of its grid sample's run after max_iterations passes |
| LegacyJulia.NoSampleBeyondAfterPass | test_claude_exp.py:15-19 | after every pass no sample is beyond radius 2; a sample that diverged sits at z = 2 |
| LegacyJulia.DivtimeInRange | test_claude_exp.py:12-19 | every entry lies in [0, max_iterations] |
| Sampling.Linspace | MANUS_fractal_app/lib/src/core/mandelbrot_julia.py:54-55 | `np.linspace(lo, hi, n)` has n samples |
| Sampling.LinspaceShape | MANUS_fractal_app/lib/src/core/mandelbrot_julia.py:54-55 | the first sample is lo, the last is hi, and consecutive samples are (hi - lo)/(n - 1) apart |
| Sampling.LinspaceLast | MANUS_fractal_app/lib/src/core/mandelbrot_julia.py:54-55 | the last of n ≥ 2 samples is hi |
| Sampling.LinspaceStep | MANUS_fractal_app/lib/src/core/mandelbrot_julia.py:54-55 | consecutive samples are (hi - lo)/(n - 1) apart |
| Sampling.LinspaceAt | MANUS_fractal_app/lib/src/core/mandelbrot_julia.py:54-55 | sample i of an n-point grid is lo + i·(hi - lo)/(n - 1) |
| Sampling.LinspaceWithin | CLAUDE_fractal_app/test_claude_exp.py:9-10 | every sample of an increasing interval lies inside it |
| Sampling.Stride | ui/main_window.py:69-72 | the quick-draw stride is 4, a full draw 1 |
| Sampling.Strided | fractal_20250216-2122.py:202 | `xs[::k]` has ceil(len/k) samples and sample i is xs[i·k] |
| Sampling.Repeat | ui/main_window.py:90-94 | repeating a row k times has k·len samples and sample j is row[j/k] |
| Sampling.Upsample | ui/main_window.py:90-94 | repeating along both axes makes every sample a k×k block: entry (i, j) is grid[i/k][j/k] |
| Coloring.Wrap | MANUS_fractal_app/lib/src/core/coloring.py:120-122 | `v % 1.0` lies in [0, 1) and differs from v by an integer, also for negative v |
| Coloring.FinishUnit | MANUS_fractal_app/lib/src/core/coloring.py:120-125 | the wrapped or clipped value lies in [0, 1], and below 1 when cyclic |
| Coloring.IndexInRange | MANUS_fractal_app/lib/src/core/coloring.py:111-128 | whatever the scale, offset and inversion, a non-empty gradient is indexed in bounds; cyclic mode never reaches the last colour |
| Coloring.EmptyGradientIndex | MANUS_fractal_app/lib/src/core/coloring.py:128-132 | with an empty gradient the index is 0 or -1, both out of bounds |
| Coloring.MinMaxNormalize | MANUS_fractal_app/lib/src/core/coloring.py:207-212 | normalises each value by (x - min)/(max - min), or gives 0 when max = min |
| Coloring.MinOf | MANUS_fractal_app/lib/src/core/coloring.py:207 | `np.min` is a lower bound attained by some element |
| Coloring.MaxOf | MANUS_fractal_app/lib/src/core/coloring.py:208 | `np.max` is an upper bound attained by some element |
| Coloring.MinMaxNormalizeUnit | MANUS_fractal_app/lib/src/core/coloring.py:207-212 | every normalised value is in [0, 1], the minimum maps to 0 and a strictly larger maximum maps to 1 |
| Coloring.NormalizeBetween | MANUS_fractal_app/lib/src/core/coloring.py:209-212 | one value between the bounds normalises into [0, 1], with the ends at 0 and 1 |
| Coloring.FailureAgrees | MANUS_fractal_app/lib/src/core/coloring.py:88-132 | the exception of `apply` depends only on the counts: the array and its rows fail alike |
| Coloring.ColoringAlgorithm.Iteration | MANUS_fractal_app/lib/src/core/coloring.py:65-75 | the iteration colouring holds cyclic, offset, scale and invert with their defaults |
| Coloring.ColoringAlgorithm.ContinuousPotential | MANUS_fractal_app/lib/src/core/coloring.py:144-155 | the potential colouring holds the same four keys plus `log_scale` = True |
| Coloring.ColoringAlgorithm.GetParams | MANUS_fractal_app/lib/src/core/coloring.py:37-44 | returns the current parameters and changes nothing |
| Coloring.ColoringAlgorithm.SetParams | MANUS_fractal_app/lib/src/core/coloring.py:46-55 | the parameters become the merge with the updates, the kind is kept, and the style keys survive |
| Coloring.ColoringAlgorithm.ApplyIteration | MANUS_fractal_app/lib/src/core/coloring.py:77-134 | raises ValueError on an empty field and IndexError when a divergent sample meets an empty gradient; otherwise returns a fresh RGBA image, black where the count is 0 and zeros elsewhere |
| Coloring.ColoringAlgorithm.Apply | MANUS_fractal_app/lib/src/core/coloring.py:77-134 | either algorithm called with two arguments gives the same outcome and image as iteration colouring |
| Coloring.ColoringAlgorithm.ApplyPotential | MANUS_fractal_app/lib/src/core/coloring.py:157-239 | the same exceptions and image, with or without z values; without them it delegates to a fresh iteration colouring |
| Coloring.LookUpAll | MANUS_fractal_app/lib/src/core/coloring.py:228-232 | every normalised index is in bounds iff the gradient is non-empty |
| Coloring.FieldMax | MANUS_fractal_app/lib/src/core/coloring.py:89 | `np.max` of a non-empty field is an upper bound attained by some sample |
| Coloring.Blank | MANUS_fractal_app/lib/src/core/coloring.py:101-105 | a fresh h × w × 4 array holding `[0, 0, 0, 255]` where the count is 0 and zeros elsewhere |
| Coloring.Divergent | MANUS_fractal_app/lib/src/core/coloring.py:194-204 | one value per non-zero count, in the row-major order of the boolean mask: the count minus its potential (the log potential when `log_scale` is set); when a sample diverged there is at least one value |
| Coloring.DivergentRow | MANUS_fractal_app/lib/src/core/coloring.py:194-204 | the values of one row: each non-zero count of the row, left to right, minus its potential |
| Coloring.CellsInRowExact | MANUS_fractal_app/lib/src/core/coloring.py:194 | the cells a row contributes to `fractal_data > 0` are exactly its non-zero cells, left to right, none twice |
| Coloring.CellsBeforeExact | MANUS_fractal_app/lib/src/core/coloring.py:194 | the mask selects every non-zero cell and nothing else, in strictly increasing row-major order |
| Coloring.CellsBeforeSelected | MANUS_fractal_app/lib/src/core/coloring.py:194 | every listed cell is inside the array and non-zero, and every non-zero cell is listed |
| Coloring.CellsBeforeSound | MANUS_fractal_app/lib/src/core/coloring.py:194 | every cell the mask lists for the first rows is inside them and non-zero |
| Coloring.CellsBeforeComplete | MANUS_fractal_app/lib/src/core/coloring.py:194 | every non-zero cell of the first rows is listed |
| Coloring.CellsBeforeOrdered | MANUS_fractal_app/lib/src/core/coloring.py:194 | the listed cells come in strictly increasing row-major order |
| Coloring.FallbackDropsLogScale | MANUS_fractal_app/lib/src/core/coloring.py:233-237 | the fallback iteration colouring keeps the four style values of the potential colouring and drops `log_scale` |
| Gradient.InsertStopCorrect | MANUS_fractal_app/lib/src/core/coloring.py:261 | inserting a stop into a sorted list keeps it sorted and adds exactly that stop |
| Gradient.InsertStopSorted | MANUS_fractal_app/lib/src/core/coloring.py:261 | inserting a stop into a list sorted by position leaves it sorted by position |
| Gradient.InsertStopElements | MANUS_fractal_app/lib/src/core/coloring.py:261 | inserting a stop keeps every stop and adds exactly that one (as multisets) |
| Gradient.InsertStopMembers | MANUS_fractal_app/lib/src/core/coloring.py:261 | every stop after the insertion is the new one or was already there |
| Gradient.SortByPositionCorrect | MANUS_fractal_app/lib/src/core/coloring.py:261 | `sorted(colors, key=position)` is ordered by position and is a permutation of the stops |
| Gradient.MixBetween | MANUS_fractal_app/lib/src/core/coloring.py:279-282 | an interpolated channel with t in [0, 1] lies between the two channels |
| Gradient.MixEnds | MANUS_fractal_app/lib/src/core/coloring.py:278-282 | t = 0 gives the first channel and t = 1 the second |
| Gradient.InterpolateEnds | MANUS_fractal_app/lib/src/core/coloring.py:276-283 | interpolating at the first stop gives its colour, and at a strictly later second stop the second colour |
| Gradient.InterpolateBetween | MANUS_fractal_app/lib/src/core/coloring.py:276-283 | between its bracketing stops every channel lies between theirs |
| Gradient.ColorFromWithin | MANUS_fractal_app/lib/src/core/coloring.py:272-290 | when every stop's channels are in [lo, hi], so is the colour found for any position |
| Gradient.ColorFromSkips | MANUS_fractal_app/lib/src/core/coloring.py:272-284 | the search skips stop pairs that do not bracket the position, so it finds the first bracket |
| Gradient.GradientTable | MANUS_fractal_app/lib/src/core/coloring.py:248-292 | a successful table has num_points entries, or none for num_points <= 0 |
| Gradient.CreateRgbGradient | MANUS_fractal_app/lib/src/core/coloring.py:248-292 | the nested loop with its `break` and end-colour fallback returns `GradientTable`, including the raised IndexError and ZeroDivisionError |
| Gradient.SortedUnchanged | MANUS_fractal_app/lib/src/core/coloring.py:261 | stops already in position order come out of the sort unchanged |
| Gradient.ColorAtFirstStop | MANUS_fractal_app/lib/src/core/coloring.py:272-284 | sorted stops starting at 0.0 give their first colour at position 0.0 |
| Gradient.ColorAtLastStop | MANUS_fractal_app/lib/src/core/coloring.py:272-290 | sorted stops ending in one stop at 1.0 give that colour at 1.0 |
| Gradient.EndPositions | MANUS_fractal_app/lib/src/core/coloring.py:269 | point 0 is at position 0.0 and the last point at 1.0 |
| Gradient.TableFirstEntry | MANUS_fractal_app/lib/src/core/coloring.py:261-292 | the first table entry is the first sorted stop's colour when it sits at 0.0 |
| Gradient.TableLastEntry | MANUS_fractal_app/lib/src/core/coloring.py:261-292 | the last entry is the last stop's colour when it alone sits at 1.0 |
| Gradient.TableWithin | MANUS_fractal_app/lib/src/core/coloring.py:261-292 | every entry of a table built from stops with channels in [lo, hi] stays in [lo, hi] |
| Gradient.CreatePresetGradients | MANUS_fractal_app/lib/src/core/coloring.py:295-350 | one table per preset name (rainbow, hot, cool, monochrome, cosmic), each the 256-point table of its stops |
| Gradient.PresetsWellFormed | MANUS_fractal_app/lib/src/core/coloring.py:305-348 | every preset table has 256 entries, all valid 8-bit RGBA colours |
| Gradient.MonochromeRamp | MANUS_fractal_app/lib/src/core/coloring.py:334-338 | entry i of the monochrome preset is the grey (i, i, i, 255) |
| Renderer.ComputeAndColor | MANUS_fractal_app/lib/src/core/renderer.py:47-51 | `calculate` then `apply`: the image of the counts, or the exception either raises |
| Renderer.BandShape | MANUS_fractal_app/lib/src/core/renderer.py:124-152 | the first n-1 bands are height // n rows high, the last takes the rest, and band edges lie in [0, height] |
| Renderer.BandOf | MANUS_fractal_app/lib/src/core/renderer.py:150-152 | the band of row y is one of the n bands |
| Renderer.BandOfContains | MANUS_fractal_app/lib/src/core/renderer.py:150-152 | every row lies in the band `BandOf` names and in no other, so the bands are disjoint and cover every row |
| Renderer.BandsOrdered | MANUS_fractal_app/lib/src/core/renderer.py:150-152 | a band ends no later than any later band starts |
| Renderer.BandSlices | MANUS_fractal_app/lib/src/core/renderer.py:133-136 | the first band starts at y_min, the last ends at y_max, and each band's upper edge is the next band's lower edge |
| Renderer.BandPixelInBand | MANUS_fractal_app/lib/src/core/renderer.py:139-147 | a row of band i takes its pixel from band i's own computation |
| Renderer.RenderSegment | MANUS_fractal_app/lib/src/core/renderer.py:133-144 | a band's coloured rows, from a fresh fractal with the copied parameters over its y-slice, or None when its thread raises |
| Renderer.FillBand | MANUS_fractal_app/lib/src/core/renderer.py:133-147 | a thread writes its band's pixels into exactly its own rows |
| Renderer.FillBands | MANUS_fractal_app/lib/src/core/renderer.py:150-159 | running the bands one after another from an all-zero buffer leaves every row holding its own band's pixels |
| Renderer.WriteBand | MANUS_fractal_app/lib/src/core/renderer.py:147 | the slice assignment copies the segment into rows start.. and changes no other row |
| Renderer.BackgroundRows | MANUS_fractal_app/lib/src/core/renderer.py:179-226 | one colour per row when it succeeds |
| Renderer.BackgroundIsGradientTable | MANUS_fractal_app/lib/src/core/renderer.py:198-223 | for sorted stops the row colours are the `create_rgb_gradient` table with one entry per row |
| Renderer.BackgroundEnds | MANUS_fractal_app/lib/src/core/renderer.py:198-223 | row 0 takes the colour at 0.0 and the last row the colour at 1.0 |
| Renderer.FractalRenderer.constructor | MANUS_fractal_app/lib/src/core/renderer.py:19-29 | the size is stored and the background is opaque black |
| Renderer.FractalRenderer.SetBackgroundColor | MANUS_fractal_app/lib/src/core/renderer.py:170-177 | replaces the colour and nothing else |
| Renderer.FractalRenderer.Render | MANUS_fractal_app/lib/src/core/renderer.py:31-56 | the coloured field at the fractal's own size, or the exception |
| Renderer.FractalRenderer.RenderHighQuality | MANUS_fractal_app/lib/src/core/renderer.py:58-100 | computes at oversample times the renderer's size and keeps the parameters; on success the fractal gets its size back, and on an exception it keeps the enlarged size |
| Renderer.FractalRenderer.RenderParallel | MANUS_fractal_app/lib/src/core/renderer.py:102-168 | zero threads raise ZeroDivisionError and a negative size ValueError; otherwise every pixel is its band's pixel (zeros where that band's thread raised), and all zeros for a negative thread count |
| Renderer.FractalRenderer.ApplyBackgroundGradient | MANUS_fractal_app/lib/src/core/renderer.py:179-231 | returns `BackgroundRows` of the renderer's size and the stops |
| Gradient.ScanStops | MANUS_fractal_app/lib/src/core/coloring.py:272-290 | the stop loop with `break` and `else`, shared with `apply_background_gradient`, finds the colour `ColorAt` names; with no stops it fails |
| Viewport.ZoomAtKeepsAnchor | MANUS_fractal_app/lib/src/app_fixed.py:413-444 | the complex point under the anchor stays where it was and both spans are multiplied by the factor |
| Viewport.DragFollowsPointer | MANUS_fractal_app/lib/src/app_fixed.py:374-392 | a drag keeps both spans, and the point that was under the pointer is under it again |
| Viewport.WheelRulesDiffer | MANUS_fractal_app/lib/src/app_fixed.py:402-408 | the app and the viewers pick the same factor for button 4/5 events but opposite factors for delta 0 and for button 4 with a negative delta |
| Viewport.WheelZoomKeepsPointer | fractal_20250216-2122.py:120-146 | the viewers' wheel keeps the point under the pointer and scales both spans |
| Viewport.PanFollowsPointer | fractal_20250216-2122.py:153-180 | panning keeps both spans and the point under the pointer follows it |
| App.PushedShape | MANUS_fractal_app/lib/src/app_fixed.py:984-995 | after a push the position is the last entry, which is the pushed snapshot; at most 50 entries are kept |
| App.AddToHistoryValid | MANUS_fractal_app/lib/src/app_fixed.py:972-995 | a push keeps the history invariant and leaves the position at the tail |
| App.GradientDropdownChoices | MANUS_fractal_app/lib/src/app_fixed.py:536-548 | "rainbow" installs its preset table; "fire", "ice", "grayscale" and "sepia" leave the gradient unchanged |
| App.RestoreValid | MANUS_fractal_app/lib/src/app_fixed.py:1009-1033 | restoring installs the given parameters, view and choices, keeps the invariant and pushes twice |
| App.ApplyHistoryStateValid | MANUS_fractal_app/lib/src/app_fixed.py:1009-1041 | applying a snapshot keeps the invariant and installs its frames and frame index |
| App.UndoRestoresPrevious | MANUS_fractal_app/lib/src/app_fixed.py:997-1001 | undo acts only when the position is above 0, and then installs the previous entry's settings |
| App.RedoRestoresNext | MANUS_fractal_app/lib/src/app_fixed.py:1003-1007 | redo acts only below the tail, and then installs the next entry's parameters, view, colouring and gradient names, frames and frame index, ending at the tail |
| App.RedoAfterUndoIsNoOp | MANUS_fractal_app/lib/src/app_fixed.py:997-1033 | after an undo that acted, redo does nothing, because the undo's own pushes discarded the redo branch |
| App.UndoRecordsOldFrames | MANUS_fractal_app/lib/src/app_fixed.py:1027-1037 | the entries an undo pushes record the frames from before the undo, not the restored ones |
| App.AddFrameSelectsLast | MANUS_fractal_app/lib/src/app_fixed.py:858-870 | adding a frame appends the current settings and selects the new last frame |
| App.DeleteFrameKeepsIndexInRange | MANUS_fractal_app/lib/src/app_fixed.py:875-889 | deleting is refused with one frame left; otherwise exactly the selected frame goes and the index stays in range |
| App.StepFramesStayInRange | MANUS_fractal_app/lib/src/app_fixed.py:894-904 | previous and next move the index by one while it stays in [0, len), and otherwise do nothing |
| App.ZoomAtPointRecorded | MANUS_fractal_app/lib/src/app_fixed.py:413-450 | zooming records the zoomed view as the newest history entry and keeps the anchor point |
| App.DragPreservesSpans | MANUS_fractal_app/lib/src/app_fixed.py:374-395 | a drag preserves both spans, follows the pointer, and does not touch the history |
| App.FractalApp.constructor | MANUS_fractal_app/lib/src/app_fixed.py:29-78 | default Mandelbrot parameters, the view [-2, 1] × [-1.5, 1.5], iteration colouring and the rainbow gradient, then `add_frame`: one frame holding these settings, and an empty history |
| App.FractalApp.AddToHistory | MANUS_fractal_app/lib/src/app_fixed.py:972-995 | the state becomes `AddToHistorySpec` of the old state |
| App.FractalApp.OnColoringChange | MANUS_fractal_app/lib/src/app_fixed.py:521-534 | the state becomes `OnColoringChangeSpec`: the selected colouring, then a push |
| App.FractalApp.OnGradientChange | MANUS_fractal_app/lib/src/app_fixed.py:536-548 | the state becomes `OnGradientChangeSpec`: the preset if the name is one, then a push |
| App.FractalApp.Restore | MANUS_fractal_app/lib/src/app_fixed.py:1012-1033 | the state becomes `RestoreSpec` of the given values |
| App.FractalApp.ApplyHistoryState | MANUS_fractal_app/lib/src/app_fixed.py:1009-1041 | the state becomes `ApplyHistoryStateSpec` of the snapshot |
| App.FractalApp.Undo | MANUS_fractal_app/lib/src/app_fixed.py:997-1001 | the state becomes `UndoSpec` of the old state |
| App.FractalApp.Redo | MANUS_fractal_app/lib/src/app_fixed.py:1003-1007 | the state becomes `RedoSpec` of the old state |
| App.FractalApp.AddFrame | MANUS_fractal_app/lib/src/app_fixed.py:858-873 | the state becomes `AddFrameSpec` of the old state |
| App.FractalApp.ApplyFrame | MANUS_fractal_app/lib/src/app_fixed.py:915-948 | the state becomes `ApplyFrameSpec`; an index out of range changes nothing |
| App.FractalApp.DeleteFrame | MANUS_fractal_app/lib/src/app_fixed.py:875-892 | the state becomes `DeleteFrameSpec` of the old state |
| App.FractalApp.PrevFrame | MANUS_fractal_app/lib/src/app_fixed.py:894-898 | the state becomes `PrevFrameSpec` of the old state |
| App.FractalApp.NextFrame | MANUS_fractal_app/lib/src/app_fixed.py:900-904 | the state becomes `NextFrameSpec` of the old state |
| App.FractalApp.ZoomAtPoint | MANUS_fractal_app/lib/src/app_fixed.py:413-450 | the state becomes `ZoomAtPointSpec`: the zoomed view, then a push |
| App.FractalApp.Zoom | MANUS_fractal_app/lib/src/app_fixed.py:452-464 | zooms at the canvas centre |
| App.FractalApp.OnCanvasWheel | MANUS_fractal_app/lib/src/app_fixed.py:402-411 | zooms at the pointer by 1.1 for button 5 or a negative delta, and by 0.9 otherwise |
| App.FractalApp.OnCanvasClick | MANUS_fractal_app/lib/src/app_fixed.py:369-372 | remembers the pointer and changes nothing else |
| App.FractalApp.OnCanvasDrag | MANUS_fractal_app/lib/src/app_fixed.py:374-395 | the state becomes `OnCanvasDragSpec`, and the pointer is remembered |
| App.FractalApp.OnCanvasRelease | MANUS_fractal_app/lib/src/app_fixed.py:397-400 | pushes the state the drag reached |
| App.FractalApp.ResetView | MANUS_fractal_app/lib/src/app_fixed.py:466-479 | the view goes back to [-2, 1] × [-1.5, 1.5], then a push |
| HexColor.StandardColorValid | core/color_map.py:10-18 | every "#" followed by six hex digits is a valid colour |
| HexColor.StandardColorRgb | core/color_map.py:5-8 | every "#" followed by six hex digits parses to the three byte values its digit pairs spell |
| HexColor.PairsAfterOneHash | core/color_map.py:5-8 | with one leading '#' and six more characters, `hex_to_rgb` reads the pairs at 1, 3 and 5 |
| HexColor.SignedColorValid | core/color_map.py:10-18 | validation is looser than parsing: a '-' in place of the first digit passes |
| HexColor.SignedColorRgb | core/color_map.py:5-8 | a '-' in place of the first digit gives a negative first channel |
| HexColor.SignedPair | core/color_map.py:8 | `int("-d", 16)` of a sign and one digit is the negated digit |
| HexColor.PrefixedColor | core/color_map.py:5-18 | a "0x" or "0X" prefix passes validation but makes `hex_to_rgb` raise |
| HexColor.ValidShape | core/color_map.py:10-16 | a valid colour has exactly seven characters, the first being '#' |
| HexColor.PlainRange | core/color_map.py:8 | `int(s, 16)` of a run of plain hex digits succeeds and gives the digits' value |
| HexColor.PairValue | core/color_map.py:8 | the byte two hex digits spell lies in [0, 255] |
| HexColor.PairAt | core/color_map.py:8 | two hex digits parse with `int(…, 16)` to the byte they spell (16·first + second) |
| HexColor.OneHash | core/color_map.py:7 | `lstrip('#')` removes exactly one '#' when a hex digit follows it |
| HexColor.EndpointsFallback | core/color_map.py:23-29 | when either colour fails to parse both fall back to blue and white, and otherwise both parsed colours are used |
| HexColor.NonPositiveIsStart | core/color_map.py:34-38 | a value of 0 or less maps to the start colour |
| HexColor.BlendBetween | core/color_map.py:38 | the blend at t in [0, 1] lies between the two channels |
| HexColor.UnitValueBetween | core/color_map.py:34-38 | a value in [0, 1] maps every channel between the start and end channels |
| HexColor.Byte | core/color_map.py:38 | the stored uint8 lies in [0, 255] |
| HexColor.Clip | core/color_map.py:34 | `np.where(values > 0, values, 0)` is never negative |
| HexColor.CreateColormap | core/color_map.py:20-40 | a fresh h × w × 3 array whose every channel is `MapChannel` of the value with the two end colours or their fallback |
| HexColor.FillColormap | core/color_map.py:31-38 | the channel loop fills every entry with its mapped channel |
| Viewers.MousewheelKeepsPointer | ui/main_window.py:100-120 | the wheel changes only the view, keeps the point under the pointer, and scales both spans by 0.9 or 1.1 |
| Viewers.PanDragsPoint | ui/main_window.py:127-149 | before `start_pan` nothing changes; after it both spans are kept, the point under the old pointer is under the new one, and the pointer becomes the pan start |
| Viewers.ResetParamsSpec | ui/main_window.py:160-167 | every setting except the pan start returns to its initial value |
| Viewers.AtLeastOne | ui/control_panel.py:108 | `max(1, v)` is at least 1 and keeps v when v >= 1 |
| Viewers.ValidOrDefault | ui/main_window.py:183-191 | a valid colour is kept and anything else becomes the default |
| Viewers.EntryChangeClamps | ui/control_panel.py:89-101 | the new c lies in [-2, 2]², a component already inside keeps its value, and nothing else changes; an unparsable entry changes nothing |
| Viewers.IterChangeSpec | ui/control_panel.py:103-113 | a parsed value v becomes max(1, v), only max_iter changes, and an unparsable entry changes nothing |
| Viewers.ValidatedColorsAreValid | fractal_20250216-2122.py:275-286 | after both validations both entries hold valid colours, and a valid entry is kept as typed |
| Viewers.DefaultColorsValid | fractal_20250216-2122.py:244-245 | both default colours pass `is_valid_hex_color` |
| Viewers.DefaultColorsParse | fractal_20250216-2122.py:244-247 | both default colours parse to the fallback pair |
| Viewers.ValidationYieldsValidColor | ui/main_window.py:183-202 | after validation an entry holds a valid colour, and a valid colour is never replaced |
| Viewers.QuickDrawCoversCanvas | fractal_20250216-2122.py:199-202 | a quick draw samples 200 × 125 points at every 4th pixel of the 800 × 500 grid, and a full draw samples the whole grid |
| JuliaViewer.DrawLeavesParsableColors | fractal_20250216-2122.py:237-258 | after a draw both colours parse, the colormap uses exactly them, only the colours changed, and a second draw changes nothing |
| JuliaViewer.DrawKeepsDefaults | fractal_20250216-2122.py:239-247 | a draw with the two default colours changes nothing |
| JuliaViewer.ColorChangeLeavesUsableColors | fractal_20250216-2122.py:275-286 | after a colour change and its redraw both colours are valid and parse |
| JuliaViewer.JuliaSetViewer.constructor | fractal_20250216-2122.py:7-55 | c = -0.4 + 0.6i, 100 iterations, blue to white, the view [-2, 2]², no pan |
| JuliaViewer.JuliaSetViewer.Redraw | fractal_20250216-2122.py:288-313 | the state becomes `DrawSpec` of the old state |
| JuliaViewer.JuliaSetViewer.CreateColormap | fractal_20250216-2122.py:237-258 | resets unparsable colours as `DrawSpec` does, and fills the colormap from the end colours |
| JuliaViewer.JuliaSetViewer.OnMousewheel | fractal_20250216-2122.py:120-146 | the state becomes the drawn `MousewheelSpec` |
| JuliaViewer.JuliaSetViewer.StartPan | fractal_20250216-2122.py:148-151 | records the pointer and changes nothing else |
| JuliaViewer.JuliaSetViewer.OnPan | fractal_20250216-2122.py:153-180 | nothing without a pan start; otherwise the drawn `OnPanSpec` |
| JuliaViewer.JuliaSetViewer.ResetView | fractal_20250216-2122.py:191-197 | the view goes back to its initial value, then a draw |
| JuliaViewer.JuliaSetViewer.ResetParams | fractal_20250216-2122.py:182-189 | every setting except the pan start returns to its initial value |
| JuliaViewer.JuliaSetViewer.OnColorChange | fractal_20250216-2122.py:275-286 | both entries are validated, then drawn |
| JuliaViewer.JuliaSetViewer.OnEntryChange | fractal_20250216-2122.py:318-333 | the clamped `EntryChangeSpec`, then a draw; an unparsable entry changes nothing |
| JuliaViewer.JuliaSetViewer.OnIterChange | fractal_20250216-2122.py:335-347 | `IterChangeSpec`, then a draw; an unparsable entry changes nothing |
| MainWindowUi.MainWindow.constructor | ui/main_window.py:10-59 | the same initial settings as the stand-alone viewer |
| MainWindowUi.MainWindow.Draw | ui/main_window.py:67-97 | stride 4 for a quick draw and 1 otherwise; the colormap of the given values; no state change |
| MainWindowUi.MainWindow.OnMousewheel | ui/main_window.py:100-120 | the state becomes `MousewheelSpec` of the old state |
| MainWindowUi.MainWindow.StartPan | ui/main_window.py:122-125 | records the pointer |
| MainWindowUi.MainWindow.OnPan | ui/main_window.py:127-149 | the state becomes `OnPanSpec` of the old state |
| MainWindowUi.MainWindow.ResetView | ui/main_window.py:152-158 | the view goes back to its initial value |
| MainWindowUi.MainWindow.ResetParams | ui/main_window.py:160-167 | every setting except the pan start returns to its initial value |
| MainWindowUi.MainWindow.SetRealParam | ui/main_window.py:171-173 | stores the real part as given and changes nothing else |
| MainWindowUi.MainWindow.SetImagParam | ui/main_window.py:175-177 | stores the imaginary part as given and changes nothing else |
| MainWindowUi.MainWindow.SetMaxIterParam | ui/main_window.py:179-181 | stores the iteration limit as given and changes nothing else |
| MainWindowUi.MainWindow.SetStartColorParam | ui/main_window.py:183-191 | stores the colour if valid and blue otherwise; the stored colour is always valid |
| MainWindowUi.MainWindow.SetEndColorParam | ui/main_window.py:194-202 | stores the colour if valid and white otherwise; the stored colour is always valid |
| ControlPanelUi.ControlPanel.constructor | ui/control_panel.py:7-10 | the panel is attached to the given main window |
| ControlPanelUi.ControlPanel.OnSliderChangeReal | ui/control_panel.py:74-79 | a parsed slider value becomes the real part; an unparsable one changes nothing |
| ControlPanelUi.ControlPanel.OnSliderChangeImag | ui/control_panel.py:81-86 | a parsed slider value becomes the imaginary part; an unparsable one changes nothing |
| ControlPanelUi.ControlPanel.OnEntryChange | ui/control_panel.py:89-101 | the window's state becomes `EntryChangeSpec` of the entries |
| ControlPanelUi.ControlPanel.OnIterChange | ui/control_panel.py:103-113 | the window's state becomes `IterChangeSpec` of the entry |
| ControlPanelUi.ControlPanel.OnColorChangeStart | ui/control_panel.py:115-118 | the start colour is validated, with blue as the default |
| ControlPanelUi.ControlPanel.OnColorChangeEnd | ui/control_panel.py:120-123 | the end colour is validated, with white as the default |
| ControlPanelUi.ControlPanel.ResetParams | ui/control_panel.py:142-143 | delegates to the window's reset: the initial settings, with the pan start kept |
| Transforms.Lookup | MANUS_fractal_app/lib/src/core/transform.py:679 | `d.get(name)` is present iff the name is a key |
| Transforms.AssignLookup | MANUS_fractal_app/lib/src/core/transform.py:679 | after `d[name] = w` the name maps to w, other names keep their weights, keys stay unique, and only a new name grows the dict |
| Transforms.RemoveLookup | MANUS_fractal_app/lib/src/core/transform.py:769 | `del d[name]` removes exactly that name: it is gone, other names keep their weights, and the dict shrinks by one |
| Transforms.PivotRoundTrip | MANUS_fractal_app/lib/src/core/transform.py:81-113 | `from_dict(to_dict(p))` is p, and a dict without the keys gives the default pivot |
| Transforms.NewTransform | MANUS_fractal_app/lib/src/core/transform.py:123-138 | a transform always has at least one variation: the given non-empty ones, or {'linear': 1.0} |
| Transforms.TransformRoundTrip | MANUS_fractal_app/lib/src/core/transform.py:187-221 | the dict form round-trips every transform with a variation; an empty dict gives the defaults; empty variations come back as linear |
| Transforms.LinearSumScales | MANUS_fractal_app/lib/src/core/transform.py:157-183 | when every variation acts linearly, the weighted sum is the point scaled by the total weight |
| Transforms.Apply | MANUS_fractal_app/lib/src/core/transform.py:140-185 | every output point is the weighted sum of the variations at the pivot-transformed input point |
| Transforms.CanvasRoundTrip | MANUS_fractal_app/lib/src/core/transform.py:264-294 | `fractal_to_canvas` and `canvas_to_fractal` are inverse to each other in both directions |
| Transforms.CenterFollowsPointer | MANUS_fractal_app/lib/src/core/transform.py:402-477 | dragging the centre puts the pivot under the pointer and keeps rotation and both scales; the other handles keep the position; the x handle keeps the y scale, the y handle keeps rotation and the x scale, the rotation handle keeps both scales |
| Transforms.ParamChangeKeepsSigns | MANUS_fractal_app/lib/src/core/transform.py:607-634 | a non-negative weight and colour stay non-negative, and the variations and pivot never change |
| Transforms.PivotEditor.constructor | MANUS_fractal_app/lib/src/core/transform.py:229-261 | the given pivot or the default, no drag, and the origin at the canvas centre |
| Transforms.PivotEditor.OnClick | MANUS_fractal_app/lib/src/core/transform.py:362-400 | the state becomes `ClickSpec` of the hit |
| Transforms.PivotEditor.OnDrag | MANUS_fractal_app/lib/src/core/transform.py:402-477 | nothing without a drag; otherwise the pivot becomes `DragPivot` of the handle, and the callback receives it |
| Transforms.PivotEditor.OnRelease | MANUS_fractal_app/lib/src/core/transform.py:479-486 | ends the drag and changes nothing else |
| Transforms.PivotEditor.SetPivot | MANUS_fractal_app/lib/src/core/transform.py:488-496 | replaces the pivot and changes nothing else |
| Transforms.TransformEditor.constructor | MANUS_fractal_app/lib/src/core/transform.py:513-527 | the given transform or a new default one, and a pivot editor on its pivot |
| Transforms.TransformEditor.OnParamChange | MANUS_fractal_app/lib/src/core/transform.py:607-634 | the transform becomes `ParamChangeSpec` of the entries and stays well formed |
| Transforms.TransformEditor.OnPivotChange | MANUS_fractal_app/lib/src/core/transform.py:636-647 | only the pivot is replaced |
| Transforms.TransformEditor.OnPivotDrag | MANUS_fractal_app/lib/src/core/transform.py:402-477 | a drag changes only the transform's pivot, to the editor's new pivot; the editor's drag state (dragging, drag start, start pivot) stays as it was |
| Transforms.TransformEditor.AddVariation | MANUS_fractal_app/lib/src/core/transform.py:649-663 | as written the call raises NameError at `ttk.Combobox` (the file never imports `ttk`, lines 7-10), so nothing is added |
| Transforms.TransformEditor.ConfirmVariation | MANUS_fractal_app/lib/src/core/transform.py:673-692 | the OK button as intended: a parsed weight is assigned to the name, which then maps to it; an unparsable weight changes nothing |
| Transforms.TransformEditor.EditVariation | MANUS_fractal_app/lib/src/core/transform.py:694-748 | the selected variation gets the parsed weight and then maps to it; no selection or no weight changes nothing |
| Transforms.TransformEditor.RemoveVariation | MANUS_fractal_app/lib/src/core/transform.py:750-778 | refused with one variation left; otherwise exactly the selected name is removed and at least one remains |

## Left out

- The Tk GUI is not modelled: widgets, layout, dialogs (`choose_color`, message boxes), the
  scrolling of the control panel (`_on_mousewheel`), `draw_pivot`, the frame tree view and
  `update_tree_selection`.
- The remaining TransformEditor methods are not modelled. `set_transform` refers to an
  undefined name and raises NameError. `get_transform` and `get_pivot` only return a field.
- `render_fractal`, `render_high_resolution`, `apply_parameters`, `apply_transform`,
  `apply_color_settings`, the node editor and the plugin manager are not modelled. They
  are I/O, threads, or code outside the modelled core. History and frames model the
  state these handlers change, not the rendering they trigger.
- Saving and loading parameters (JSON files), PIL images and `Image.fromarray`, and the
  LANCZOS downsampling of `render_high_quality` are left out. The model stops at the RGBA
  arrays.
- `render_parallel` runs its threads concurrently. The model runs the bands one after
  another, which gives the same result because the bands write disjoint rows.
- The `@jit(nopython=True)` decorator on `julia_set` in test_claude_exp.py:7 is not
  modelled: `LegacyJulia.JuliaSet` treats the function as plain NumPy code, and numba's
  compilation (including whether nopython mode accepts every construct it uses) is left out.
- `calculate_julia` of both Julia viewers (fractal_20250216-2122.py and core/fractal.py)
  is left out: its log-log smoothing and min-max normalisation are floating-point
  transcendental code. Only its sampling grid is modelled (`Viewers.QuickDrawCoversCanvas`).
  The colormap takes its values as an input.
- Floating point is modelled by exact reals. NaN, infinities, overflow and summation order
  are not modelled. `sin`, `cos`, `atan2`, `sqrt` and `log` are parameters
  (`Transforms.Trig`, and the potential function of `Coloring.ApplyPotential`).
- HexColor.Byte: the uint8 store of an out-of-range value is taken to wrap modulo 256.
  NumPy's exact cast of such floats is platform dependent.
- `int()` on strings: Unicode digits other than ASCII hex digits are not accepted by
  `HexColor.ParseHex`.
- Tk variables that fail to parse are `None` inputs, and the model keeps the last parsed
  value. In the source `real` and `imag` are `DoubleVar`s and `max_iter` is an `IntVar`
  (fractal_20250216-2122.py:12-14, ui/main_window.py:15-17). Unparsable text typed into
  their entries stays in the variable, and `.get()` then raises TclError, which the
  handlers' `except ValueError` does not catch. `IntVar.get()` falling back to parsing a
  float is not modelled either.
- JuliaViewer.JuliaSetViewer.OnEntryChange: an unparsable entry changes nothing in the
  model. In the source the TclError escapes the handler and the text stays in the entry.
- JuliaViewer.JuliaSetViewer.OnIterChange: likewise for the iteration entry.
- JuliaViewer.JuliaSetViewer.Redraw: assumes real, imag and max_iter hold numbers. While
  one holds unparsable text, every draw raises at `self.real.get()`
  (fractal_20250216-2122.py:205-206) before `create_colormap`.
- JuliaViewer.JuliaSetViewer.CreateColormap: not reached while an entry holds unparsable
  text, so its colour resets do not happen then.
- JuliaViewer.JuliaSetViewer.OnColorChange: its own resets still happen, but the draw that
  follows raises while an entry holds unparsable text.
- JuliaViewer.DrawLeavesParsableColors: holds for draws that get past the Tk variables,
  that is while real, imag and max_iter hold numbers.
- JuliaViewer.ColorChangeLeavesUsableColors: the redraw's resets need real, imag and
  max_iter to hold numbers; otherwise only the handler's own resets happen.
- MainWindowUi.MainWindow.Draw: assumes real, imag and max_iter hold numbers. Otherwise it
  raises at ui/main_window.py:78-79 before the colormap.
- ControlPanelUi.ControlPanel.OnEntryChange: stores both parts. In the source each
  `set_*_param` draws at once (ui/main_window.py:171-181), so when max_iter holds
  unparsable text the draw after storing the real part raises and the imaginary part is
  never stored.
- ControlPanelUi.ControlPanel.OnIterChange: when real or imag holds unparsable text, the
  draw after storing the limit raises; the stored limit is modelled.
- Pivot and Transform are values. The source's sharing of one `Pivot` object between the
  transform and its pivot editor is captured only through `TransformEditor.OnPivotDrag`.
  Other aliasing, such as `to_dict` returning the variations dict itself, is not captured.
- The callbacks of `TransformEditor.on_param_change` and of the add, edit and remove
  dialogs are not modelled (they call code outside the editor).
- Transforms.TransformEditor.EditVariation: names are taken from the selection as given.
  The source splits the listbox text at ": ", so a variation name containing ": " is not
  modelled.
- Transforms.TransformEditor.RemoveVariation: requires the selected name to be in the
  dictionary. The listbox is assumed to be in sync, and the KeyError otherwise is not
  modelled.
- The image repetition of the quick draw is modelled on sequences (`Sampling.Upsample`),
  not as the in-place array result `np.repeat` produces.

## Findings

| source | as written | input that shows it | evidently intended | confidence | as-written member | corrected member |
|---|---|---|---|---|---|---|
| MANUS_fractal_app/lib/src/core/transform.py:663 | `add_variation` builds a `ttk.Combobox`, but the file imports tkinter only as `tk` (lines 7-10), so the call raises NameError and no variation can be added | pressing the add button, in any state | `from tkinter import ttk`, so that the dialog's OK button assigns the parsed weight to the chosen name | high, not executed | Transforms.TransformEditor.AddVariation | Transforms.TransformEditor.ConfirmVariation |
