/** Colour tables built by piecewise-linear interpolation between colour stops
    (`GradientGenerator` in coloring.py) and the five preset tables. */
module Gradient {
  import opened Common

  /** An RGBA colour; channels are Python ints (0..255 for every colour in the source). */
  datatype Color = Color(r: int, g: int, b: int, a: int)

  /** A colour stop `(position, (R, G, B, A))`. */
  datatype Stop = Stop(pos: real, color: Color)

  predicate ChannelsIn(c: Color, lo: int, hi: int)
  {
    lo <= c.r <= hi && lo <= c.g <= hi && lo <= c.b <= hi && lo <= c.a <= hi
  }

  // ---------------------------------------------------------------------------
  // sorted(colors, key=lambda x: x[0])
  // ---------------------------------------------------------------------------

  predicate SortedByPosition(s: seq<Stop>)
  {
    forall i, j :: 0 <= i < j < |s| ==> s[i].pos <= s[j].pos
  }

  /** Insert x after every stop whose position is not greater (keeps equal stops in order). */
  function InsertStop(sorted: seq<Stop>, x: Stop): seq<Stop>
  {
    if |sorted| == 0 then [x]
    else if sorted[|sorted| - 1].pos <= x.pos then sorted + [x]
    else InsertStop(sorted[..|sorted| - 1], x) + [sorted[|sorted| - 1]]
  }

  /** Python's stable `sorted` by position. */
  function SortByPosition(xs: seq<Stop>): seq<Stop>
  {
    if |xs| == 0 then [] else InsertStop(SortByPosition(xs[..|xs| - 1]), xs[|xs| - 1])
  }

  /** Inserting keeps every stop and adds exactly x. */
  lemma {:induction false} InsertStopElements(sorted: seq<Stop>, x: Stop)
    ensures multiset(InsertStop(sorted, x)) == multiset(sorted) + multiset{x}
    ensures |InsertStop(sorted, x)| == |sorted| + 1
  {
    if |sorted| > 0 && sorted[|sorted| - 1].pos > x.pos {
      var init := sorted[..|sorted| - 1];
      var last := sorted[|sorted| - 1];
      InsertStopElements(init, x);
      assert sorted == init + [last];
      assert multiset(sorted) == multiset(init) + multiset{last};
    }
  }

  /** Every stop of the result is x or was already there. */
  lemma InsertStopMembers(sorted: seq<Stop>, x: Stop)
    ensures forall y :: y in InsertStop(sorted, x) ==> y == x || y in sorted
  {
    forall y | y in InsertStop(sorted, x)
      ensures y == x || y in sorted
    {
      InsertStopElements(sorted, x);
      assert y in multiset(InsertStop(sorted, x));
    }
  }

  lemma {:induction false} InsertStopSorted(sorted: seq<Stop>, x: Stop)
    requires SortedByPosition(sorted)
    ensures SortedByPosition(InsertStop(sorted, x))
  {
    if |sorted| == 0 {
    } else if sorted[|sorted| - 1].pos <= x.pos {
      var out := sorted + [x];
      forall i, j | 0 <= i < j < |out|
        ensures out[i].pos <= out[j].pos
      {
        if j == |sorted| && i < |sorted| - 1 {
          assert sorted[i].pos <= sorted[|sorted| - 1].pos;
        }
      }
    } else {
      var init := sorted[..|sorted| - 1];
      var last := sorted[|sorted| - 1];
      assert SortedByPosition(init) by {
        forall i, j | 0 <= i < j < |init|
          ensures init[i].pos <= init[j].pos
        {
          assert init[i] == sorted[i] && init[j] == sorted[j];
        }
      }
      InsertStopSorted(init, x);
      InsertStopMembers(init, x);
      var r := InsertStop(init, x);
      var out := r + [last];
      assert InsertStop(sorted, x) == out;
      forall i, j | 0 <= i < j < |out|
        ensures out[i].pos <= out[j].pos
      {
        if j == |r| {
          assert out[i] == r[i] && r[i] in r;
          if r[i] != x {
            var k :| 0 <= k < |init| && init[k] == r[i];
            assert sorted[k] == r[i];
          }
        } else {
          assert out[i] == r[i] && out[j] == r[j];
        }
      }
    }
  }

  lemma InsertStopCorrect(sorted: seq<Stop>, x: Stop)
    requires SortedByPosition(sorted)
    ensures SortedByPosition(InsertStop(sorted, x))
    ensures multiset(InsertStop(sorted, x)) == multiset(sorted) + multiset{x}
    ensures |InsertStop(sorted, x)| == |sorted| + 1
    ensures forall y :: y in InsertStop(sorted, x) ==> y == x || y in sorted
  {
    InsertStopSorted(sorted, x);
    InsertStopElements(sorted, x);
    InsertStopMembers(sorted, x);
  }

  /** The sort orders the stops by position and is a permutation of them. */
  lemma {:induction false} SortByPositionCorrect(xs: seq<Stop>)
    ensures SortedByPosition(SortByPosition(xs))
    ensures multiset(SortByPosition(xs)) == multiset(xs)
    ensures |SortByPosition(xs)| == |xs|
  {
    if |xs| > 0 {
      var init := xs[..|xs| - 1];
      SortByPositionCorrect(init);
      InsertStopCorrect(SortByPosition(init), xs[|xs| - 1]);
      assert xs == init + [xs[|xs| - 1]];
    }
  }

  // ---------------------------------------------------------------------------
  // The colour at one position.
  // ---------------------------------------------------------------------------

  /** `int(c1 * (1 - t) + c2 * t)` for one channel. */
  function Mix(c1: int, c2: int, t: real): int
  {
    Trunc(c1 as real * (1.0 - t) + c2 as real * t)
  }

  /** Linear interpolation between two stops at `pos`; t is 0 when the stops coincide. */
  function Interpolate(lo: Stop, hi: Stop, pos: real): Color
  {
    var t := if hi.pos > lo.pos then (pos - lo.pos) / (hi.pos - lo.pos) else 0.0;
    Color(Mix(lo.color.r, hi.color.r, t), Mix(lo.color.g, hi.color.g, t),
          Mix(lo.color.b, hi.color.b, t), Mix(lo.color.a, hi.color.a, t))
  }

  /** The search from stop pair j on: the first pair with pos1 <= pos <= pos2 is
      interpolated; when none brackets pos, the `for … else` takes the first stop's
      colour if pos is before it and the last stop's colour otherwise. */
  function ColorFrom(s: seq<Stop>, pos: real, j: nat): Color
    requires |s| >= 1
    decreases |s| - j
  {
    if j + 1 >= |s| then (if pos < s[0].pos then s[0].color else s[|s| - 1].color)
    else if s[j].pos <= pos <= s[j + 1].pos then Interpolate(s[j], s[j + 1], pos)
    else ColorFrom(s, pos, j + 1)
  }

  /** The colour the loops of `create_rgb_gradient` (on sorted stops) and
      `apply_background_gradient` (on the stops as given) pick for `pos`. */
  function ColorAt(s: seq<Stop>, pos: real): Color
    requires |s| >= 1
  {
    ColorFrom(s, pos, 0)
  }

  /** A fraction t in [0, 1] of d lies between 0 and d. */
  lemma ScaleUnit(d: real, t: real)
    requires 0.0 <= t <= 1.0
    ensures d >= 0.0 ==> 0.0 <= d * t <= d
    ensures d < 0.0 ==> d <= d * t <= 0.0
  {
    assert d - d * t == d * (1.0 - t);
    if d >= 0.0 {
      assert d * (1.0 - t) >= 0.0;
    } else {
      assert (-d) * (1.0 - t) >= 0.0;
      assert (-d) * t >= 0.0;
    }
  }

  /** A mixed channel lies between the two channels it mixes. */
  lemma MixBetween(c1: int, c2: int, t: real)
    requires 0.0 <= t <= 1.0
    ensures MinInt(c1, c2) <= Mix(c1, c2, t) <= MaxInt(c1, c2)
  {
    var d := (c2 - c1) as real;
    var x := c1 as real * (1.0 - t) + c2 as real * t;
    assert x == c1 as real + d * t;
    ScaleUnit(d, t);
    if c1 <= c2 {
      assert c1 as real <= x <= c2 as real;
    } else {
      assert c2 as real <= x <= c1 as real;
    }
  }

  /** A part a of a positive whole b is a fraction in [0, 1]. */
  lemma FractionUnit(a: real, b: real)
    requires 0.0 <= a <= b && b > 0.0
    ensures 0.0 <= a / b <= 1.0
  {
    assert a / b * b == a;
  }

  /** At t = 0 the first channel comes out unchanged, at t = 1 the second. */
  lemma MixEnds(c1: int, c2: int)
    ensures Mix(c1, c2, 0.0) == c1
    ensures Mix(c1, c2, 1.0) == c2
  {
    assert c1 as real * (1.0 - 0.0) + c2 as real * 0.0 == c1 as real;
    assert c1 as real * (1.0 - 1.0) + c2 as real * 1.0 == c2 as real;
  }

  /** Interpolating at the first stop's position gives its colour, and at the second
      stop's position (when it is strictly later) the second stop's colour. */
  lemma InterpolateEnds(lo: Stop, hi: Stop)
    ensures Interpolate(lo, hi, lo.pos) == lo.color
    ensures lo.pos < hi.pos ==> Interpolate(lo, hi, hi.pos) == hi.color
  {
    MixEnds(lo.color.r, hi.color.r);
    MixEnds(lo.color.g, hi.color.g);
    MixEnds(lo.color.b, hi.color.b);
    MixEnds(lo.color.a, hi.color.a);
    if lo.pos < hi.pos {
      assert (hi.pos - lo.pos) / (hi.pos - lo.pos) == 1.0;
      assert Interpolate(lo, hi, hi.pos) ==
        Color(Mix(lo.color.r, hi.color.r, 1.0), Mix(lo.color.g, hi.color.g, 1.0),
              Mix(lo.color.b, hi.color.b, 1.0), Mix(lo.color.a, hi.color.a, 1.0));
    }
  }

  function MinInt(a: int, b: int): int { if a <= b then a else b }
  function MaxInt(a: int, b: int): int { if a >= b then a else b }

  /** Between its bracketing stops, each channel lies between theirs. */
  lemma InterpolateBetween(lo: Stop, hi: Stop, pos: real)
    requires lo.pos <= pos <= hi.pos
    ensures var c := Interpolate(lo, hi, pos);
      MinInt(lo.color.r, hi.color.r) <= c.r <= MaxInt(lo.color.r, hi.color.r)
      && MinInt(lo.color.g, hi.color.g) <= c.g <= MaxInt(lo.color.g, hi.color.g)
      && MinInt(lo.color.b, hi.color.b) <= c.b <= MaxInt(lo.color.b, hi.color.b)
      && MinInt(lo.color.a, hi.color.a) <= c.a <= MaxInt(lo.color.a, hi.color.a)
  {
    var t := if hi.pos > lo.pos then (pos - lo.pos) / (hi.pos - lo.pos) else 0.0;
    if hi.pos > lo.pos {
      FractionUnit(pos - lo.pos, hi.pos - lo.pos);
    }
    MixBetween(lo.color.r, hi.color.r, t);
    MixBetween(lo.color.g, hi.color.g, t);
    MixBetween(lo.color.b, hi.color.b, t);
    MixBetween(lo.color.a, hi.color.a, t);
  }

  /** When every stop's channels lie in [lo, hi], so does every looked-up colour: with
      stops in 0..255 every table entry is a valid 8-bit colour. */
  lemma {:induction false} ColorFromWithin(s: seq<Stop>, pos: real, j: nat, lo: int, hi: int)
    requires |s| >= 1
    requires forall k :: 0 <= k < |s| ==> ChannelsIn(s[k].color, lo, hi)
    ensures ChannelsIn(ColorFrom(s, pos, j), lo, hi)
    decreases |s| - j
  {
    if j + 1 >= |s| {
    } else if s[j].pos <= pos <= s[j + 1].pos {
      InterpolateBetween(s[j], s[j + 1], pos);
    } else {
      ColorFromWithin(s, pos, j + 1, lo, hi);
    }
  }

  /** Pairs before j that do not bracket pos are skipped. */
  lemma {:induction false} ColorFromSkips(s: seq<Stop>, pos: real, j: nat, k: nat)
    requires |s| >= 1 && j <= k
    requires forall m :: j <= m < k && m + 1 < |s| ==> !(s[m].pos <= pos <= s[m + 1].pos)
    ensures ColorFrom(s, pos, j) == ColorFrom(s, pos, k)
    decreases k - j
  {
    if j < k && j + 1 < |s| {
      ColorFromSkips(s, pos, j + 1, k);
    }
  }

  // ---------------------------------------------------------------------------
  // create_rgb_gradient
  // ---------------------------------------------------------------------------

  /** `i / (num_points - 1)`, the position of table entry i. */
  function PointPosition(i: int, numPoints: int): real
    requires numPoints >= 2
  {
    (i as real) / ((numPoints - 1) as real)
  }

  /** What `create_rgb_gradient(colors, num_points)` returns or raises: `num_points`
      entries at positions i / (num_points - 1). A single point divides by zero; with no
      stops the fallback `sorted_colors[0]` raises IndexError; no points give []. */
  function GradientTable(colors: seq<Stop>, numPoints: int): (r: Outcome<seq<Color>>)
    ensures r.Ok? ==> |r.value| == if numPoints > 0 then numPoints else 0
  {
    if numPoints <= 0 then Ok([])
    else if numPoints == 1 then Raised("ZeroDivisionError")
    else if |colors| == 0 then Raised("IndexError")
    else
      var sorted := SortByPosition(colors);
      SortByPositionCorrect(colors);
      Ok(seq(numPoints, i requires 0 <= i < numPoints =>
        ColorAt(sorted, PointPosition(i, numPoints))))
  }

  /** The stop search of `create_rgb_gradient` and `apply_background_gradient`: the
      first bracketing pair is interpolated (`break`), and without one the `else` takes
      the nearest end stop, which fails (None) when there are no stops. */
  method ScanStops(stops: seq<Stop>, pos: real) returns (color: Option<Color>)
    ensures |stops| == 0 ==> color == None
    ensures |stops| >= 1 ==> color == Some(ColorAt(stops, pos))
  {
    var j := 0;
    while j < |stops| - 1
      invariant 0 <= j <= if |stops| > 0 then |stops| - 1 else 0
      invariant forall m :: 0 <= m < j ==> !(stops[m].pos <= pos <= stops[m + 1].pos)
    {
      if stops[j].pos <= pos <= stops[j + 1].pos {
        ColorFromSkips(stops, pos, 0, j);
        return Some(Interpolate(stops[j], stops[j + 1], pos));
      }
      j := j + 1;
    }
    if |stops| == 0 {
      return None;
    }
    ColorFromSkips(stops, pos, 0, j);
    if pos < stops[0].pos {
      return Some(stops[0].color);
    }
    return Some(stops[|stops| - 1].color);
  }

  /** `create_rgb_gradient`: for each point, scan the sorted stop pairs and `break` at
      the first bracket, else fall back to an end colour. */
  method CreateRgbGradient(colors: seq<Stop>, numPoints: int) returns (out: Outcome<seq<Color>>)
    ensures out == GradientTable(colors, numPoints)
  {
    var sorted := SortByPosition(colors);
    SortByPositionCorrect(colors);
    var gradient: seq<Color> := [];
    var i := 0;
    while i < numPoints
      invariant 0 <= i <= if numPoints > 0 then numPoints else 0
      invariant numPoints >= 2 && |colors| > 0 ==>
        |gradient| == i && forall k :: 0 <= k < i ==>
          gradient[k] == ColorAt(sorted, PointPosition(k, numPoints))
      invariant i > 0 ==> numPoints >= 2 && |colors| > 0
      invariant i == 0 ==> gradient == []
    {
      if numPoints - 1 == 0 {
        return Raised("ZeroDivisionError");
      }
      var color := ScanStops(sorted, PointPosition(i, numPoints));
      if color.None? {
        return Raised("IndexError");
      }
      gradient := gradient + [color.value];
      i := i + 1;
    }
    assert numPoints >= 2 ==> gradient == GradientTable(colors, numPoints).value;
    return Ok(gradient);
  }

  /** Stops already in position order come out of the sort unchanged. */
  lemma {:induction false} SortedUnchanged(s: seq<Stop>)
    requires SortedByPosition(s)
    ensures SortByPosition(s) == s
  {
    if |s| > 0 {
      var init := s[..|s| - 1];
      assert SortedByPosition(init);
      SortedUnchanged(init);
      assert s == init + [s[|s| - 1]];
    }
  }

  /** Sorted stops starting at 0.0 give their first colour at position 0.0. */
  lemma ColorAtFirstStop(s: seq<Stop>)
    requires |s| >= 2 && SortedByPosition(s) && s[0].pos == 0.0
    ensures ColorAt(s, 0.0) == s[0].color
  {
    assert s[0].pos <= 0.0 <= s[1].pos;
    assert ColorAt(s, 0.0) == Interpolate(s[0], s[1], s[0].pos);
    InterpolateEnds(s[0], s[1]);
  }

  /** Sorted stops ending in a single stop at 1.0 give that stop's colour at 1.0. */
  lemma ColorAtLastStop(s: seq<Stop>)
    requires |s| >= 2 && SortedByPosition(s) && s[|s| - 1].pos == 1.0 && s[|s| - 2].pos < 1.0
    ensures ColorAt(s, 1.0) == s[|s| - 1].color
  {
    var n := |s|;
    forall m | 0 <= m < n - 2
      ensures !(s[m].pos <= 1.0 <= s[m + 1].pos)
    {
      assert s[m + 1].pos <= s[n - 2].pos;
    }
    ColorFromSkips(s, 1.0, 0, n - 2);
    assert ColorFrom(s, 1.0, n - 2) == Interpolate(s[n - 2], s[n - 1], s[n - 1].pos);
    InterpolateEnds(s[n - 2], s[n - 1]);
  }

  lemma EndPositions(numPoints: int)
    requires numPoints >= 2
    ensures PointPosition(0, numPoints) == 0.0
    ensures PointPosition(numPoints - 1, numPoints) == 1.0
  {
  }

  /** With sorted stops starting at position 0.0, the first entry is the first stop's
      colour. */
  lemma TableFirstEntry(colors: seq<Stop>, numPoints: int)
    requires numPoints >= 2
    requires var s := SortByPosition(colors); |s| >= 2 && s[0].pos == 0.0
    ensures GradientTable(colors, numPoints).Ok?
    ensures GradientTable(colors, numPoints).value[0] == SortByPosition(colors)[0].color
  {
    SortByPositionCorrect(colors);
    EndPositions(numPoints);
    ColorAtFirstStop(SortByPosition(colors));
  }

  /** With sorted stops ending in a single stop at position 1.0, the last entry is that
      stop's colour. */
  lemma TableLastEntry(colors: seq<Stop>, numPoints: int)
    requires numPoints >= 2
    requires var s := SortByPosition(colors);
      |s| >= 2 && s[|s| - 1].pos == 1.0 && s[|s| - 2].pos < 1.0
    ensures GradientTable(colors, numPoints).Ok?
    ensures GradientTable(colors, numPoints).value[numPoints - 1] ==
      SortByPosition(colors)[|SortByPosition(colors)| - 1].color
  {
    SortByPositionCorrect(colors);
    EndPositions(numPoints);
    ColorAtLastStop(SortByPosition(colors));
  }

  /** Every entry of a table built from stops with channels in [lo, hi] stays in [lo, hi]. */
  lemma TableWithin(colors: seq<Stop>, numPoints: int, lo: int, hi: int)
    requires forall k :: 0 <= k < |colors| ==> ChannelsIn(colors[k].color, lo, hi)
    requires GradientTable(colors, numPoints).Ok?
    ensures forall c :: c in GradientTable(colors, numPoints).value ==> ChannelsIn(c, lo, hi)
  {
    if numPoints >= 2 && |colors| > 0 {
      var s := SortByPosition(colors);
      SortByPositionCorrect(colors);
      forall k | 0 <= k < |s|
        ensures ChannelsIn(s[k].color, lo, hi)
      {
        assert s[k] in multiset(colors);
      }
      forall i | 0 <= i < numPoints
        ensures ChannelsIn(ColorAt(s, PointPosition(i, numPoints)), lo, hi)
      {
        ColorFromWithin(s, PointPosition(i, numPoints), 0, lo, hi);
      }
    }
  }

  // ---------------------------------------------------------------------------
  // create_preset_gradients
  // ---------------------------------------------------------------------------

  const Rainbow: seq<Stop> := [
    Stop(0.0, Color(255, 0, 0, 255)), Stop(0.2, Color(255, 165, 0, 255)),
    Stop(0.4, Color(255, 255, 0, 255)), Stop(0.6, Color(0, 255, 0, 255)),
    Stop(0.8, Color(0, 0, 255, 255)), Stop(1.0, Color(128, 0, 128, 255))]

  const Hot: seq<Stop> := [
    Stop(0.0, Color(0, 0, 0, 255)), Stop(0.3, Color(128, 0, 0, 255)),
    Stop(0.6, Color(255, 0, 0, 255)), Stop(0.8, Color(255, 255, 0, 255)),
    Stop(1.0, Color(255, 255, 255, 255))]

  const Cool: seq<Stop> := [
    Stop(0.0, Color(0, 0, 128, 255)), Stop(0.5, Color(0, 128, 255, 255)),
    Stop(1.0, Color(255, 255, 255, 255))]

  const Monochrome: seq<Stop> := [
    Stop(0.0, Color(0, 0, 0, 255)), Stop(1.0, Color(255, 255, 255, 255))]

  const Cosmic: seq<Stop> := [
    Stop(0.0, Color(0, 0, 0, 255)), Stop(0.3, Color(75, 0, 130, 255)),
    Stop(0.6, Color(148, 0, 211, 255)), Stop(0.8, Color(255, 105, 180, 255)),
    Stop(1.0, Color(255, 255, 255, 255))]

  /** The stop lists of the presets, by name. */
  function PresetStops(): map<string, seq<Stop>>
  {
    map["rainbow" := Rainbow, "hot" := Hot, "cool" := Cool,
        "monochrome" := Monochrome, "cosmic" := Cosmic]
  }

  /** `create_preset_gradients`: one 256-entry table per preset. */
  method CreatePresetGradients() returns (presets: map<string, seq<Color>>)
    ensures presets.Keys == PresetStops().Keys
    ensures forall name :: name in presets ==>
      GradientTable(PresetStops()[name], 256) == Ok(presets[name])
  {
    presets := map[];
    var names := ["rainbow", "hot", "cool", "monochrome", "cosmic"];
    var k := 0;
    while k < |names|
      invariant 0 <= k <= |names|
      invariant presets.Keys == set m | m in names[..k]
      invariant forall name :: name in presets ==>
        name in PresetStops() && GradientTable(PresetStops()[name], 256) == Ok(presets[name])
    {
      var table := CreateRgbGradient(PresetStops()[names[k]], 256);
      presets := presets[names[k] := table.value];
      k := k + 1;
    }
    assert names[..k] == names;
  }

  /** Every preset table has 256 entries, all valid 8-bit RGBA colours. */
  lemma PresetsWellFormed(name: string)
    requires name in PresetStops()
    ensures GradientTable(PresetStops()[name], 256).Ok?
    ensures |GradientTable(PresetStops()[name], 256).value| == 256
    ensures forall c :: c in GradientTable(PresetStops()[name], 256).value ==> ChannelsIn(c, 0, 255)
  {
    TableWithin(PresetStops()[name], 256, 0, 255);
  }

  /** The "monochrome" preset is the grey ramp: entry i is (i, i, i, 255). */
  lemma MonochromeRamp(i: int)
    requires 0 <= i < 256
    ensures GradientTable(Monochrome, 256).value[i] == Color(i, i, i, 255)
  {
    assert SortByPosition(Monochrome[..1]) == InsertStop([], Monochrome[0]) == [Monochrome[0]];
    assert Monochrome[..1] == [Monochrome[0]];
    assert SortByPosition(Monochrome) == InsertStop([Monochrome[0]], Monochrome[1]) == Monochrome;
    var pos := PointPosition(i, 256);
    assert pos == (i as real) / 255.0;
    assert 0.0 <= pos <= 1.0;
    assert GradientTable(Monochrome, 256).value[i] == ColorAt(Monochrome, pos);
    assert ColorAt(Monochrome, pos) == Interpolate(Monochrome[0], Monochrome[1], pos);
    assert 0.0 * (1.0 - pos) + 255.0 * pos == i as real;
    assert 255.0 * (1.0 - pos) + 255.0 * pos == 255.0;
  }
}
