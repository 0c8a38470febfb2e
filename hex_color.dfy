/** The colour helpers of the Julia viewers (core/color_map.py, and the copies inside
    fractal_20250216-2122.py): validating and parsing "#RRGGBB" strings with Python's
    `int(s, 16)`, and the two-colour map `create_colormap`. Parsing works on index
    ranges of the string, so that `s[i:j]` needs no new string. */
module HexColor {
  import opened Common

  // ---------------------------------------------------------------------------
  // Python's int(s, 16).
  // ---------------------------------------------------------------------------

  /** The characters `int()` skips around a number: the ASCII whitespace of C's
      `isspace`, and the non-ASCII characters Unicode calls whitespace. */
  predicate IsSpace(c: char)
  {
    var n := c as int;
    (9 <= n <= 13) || n == 32
    || n == 0x85 || n == 0xA0 || n == 0x1680 || (0x2000 <= n <= 0x200A)
    || n == 0x2028 || n == 0x2029 || n == 0x202F || n == 0x205F || n == 0x3000
  }

  predicate IsHexDigit(c: char)
  {
    ('0' <= c <= '9') || ('a' <= c <= 'f') || ('A' <= c <= 'F')
  }

  function DigitValue(c: char): (d: int)
    requires IsHexDigit(c)
    ensures 0 <= d < 16
  {
    if '0' <= c <= '9' then c as int - '0' as int
    else if 'a' <= c <= 'f' then c as int - 'a' as int + 10
    else c as int - 'A' as int + 10
  }

  /** The first index in [lo, hi) that is not whitespace, or hi. */
  function SkipSpaces(s: string, lo: nat, hi: nat): (r: nat)
    requires lo <= hi <= |s|
    ensures lo <= r <= hi
    ensures forall k :: lo <= k < r ==> IsSpace(s[k])
    ensures r < hi ==> !IsSpace(s[r])
    decreases hi - lo
  {
    if lo < hi && IsSpace(s[lo]) then SkipSpaces(s, lo + 1, hi) else lo
  }

  /** The end of [lo, hi) once trailing whitespace is dropped. */
  function TrimSpaces(s: string, lo: nat, hi: nat): (r: nat)
    requires lo <= hi <= |s|
    ensures lo <= r <= hi
    ensures forall k :: r <= k < hi ==> IsSpace(s[k])
    ensures r > lo ==> !IsSpace(s[r - 1])
  {
    if lo < hi && IsSpace(s[hi - 1]) then TrimSpaces(s, lo, hi - 1) else hi
  }

  /** `s[lo:hi]` holds the digits of a number: hex digits, with single underscores
      allowed between two digits (not first, not last, not doubled). Read from the
      end: a digit, preceded by nothing, by a shorter run, or by a shorter run and one
      underscore. */
  predicate DigitRun(s: string, lo: nat, hi: nat)
    requires lo <= hi <= |s|
    decreases hi - lo
  {
    lo < hi && IsHexDigit(s[hi - 1])
    && (hi - lo == 1
        || (s[hi - 2] == '_' && DigitRun(s, lo, hi - 2))
        || (s[hi - 2] != '_' && DigitRun(s, lo, hi - 1)))
  }

  /** The value of a digit run, underscores ignored. */
  function RunValue(s: string, lo: nat, hi: nat): (v: int)
    requires lo <= hi <= |s| && DigitRun(s, lo, hi)
    ensures v >= 0
    decreases hi - lo
  {
    var d := DigitValue(s[hi - 1]);
    if hi - lo == 1 then d
    else if s[hi - 2] == '_' then RunValue(s, lo, hi - 2) * 16 + d
    else RunValue(s, lo, hi - 1) * 16 + d
  }

  /** Where the digits start in the trimmed range [a, b): after an optional '+' or
      '-', and after an optional "0x"/"0X" prefix and the one underscore allowed
      after it. */
  function DigitsStart(s: string, a: nat, b: nat): (d: nat)
    requires a <= b <= |s|
    ensures a <= d <= b
  {
    var u := if a < b && (s[a] == '+' || s[a] == '-') then a + 1 else a;
    if u + 1 < b && s[u] == '0' && (s[u + 1] == 'x' || s[u + 1] == 'X') then
      (if u + 2 < b && s[u + 2] == '_' then u + 3 else u + 2)
    else u
  }

  /** `int(s[lo:hi], 16)`; None is the ValueError. */
  function ParseRange(s: string, lo: nat, hi: nat): Option<int>
    requires lo <= hi <= |s|
  {
    var a := SkipSpaces(s, lo, hi);
    var b := TrimSpaces(s, a, hi);
    var d := DigitsStart(s, a, b);
    if DigitRun(s, d, b) then Some(if a < b && s[a] == '-' then -RunValue(s, d, b) else RunValue(s, d, b))
    else None
  }

  /** `int(s, 16)`. */
  function ParseHex(s: string): Option<int>
  {
    ParseRange(s, 0, |s|)
  }

  /** A run of hex digits with no underscore is a digit run. */
  lemma {:induction false} PlainRun(s: string, lo: nat, hi: nat)
    requires lo < hi <= |s| && forall k :: lo <= k < hi ==> IsHexDigit(s[k])
    ensures DigitRun(s, lo, hi)
    decreases hi - lo
  {
    if hi - lo > 1 {
      PlainRun(s, lo, hi - 1);
    }
  }

  /** A range of plain hex digits parses to its value. */
  lemma PlainRange(s: string, lo: nat, hi: nat)
    requires lo < hi <= |s| && forall k :: lo <= k < hi ==> IsHexDigit(s[k])
    ensures DigitRun(s, lo, hi) && ParseRange(s, lo, hi) == Some(RunValue(s, lo, hi))
  {
    assert !IsSpace(s[lo]) && !IsSpace(s[hi - 1]);
    assert SkipSpaces(s, lo, hi) == lo;
    assert TrimSpaces(s, lo, hi) == hi;
    assert !(s[lo] == '+' || s[lo] == '-');
    assert lo + 1 < hi ==> s[lo + 1] != 'x' && s[lo + 1] != 'X';
    assert DigitsStart(s, lo, hi) == lo;
    PlainRun(s, lo, hi);
  }

  /** The byte two hex digits at i spell: 16 * first + second. */
  function PairValue(s: string, i: nat): (v: int)
    requires i + 2 <= |s| && IsHexDigit(s[i]) && IsHexDigit(s[i + 1])
    ensures 0 <= v <= 255
  {
    16 * DigitValue(s[i]) + DigitValue(s[i + 1])
  }

  /** Two hex digits at i parse to the byte they spell. */
  lemma PairAt(s: string, i: nat)
    requires i + 2 <= |s| && IsHexDigit(s[i]) && IsHexDigit(s[i + 1])
    ensures ParseRange(s, i, i + 2) == Some(PairValue(s, i))
  {
    PlainRange(s, i, i + 2);
    assert DigitRun(s, i, i + 1);
    assert RunValue(s, i, i + 1) == DigitValue(s[i]);
  }

  // ---------------------------------------------------------------------------
  // is_valid_hex_color and hex_to_rgb.
  // ---------------------------------------------------------------------------

  datatype Rgb = Rgb(r: int, g: int, b: int)

  function Channel(c: Rgb, k: int): int
    requires 0 <= k < 3
  {
    if k == 0 then c.r else if k == 1 then c.g else c.b
  }

  predicate InByteRange(c: Rgb)
  {
    0 <= c.r <= 255 && 0 <= c.g <= 255 && 0 <= c.b <= 255
  }

  /** `is_valid_hex_color`: starts with '#', the rest is accepted by `int(s, 16)`, and
      the length is 7. */
  predicate IsValidHexColor(color: string)
  {
    |color| >= 1 && color[0] == '#' && ParseRange(color, 1, |color|).Some? && |color| == 7
  }

  /** The index of the first character that is not '#', from i on: where
      `lstrip('#')` starts the string. */
  function HashEnd(s: string, i: nat): (k: nat)
    requires i <= |s|
    ensures i <= k <= |s|
    ensures forall j :: i <= j < k ==> s[j] == '#'
    ensures k < |s| ==> s[k] != '#'
    decreases |s| - i
  {
    if i < |s| && s[i] == '#' then HashEnd(s, i + 1) else i
  }

  /** An index into a string of length n as a slice bound: clipped to n. */
  function Cut(n: nat, i: nat): (r: nat)
    ensures r <= n && r <= i
  {
    if i <= n then i else n
  }

  /** `hex_to_rgb`: strip every leading '#', then parse characters 0-1, 2-3 and 4-5 of
      the rest (each slice clipped to the string) as three numbers; the first one `int`
      refuses raises ValueError. */
  function HexToRgb(hex: string): Outcome<Rgb>
  {
    var k, n := HashEnd(hex, 0), |hex|;
    var r := ParseRange(hex, Cut(n, k), Cut(n, k + 2));
    var g := ParseRange(hex, Cut(n, k + 2), Cut(n, k + 4));
    var b := ParseRange(hex, Cut(n, k + 4), Cut(n, k + 6));
    if r.Some? && g.Some? && b.Some? then Ok(Rgb(r.value, g.value, b.value)) else Raised("ValueError")
  }

  /** Every "#" followed by six hex digits is a valid colour. */
  lemma StandardColorValid(color: string)
    requires |color| == 7 && color[0] == '#'
    requires forall i :: 1 <= i < 7 ==> IsHexDigit(color[i])
    ensures IsValidHexColor(color)
  {
    PlainRange(color, 1, 7);
  }

  /** Every "#" followed by six hex digits parses to the three byte values its digit
      pairs spell. */
  lemma StandardColorRgb(color: string)
    requires |color| == 7 && color[0] == '#'
    requires forall i :: 1 <= i < 7 ==> IsHexDigit(color[i])
    ensures HexToRgb(color) == Ok(Rgb(PairValue(color, 1), PairValue(color, 3), PairValue(color, 5)))
    ensures InByteRange(HexToRgb(color).value)
  {
    assert IsHexDigit(color[1]);
    OneHash(color);
    var r, g, b := PairValue(color, 1), PairValue(color, 3), PairValue(color, 5);
    PairAt(color, 1);
    PairAt(color, 3);
    PairAt(color, 5);
    PairsAfterOneHash(color, r, g, b);
    assert InByteRange(Rgb(r, g, b));
  }

  /** `lstrip('#')` removes exactly one '#' when the next character is not one. */
  lemma OneHash(s: string)
    requires |s| >= 2 && s[0] == '#' && IsHexDigit(s[1])
    ensures HashEnd(s, 0) == 1
  {
    assert HashEnd(s, 1) == 1;
  }

  /** With one leading '#' and six more characters, `hex_to_rgb` reads the pairs at
      1, 3 and 5. */
  lemma PairsAfterOneHash(hex: string, r: int, g: int, b: int)
    requires |hex| == 7 && HashEnd(hex, 0) == 1
    requires ParseRange(hex, 1, 3) == Some(r) && ParseRange(hex, 3, 5) == Some(g)
    requires ParseRange(hex, 5, 7) == Some(b)
    ensures HexToRgb(hex) == Ok(Rgb(r, g, b))
  {
  }

  /** Validation is looser than parsing: a '-' in place of the first digit passes
      it (and `SignedColorRgb` shows what parsing then gives). */
  lemma SignedColorValid(color: string)
    requires |color| == 7 && color[0] == '#' && color[1] == '-'
    requires forall i :: 2 <= i < 7 ==> IsHexDigit(color[i])
    ensures IsValidHexColor(color)
  {
    assert SkipSpaces(color, 1, 7) == 1 && TrimSpaces(color, 1, 7) == 7;
    assert DigitsStart(color, 1, 7) == 2;
    PlainRun(color, 2, 7);
  }

  /** A '-' in place of the first digit makes the first channel the negated digit
      that follows it: a negative channel. */
  lemma SignedColorRgb(color: string)
    requires |color| == 7 && color[0] == '#' && color[1] == '-'
    requires forall i :: 2 <= i < 7 ==> IsHexDigit(color[i])
    ensures HexToRgb(color) == Ok(Rgb(-DigitValue(color[2]), PairValue(color, 3), PairValue(color, 5)))
  {
    assert HashEnd(color, 1) == 1;
    assert HashEnd(color, 0) == 1;
    SignedPair(color);
    PairAt(color, 3);
    PairAt(color, 5);
    PairsAfterOneHash(color, -DigitValue(color[2]), PairValue(color, 3), PairValue(color, 5));
  }

  lemma SignedPair(color: string)
    requires |color| >= 3 && color[1] == '-' && IsHexDigit(color[2])
    ensures ParseRange(color, 1, 3) == Some(-DigitValue(color[2]))
  {
    assert SkipSpaces(color, 1, 3) == 1 && TrimSpaces(color, 1, 3) == 3;
    assert DigitsStart(color, 1, 3) == 2;
    assert DigitRun(color, 2, 3);
  }

  /** A "0x" or "0X" prefix also passes validation, but makes `hex_to_rgb` raise: its
      first pair is the prefix alone, with no digits after it. */
  lemma PrefixedColor(color: string)
    requires |color| == 7 && color[0] == '#' && color[1] == '0' && (color[2] == 'x' || color[2] == 'X')
    requires forall i :: 3 <= i < 7 ==> IsHexDigit(color[i])
    ensures IsValidHexColor(color)
    ensures HexToRgb(color).Raised?
  {
    assert SkipSpaces(color, 1, 7) == 1 && TrimSpaces(color, 1, 7) == 7;
    assert DigitsStart(color, 1, 7) == 3;
    PlainRun(color, 3, 7);
    assert HashEnd(color, 1) == 1;
    assert SkipSpaces(color, 1, 3) == 1 && TrimSpaces(color, 1, 3) == 3;
    assert DigitsStart(color, 1, 3) == 3;
  }

  /** A valid colour has exactly seven characters, the first being '#'. */
  lemma ValidShape(color: string)
    requires IsValidHexColor(color)
    ensures |color| == 7 && color[0] == '#'
  {
  }

  // ---------------------------------------------------------------------------
  // create_colormap.
  // ---------------------------------------------------------------------------

  /** The fallback blue-to-white pair. */
  const DefaultStart := Rgb(0, 0, 255)
  const DefaultEnd := Rgb(255, 255, 255)

  /** The two end colours `create_colormap` uses: both parsed, or both defaults when
      either fails to parse. */
  function Endpoints(startHex: string, endHex: string): (Rgb, Rgb)
  {
    var s, e := HexToRgb(startHex), HexToRgb(endHex);
    if s.Ok? && e.Ok? then (s.value, e.value) else (DefaultStart, DefaultEnd)
  }

  /** The store of a number into a `uint8` array: in range it truncates; out of range it
      is taken to wrap modulo 256. */
  function Byte(x: real): (b: int)
    ensures 0 <= b < 256
  {
    Trunc(x) % 256
  }

  /** `np.where(values > 0, values, 0)`. */
  function Clip(v: real): (n: real)
    ensures n >= 0.0
  {
    if v > 0.0 then v else 0.0
  }

  /** Channel k of the colour a sample of value v gets. */
  function MapChannel(v: real, start: Rgb, end: Rgb, k: int): int
    requires 0 <= k < 3
  {
    Byte(Blend(Channel(start, k) as real, Channel(end, k) as real, Clip(v)))
  }

  /** `start + t * (end - start)`. */
  function Blend(start: real, end: real, t: real): real
  {
    start + t * (end - start)
  }

  /** When either colour fails to parse, both fall back to the defaults. */
  lemma EndpointsFallback(startHex: string, endHex: string)
    ensures HexToRgb(startHex).Raised? || HexToRgb(endHex).Raised? ==>
      Endpoints(startHex, endHex) == (DefaultStart, DefaultEnd)
    ensures HexToRgb(startHex).Ok? && HexToRgb(endHex).Ok? ==>
      Endpoints(startHex, endHex) == (HexToRgb(startHex).value, HexToRgb(endHex).value)
  {
  }

  /** With byte-range end colours, a value of 0 or less maps to the start colour. */
  lemma NonPositiveIsStart(v: real, start: Rgb, end: Rgb, k: int)
    requires InByteRange(start) && InByteRange(end) && 0 <= k < 3 && v <= 0.0
    ensures MapChannel(v, start, end, k) == Channel(start, k)
  {
    assert Trunc(Channel(start, k) as real) == Channel(start, k);
  }

  /** The blend of s and e at t in [0, 1] lies between them. */
  lemma BlendBetween(s: real, e: real, t: real)
    requires 0.0 <= t <= 1.0
    ensures MinReal(s, e) <= Blend(s, e, t) <= MaxReal(s, e)
  {
    var d := e - s;
    assert (1.0 - t) * d == d - t * d;
    if s <= e {
      MulNonNegative(1.0 - t, d);
      MulNonNegative(t, d);
    } else {
      MulNonNegative(1.0 - t, -d);
      MulNonNegative(t, -d);
    }
  }

  lemma MulNonNegative(a: real, b: real)
    requires a >= 0.0 && b >= 0.0
    ensures a * b >= 0.0
  {
  }

  /** Truncating a real between two non-negative integers stays between them. */
  lemma TruncBetween(x: real, lo: int, hi: int)
    requires 0 <= lo && lo as real <= x <= hi as real
    ensures lo <= Trunc(x) <= hi
  {
    var r := Trunc(x);
    assert r as real <= x < r as real + 1.0;
    assert lo as real < r as real + 1.0;
  }

  /** With byte-range end colours, a value in [0, 1] maps every channel between the
      start and end channels. */
  lemma UnitValueBetween(v: real, start: Rgb, end: Rgb, k: int)
    requires InByteRange(start) && InByteRange(end) && 0 <= k < 3 && 0.0 <= v <= 1.0
    ensures var c := MapChannel(v, start, end, k);
      MinReal(Channel(start, k) as real, Channel(end, k) as real) <= c as real
      && c as real <= MaxReal(Channel(start, k) as real, Channel(end, k) as real)
  {
    var s, e := Channel(start, k), Channel(end, k);
    var x := Blend(s as real, e as real, v);
    BlendBetween(s as real, e as real, v);
    var lo, hi := if s <= e then s else e, if s <= e then e else s;
    TruncBetween(x, lo, hi);
    assert Byte(x) == Trunc(x);
    assert Clip(v) == v;
    assert lo as real == MinReal(s as real, e as real) && hi as real == MaxReal(s as real, e as real);
  }

  /** `create_colormap(values, start_color_hex, end_color_hex)`: an array of the same
      shape with three channels, filled one channel at a time. */
  method CreateColormap(values: array2<real>, startHex: string, endHex: string) returns (colors: array3<int>)
    ensures fresh(colors)
    ensures colors.Length0 == values.Length0 && colors.Length1 == values.Length1 && colors.Length2 == 3
    ensures forall i, j, k :: 0 <= i < colors.Length0 && 0 <= j < colors.Length1 && 0 <= k < 3 ==>
      colors[i, j, k] == MapChannel(values[i, j], Endpoints(startHex, endHex).0, Endpoints(startHex, endHex).1, k)
  {
    var start, end := DefaultStart, DefaultEnd;
    var s, e := HexToRgb(startHex), HexToRgb(endHex);
    if s.Ok? && e.Ok? {
      start, end := s.value, e.value;
    }
    colors := FillColormap(values, start, end);
  }

  /** The loop of `create_colormap` once the end colours are known. */
  method FillColormap(values: array2<real>, start: Rgb, end: Rgb) returns (colors: array3<int>)
    ensures fresh(colors)
    ensures colors.Length0 == values.Length0 && colors.Length1 == values.Length1 && colors.Length2 == 3
    ensures forall i, j, k :: 0 <= i < colors.Length0 && 0 <= j < colors.Length1 && 0 <= k < 3 ==>
      colors[i, j, k] == MapChannel(values[i, j], start, end, k)
  {
    colors := new int[values.Length0, values.Length1, 3];
    var k := 0;
    while k < 3
      invariant 0 <= k <= 3
      invariant forall i, j, c :: 0 <= i < colors.Length0 && 0 <= j < colors.Length1 && 0 <= c < k ==>
        colors[i, j, c] == MapChannel(values[i, j], start, end, c)
    {
      var i := 0;
      while i < values.Length0
        invariant 0 <= i <= values.Length0
        invariant forall a, j, c ::
          0 <= a < colors.Length0 && 0 <= j < colors.Length1 && 0 <= c < 3 && (c < k || (c == k && a < i)) ==>
          colors[a, j, c] == MapChannel(values[a, j], start, end, c)
      {
        var j := 0;
        while j < values.Length1
          invariant 0 <= j <= values.Length1
          invariant forall a, b, c ::
            0 <= a < colors.Length0 && 0 <= b < colors.Length1 && 0 <= c < 3 &&
            (c < k || (c == k && (a < i || (a == i && b < j)))) ==>
            colors[a, b, c] == MapChannel(values[a, b], start, end, c)
        {
          colors[i, j, k] := MapChannel(values[i, j], start, end, k);
          j := j + 1;
        }
        i := i + 1;
      }
      k := k + 1;
    }
  }
}
