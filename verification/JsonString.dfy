/** ECMAScript's JSON string escaping, and the reading of a string by section 7 of RFC 8259. */
module JsonString {
  import opened Utf16
  import opened Options
  import opened Hex

  const QUOTE: Unit := 0x22
  const BACKSLASH: Unit := 0x5C

  /** A character of a Python string; an unpaired surrogate is one of its own. */
  type Point = p: int | 0 <= p <= 0x10FFFF

  type Points = seq<Point>

  // ---------------------------------------------------------------------------------------------
  // Writing
  // ---------------------------------------------------------------------------------------------

  /** The UTF-16 code units of a character. */
  function Encode(p: Point): Text {
    if p < 0x1_0000 then [p] else [0xD800 + (p - 0x1_0000) / 0x400, 0xDC00 + (p - 0x1_0000) % 0x400]
  }

  function Units(s: Points): Text {
    if s == [] then [] else Encode(s[0]) + Units(s[1..])
  }

  predicate NeedsEscape(p: Point) {
    p < 0x20 || p == QUOTE || p == BACKSLASH || 0xD800 <= p <= 0xDFFF
  }

  function EscapeChar(p: Point): Text
    requires NeedsEscape(p)
  {
    if p == 0x08 then [BACKSLASH, 98]
    else if p == 0x09 then [BACKSLASH, 116]
    else if p == 0x0A then [BACKSLASH, 110]
    else if p == 0x0C then [BACKSLASH, 102]
    else if p == 0x0D then [BACKSLASH, 114]
    else if p == QUOTE || p == BACKSLASH then [BACKSLASH, p]
    else [BACKSLASH, 117] + Hex4(p)
  }

  function Char(p: Point): Text {
    if NeedsEscape(p) then EscapeChar(p) else Encode(p)
  }

  function Chars(s: Points): Text {
    if s == [] then [] else Char(s[0]) + Chars(s[1..])
  }

  function StringText(s: Points): Text {
    [QUOTE] + Chars(s) + [QUOTE]
  }

  /** `_js_json_string`, character by character. */
  method JsonStringOf(value: Points) returns (text: Text)
    ensures text == StringText(value)
  {
    hide Chars, Char, EscapeChar;
    var out: Text := [];
    assert value[0..] == value;
    for i := 0 to |value|
      invariant out + Chars(value[i..]) == Chars(value)
    {
      var p := value[i];
      CharsStep(value, i, out);
      if NeedsEscape(p) {
        out := out + EscapeChar(p);
      } else {
        out := out + Encode(p);
      }
    }
    assert value[|value|..] == [];
    CharsEnd();
    assert out + [] == out;
    text := [QUOTE] + out + [QUOTE];
  }

  lemma CharsEnd()
    ensures Chars([]) == []
  {
  }

  lemma CharsStep(value: Points, i: nat, out: Text)
    requires i < |value|
    ensures out + (if NeedsEscape(value[i]) then EscapeChar(value[i]) else Encode(value[i])) + Chars(value[i + 1..])
      == out + Chars(value[i..])
  {
    hide EscapeChar, Encode, NeedsEscape;
    assert value[i..][1..] == value[i + 1..];
    assert out + (Char(value[i]) + Chars(value[i + 1..])) == out + Char(value[i]) + Chars(value[i + 1..]);
  }

  // ---------------------------------------------------------------------------------------------
  // Reading
  // ---------------------------------------------------------------------------------------------

  datatype Read<+T> = Read(value: T, rest: Text)

  /** One escape after its backslash. */
  function ReadEscape(s: Text): (r: Option<Read<Unit>>)
    ensures r.Some? ==> |r.value.rest| < |s|
  {
    if s == [] then None
    else if s[0] == QUOTE || s[0] == BACKSLASH || s[0] == 0x2F then Some(Read(s[0], s[1..]))
    else if s[0] == 98 then Some(Read(0x08, s[1..]))
    else if s[0] == 102 then Some(Read(0x0C, s[1..]))
    else if s[0] == 110 then Some(Read(0x0A, s[1..]))
    else if s[0] == 114 then Some(Read(0x0D, s[1..]))
    else if s[0] == 116 then Some(Read(0x09, s[1..]))
    else if s[0] == 117 && ReadHex4(s[1..]).Some? then Some(Read(ReadHex4(s[1..]).value, s[5..]))
    else None
  }

  /** A string after its opening quotation mark. */
  function ReadChars(s: Text): (r: Option<Read<Text>>)
    ensures r.Some? ==> |r.value.rest| < |s|
    decreases |s|
  {
    if s == [] || s[0] < 0x20 then None
    else if s[0] == QUOTE then Some(Read([], s[1..]))
    else if s[0] == BACKSLASH then
      var e := ReadEscape(s[1..]);
      if e.None? then None else Prefixed(e.value.value, ReadChars(e.value.rest))
    else Prefixed(s[0], ReadChars(s[1..]))
  }

  function Prefixed(u: Unit, r: Option<Read<Text>>): Option<Read<Text>> {
    if r.None? then None else Some(Read([u] + r.value.value, r.value.rest))
  }

  lemma EscapeReadsBack(p: Point, rest: Text)
    requires NeedsEscape(p)
    ensures |EscapeChar(p)| > 1 && EscapeChar(p)[0] == BACKSLASH
    ensures p < 0x1_0000 && ReadEscape(EscapeChar(p)[1..] + rest) == Some(Read(p, rest))
  {
    hide Hex4, ReadHex4;
    var e := EscapeChar(p);
    var s := e[1..] + rest;
    assert s[|e| - 1..] == rest;
    if |e| > 2 {
      assert s[1..] == Hex4(p) + rest;
      Hex4ReadsBack(p, rest);
    }
  }

  lemma ReadPlain(u: Unit, rest: Text)
    requires u >= 0x20 && u != QUOTE && u != BACKSLASH
    ensures ReadChars([u] + rest) == Prefixed(u, ReadChars(rest))
  {
    assert ([u] + rest)[1..] == rest;
  }

  lemma CharReadsBack(p: Point, rest: Text, tail: Text, after: Text)
    requires ReadChars(rest) == Some(Read(tail, after))
    ensures ReadChars(Char(p) + rest) == Some(Read(Encode(p) + tail, after))
  {
    hide ReadEscape, EscapeChar;
    if NeedsEscape(p) {
      EscapeReadsBack(p, rest);
      var s := EscapeChar(p) + rest;
      assert s[0] == BACKSLASH && s[1..] == EscapeChar(p)[1..] + rest;
    } else if p < 0x1_0000 {
      ReadPlain(p, rest);
    } else {
      var e := Encode(p);
      ReadPlain(e[1], rest);
      ReadPlain(e[0], [e[1]] + rest);
      assert e + rest == [e[0]] + ([e[1]] + rest);
      assert [e[0]] + ([e[1]] + tail) == e + tail;
    }
  }

  /** Every string reads back as its own UTF-16 units. */
  lemma {:induction false} CharsReadBack(s: Points, rest: Text)
    ensures ReadChars(Chars(s) + [QUOTE] + rest) == Some(Read(Units(s), rest))
  {
    hide ReadChars, Char, Encode;
    if s == [] {
      assert Chars(s) + [QUOTE] + rest == [QUOTE] + rest;
      ReadQuote(rest);
    } else {
      CharsReadBack(s[1..], rest);
      var after := Chars(s[1..]) + [QUOTE] + rest;
      assert Chars(s) + [QUOTE] + rest == Char(s[0]) + after;
      CharReadsBack(s[0], after, Units(s[1..]), rest);
    }
  }

  lemma ReadQuote(rest: Text)
    ensures ReadChars([QUOTE] + rest) == Some(Read([], rest))
  {
    assert ([QUOTE] + rest)[1..] == rest;
  }

  /** How a character is written: as itself unless it is a control, a quotation mark, a backslash or an unpaired
      surrogate; in two units where a short escape exists; else in four lower-case digits. */
  lemma CharForm(p: Point)
    ensures Char(p) == Encode(p) <==> p >= 0x20 && p != QUOTE && p != BACKSLASH && !(0xD800 <= p <= 0xDFFF)
    ensures |Char(p)| == 2 <==> p in {0x08, 0x09, 0x0A, 0x0C, 0x0D, QUOTE, BACKSLASH} || p >= 0x1_0000
    ensures |Char(p)| == 6 <==> (p < 0x20 && p !in {0x08, 0x09, 0x0A, 0x0C, 0x0D}) || 0xD800 <= p <= 0xDFFF
    ensures |Char(p)| == 6 ==> forall i :: 2 <= i < 6 ==> 48 <= Char(p)[i] <= 57 || 97 <= Char(p)[i] <= 102
  {
  }
}
