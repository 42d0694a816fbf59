/** Node's `util.inspect` of a string, and the reading of its pieces as JavaScript string literals. */
module Inspect {
  import opened Utf16
  import opened Options
  import opened Decimal
  import opened Hex

  const SINGLE: Unit := 39
  const DOUBLE: Unit := 34
  const BACKTICK: Unit := 96
  const BACKSLASH: Unit := 92
  const DOLLAR: Unit := 36
  const BRACE: Unit := 123
  const NEWLINE: Unit := 10
  const MAX_STRING_LENGTH := 10000
  const SPLIT_THRESHOLD := 76

  predicate High(u: Unit) { 0xD800 <= u <= 0xDBFF }
  predicate Low(u: Unit) { 0xDC00 <= u <= 0xDFFF }
  predicate Surrogate(u: Unit) { High(u) || Low(u) }
  predicate Control(u: Unit) { u < 32 || 127 <= u <= 159 }

  predicate PairAt(s: Text, i: int) {
    0 <= i < |s| - 1 && High(s[i]) && Low(s[i + 1])
  }

  // ---------------------------------------------------------------------------------------------
  // Writing
  // ---------------------------------------------------------------------------------------------

  /** How one unit that is not half of a pair is written. */
  function Escape(u: Unit, quote: Unit): Text {
    if u == SINGLE && quote == SINGLE then [BACKSLASH, SINGLE]
    else if u == BACKSLASH then [BACKSLASH, BACKSLASH]
    else if u == 8 then [BACKSLASH, 98]
    else if u == 9 then [BACKSLASH, 116]
    else if u == 10 then [BACKSLASH, 110]
    else if u == 12 then [BACKSLASH, 102]
    else if u == 13 then [BACKSLASH, 114]
    else if Control(u) then [BACKSLASH, 120, UpperHex(u / 16), UpperHex(u % 16)]
    else if Surrogate(u) then [BACKSLASH, 117] + Hex4(u)
    else [u]
  }

  function Body(piece: Text, quote: Unit): Text {
    if piece == [] then []
    else if PairAt(piece, 0) then piece[..2] + Body(piece[2..], quote)
    else Escape(piece[0], quote) + Body(piece[1..], quote)
  }

  predicate HasSubstitution(piece: Text) {
    exists i :: 0 <= i < |piece| - 1 && piece[i] == DOLLAR && piece[i + 1] == BRACE
  }

  /** The first quote of `'`, `"` and the backtick that needs no escape; `'` when none does. */
  function QuoteFor(piece: Text): Unit {
    if SINGLE !in piece then SINGLE
    else if DOUBLE !in piece then DOUBLE
    else if BACKTICK !in piece && !HasSubstitution(piece) then BACKTICK
    else SINGLE
  }

  function Quoted(piece: Text): Text {
    [QuoteFor(piece)] + Body(piece, QuoteFor(piece)) + [QuoteFor(piece)]
  }

  // ---------------------------------------------------------------------------------------------
  // Reading: JavaScript string literals and templates without substitutions
  // ---------------------------------------------------------------------------------------------

  datatype Literal = Literal(value: Text, rest: Text)

  /** One escape sequence after its backslash: the unit it denotes and what follows. */
  function ReadEscape(s: Text): Option<(Unit, Text)> {
    if s == [] then None
    else if s[0] == 98 then Some((8, s[1..]))
    else if s[0] == 116 then Some((9, s[1..]))
    else if s[0] == 110 then Some((10, s[1..]))
    else if s[0] == 118 then Some((11, s[1..]))
    else if s[0] == 102 then Some((12, s[1..]))
    else if s[0] == 114 then Some((13, s[1..]))
    else if s[0] == 120 then
      if |s| > 2 && HexValue(s[1]).Some? && HexValue(s[2]).Some? then
        Some((HexValue(s[1]).value * 16 + HexValue(s[2]).value, s[3..]))
      else None
    else if s[0] == 117 then
      if ReadHex4(s[1..]).Some? then Some((ReadHex4(s[1..]).value, s[5..])) else None
    else if 48 <= s[0] <= 57 || s[0] == 10 || s[0] == 13 || s[0] == 0x2028 || s[0] == 0x2029 then None
    else Some((s[0], s[1..]))
  }

  /** The rest of a literal after its opening quote: no raw line feed or carriage return, and in a template
      no substitution. */
  function ReadBody(s: Text, quote: Unit): (l: Option<Literal>)
    ensures l.Some? ==> |l.value.rest| < |s|
    decreases |s|
  {
    if s == [] || s[0] == 10 || s[0] == 13 then None
    else if s[0] == quote then Some(Literal([], s[1..]))
    else if s[0] == BACKSLASH then
      var e := ReadEscape(s[1..]);
      if e.None? || |e.value.1| >= |s| then None else Prefixed(e.value.0, ReadBody(e.value.1, quote))
    else if quote == BACKTICK && s[0] == DOLLAR && |s| > 1 && s[1] == BRACE then None
    else Prefixed(s[0], ReadBody(s[1..], quote))
  }

  function Prefixed(u: Unit, l: Option<Literal>): Option<Literal> {
    if l.None? then None else Some(Literal([u] + l.value.value, l.value.rest))
  }

  function ReadLiteral(s: Text): Option<Literal> {
    if s != [] && s[0] in {SINGLE, DOUBLE, BACKTICK} then ReadBody(s[1..], s[0]) else None
  }

  // ---------------------------------------------------------------------------------------------
  // Reading undoes writing
  // ---------------------------------------------------------------------------------------------

  /** The quote can stand around this piece. */
  predicate Fits(piece: Text, quote: Unit) {
    || quote == SINGLE
    || (quote == DOUBLE && DOUBLE !in piece)
    || (quote == BACKTICK && BACKTICK !in piece && !HasSubstitution(piece))
  }

  lemma QuoteFits(piece: Text)
    ensures Fits(piece, QuoteFor(piece))
  {
  }

  lemma FitsRest(piece: Text, quote: Unit, k: nat)
    requires Fits(piece, quote) && k <= |piece|
    ensures Fits(piece[k..], quote)
  {
    var rest := piece[k..];
    if HasSubstitution(rest) {
      var i :| 0 <= i < |rest| - 1 && rest[i] == DOLLAR && rest[i + 1] == BRACE;
      assert piece[k + i] == DOLLAR && piece[k + i + 1] == BRACE;
    }
  }

  /** An escape reads back as its unit. */
  lemma EscapeReadsBack(u: Unit, quote: Unit, rest: Text)
    requires |Escape(u, quote)| > 1
    ensures Escape(u, quote)[0] == BACKSLASH
    ensures ReadEscape(Escape(u, quote)[1..] + rest) == Some((u, rest))
  {
    hide UpperHex, HexValue, Hex4, ReadHex4;
    var e := Escape(u, quote);
    var s := e[1..] + rest;
    assert s[|e| - 1..] == rest;
    if |e| == 4 {
      HexDigits(u / 16);
      HexDigits(u % 16);
    } else if |e| == 6 {
      assert s[1..] == Hex4(u) + rest;
      Hex4ReadsBack(u, rest);
    }
  }

  // A raw unit of a body: one that is written as itself.
  predicate Plain(u: Unit, quote: Unit) {
    u != quote && u != BACKSLASH && u != 10 && u != 13
  }

  lemma ReadPlain(u: Unit, rest: Text, quote: Unit)
    requires Plain(u, quote)
    requires quote == BACKTICK && u == DOLLAR ==> rest == [] || rest[0] != BRACE
    ensures ReadBody([u] + rest, quote) == Prefixed(u, ReadBody(rest, quote))
  {
    assert ([u] + rest)[1..] == rest;
  }

  lemma ReadEscaped(u: Unit, quote: Unit, rest: Text)
    requires |Escape(u, quote)| > 1 && quote != BACKSLASH
    ensures ReadBody(Escape(u, quote) + rest, quote) == Prefixed(u, ReadBody(rest, quote))
  {
    hide ReadEscape, Escape;
    EscapeReadsBack(u, quote, rest);
    var s := Escape(u, quote) + rest;
    assert s[0] == BACKSLASH;
    assert s[1..] == Escape(u, quote)[1..] + rest;
  }

  /** What follows a `$` in a body is not a raw brace, where that would open a substitution. */
  lemma BodyStart(piece: Text, quote: Unit, rest: Text)
    requires piece == [] || piece[0] != BRACE
    requires quote != BRACE
    ensures var t := Body(piece, quote) + [quote] + rest; t[0] != BRACE
  {
  }

  /** Reading a written piece gives the piece, under whichever quote fits it. */
  lemma {:induction false} BodyReadsBack(piece: Text, quote: Unit, rest: Text)
    requires Fits(piece, quote)
    ensures ReadBody(Body(piece, quote) + [quote] + rest, quote) == Some(Literal(piece, rest))
    decreases |piece|
  {
    hide ReadBody, Escape, Body, HasSubstitution;
    if piece == [] {
      ReadEnd(quote, rest);
      BodyEnds(quote);
      assert Body(piece, quote) + [quote] + rest == [quote] + rest;
    } else if PairAt(piece, 0) {
      FitsRest(piece, quote, 2);
      BodyReadsBack(piece[2..], quote, rest);
      PairReadsBack(piece, quote, rest);
    } else {
      var after := Body(piece[1..], quote) + [quote] + rest;
      FitsRest(piece, quote, 1);
      BodyReadsBack(piece[1..], quote, rest);
      BodyFirst(piece, quote, rest);
      UnitReadsBack(piece, quote, rest, after);
      assert piece == [piece[0]] + piece[1..];
    }
  }

  // The text of a piece after its first unit, or its first pair.
  lemma BodyFirst(piece: Text, quote: Unit, rest: Text)
    requires piece != []
    ensures !PairAt(piece, 0) ==>
      Body(piece, quote) + [quote] + rest == Escape(piece[0], quote) + (Body(piece[1..], quote) + [quote] + rest)
    ensures PairAt(piece, 0) ==>
      Body(piece, quote) + [quote] + rest == [piece[0]] + ([piece[1]] + (Body(piece[2..], quote) + [quote] + rest))
  {
    hide Escape;
    if PairAt(piece, 0) {
      Regroup(piece[..2], Body(piece[2..], quote), [quote], rest);
      PairSplits(piece[0], piece[1], Body(piece[2..], quote) + [quote] + rest);
      assert piece[..2] == [piece[0], piece[1]];
    } else {
      Regroup(Escape(piece[0], quote), Body(piece[1..], quote), [quote], rest);
    }
  }

  lemma Regroup(a: Text, b: Text, c: Text, d: Text)
    ensures a + b + c + d == a + (b + c + d)
  {
  }

  lemma PairSplits(u: Unit, v: Unit, s: Text)
    ensures [u, v] + s == [u] + ([v] + s)
  {
  }

  lemma PairReadsBack(piece: Text, quote: Unit, rest: Text)
    requires PairAt(piece, 0) && quote in {SINGLE, DOUBLE, BACKTICK}
    requires ReadBody(Body(piece[2..], quote) + [quote] + rest, quote) == Some(Literal(piece[2..], rest))
    ensures ReadBody(Body(piece, quote) + [quote] + rest, quote) == Some(Literal(piece, rest))
  {
    hide ReadBody, Body;
    var after := Body(piece[2..], quote) + [quote] + rest;
    BodyFirst(piece, quote, rest);
    PairIsPlain(piece[0], quote);
    PairIsPlain(piece[1], quote);
    ReadPlain(piece[1], after, quote);
    ReadPlain(piece[0], [piece[1]] + after, quote);
    assert piece == [piece[0]] + ([piece[1]] + piece[2..]);
  }

  lemma UnitReadsBack(piece: Text, quote: Unit, rest: Text, after: Text)
    requires piece != [] && Fits(piece, quote) && after == Body(piece[1..], quote) + [quote] + rest
    ensures ReadBody(Escape(piece[0], quote) + after, quote) == Prefixed(piece[0], ReadBody(after, quote))
  {
    hide ReadBody, ReadEscape;
    var u := piece[0];
    if |Escape(u, quote)| > 1 {
      ReadEscaped(u, quote, after);
    } else {
      if quote == BACKTICK && u == DOLLAR {
        assert |piece| > 1 && piece[1] == BRACE ==> HasSubstitution(piece);
        BodyStart(piece[1..], quote, rest);
      }
      ReadPlain(u, after, quote);
    }
  }

  lemma PairIsPlain(u: Unit, quote: Unit)
    requires Surrogate(u) && quote in {SINGLE, DOUBLE, BACKTICK}
    ensures Plain(u, quote) && u != DOLLAR && u != BRACE
  {
  }

  lemma ReadEnd(quote: Unit, rest: Text)
    requires quote != 10 && quote != 13
    ensures ReadBody([quote] + rest, quote) == Some(Literal([], rest))
  {
    assert ([quote] + rest)[1..] == rest;
  }

  /** A quoted piece is a literal that denotes the piece. */
  lemma QuotedReadsBack(piece: Text, rest: Text)
    ensures ReadLiteral(Quoted(piece) + rest) == Some(Literal(piece, rest))
  {
    hide Body, ReadBody, Fits;
    var quote := QuoteFor(piece);
    QuoteFits(piece);
    BodyReadsBack(piece, quote, rest);
    assert (Quoted(piece) + rest)[1..] == Body(piece, quote) + [quote] + rest;
  }

  // ---------------------------------------------------------------------------------------------
  // What a body never holds
  // ---------------------------------------------------------------------------------------------

  /** Every surrogate is half of a pair, and no unit is a control. */
  predicate Clean(s: Text) {
    if s == [] then true
    else if PairAt(s, 0) then Clean(s[2..])
    else !Surrogate(s[0]) && !Control(s[0]) && Clean(s[1..])
  }

  lemma {:induction false} CleanPrefix(a: Text, b: Text)
    requires Clean(b) && forall i :: 0 <= i < |a| ==> !Surrogate(a[i]) && !Control(a[i])
    ensures Clean(a + b)
  {
    if a == [] {
      assert a + b == b;
    } else {
      CleanPrefix(a[1..], b);
      assert (a + b)[1..] == a[1..] + b;
    }
  }

  lemma EscapeClean(u: Unit, quote: Unit, i: nat)
    requires i < |Escape(u, quote)| && (|Escape(u, quote)| > 1 || !Surrogate(u))
    ensures !Surrogate(Escape(u, quote)[i]) && !Control(Escape(u, quote)[i])
  {
  }

  /** Inside its quotes, a piece shows no raw control unit and no lone surrogate. */
  lemma {:induction false} BodyClean(piece: Text, quote: Unit)
    ensures Clean(Body(piece, quote))
    decreases |piece|
  {
    hide Escape;
    if piece != [] {
      if PairAt(piece, 0) {
        BodyClean(piece[2..], quote);
        var b := Body(piece, quote);
        assert b[2..] == Body(piece[2..], quote);
      } else {
        BodyClean(piece[1..], quote);
        var e := Escape(piece[0], quote);
        LoneEscaped(piece[0], quote);
        forall i | 0 <= i < |e| ensures !Surrogate(e[i]) && !Control(e[i]) { EscapeClean(piece[0], quote, i); }
        CleanPrefix(e, Body(piece[1..], quote));
      }
    }
  }

  lemma LoneEscaped(u: Unit, quote: Unit)
    ensures Surrogate(u) ==> |Escape(u, quote)| > 1
  {
  }

  // ---------------------------------------------------------------------------------------------
  // Whole strings
  // ---------------------------------------------------------------------------------------------

  const JOINT: Text := [32, 43, 10, 32, 32]

  /** The lines of a text, each with its line feed. */
  function Lines(s: Text): (pieces: seq<Text>)
    ensures s != [] ==> pieces != []
  {
    if s == [] then []
    else
      var front, last := s[..|s| - 1], s[|s| - 1];
      var before := Lines(front);
      if front == [] || front[|front| - 1] == NEWLINE then before + [[last]]
      else before[..|before| - 1] + [before[|before| - 1] + [last]]
  }

  function Flatten(pieces: seq<Text>): Text {
    if pieces == [] then [] else pieces[0] + Flatten(pieces[1..])
  }

  function Joined(pieces: seq<Text>): Text {
    if pieces == [] then []
    else if |pieces| == 1 then Quoted(pieces[0])
    else Quoted(pieces[0]) + JOINT + Joined(pieces[1..])
  }

  /** How many units were left out, in words. */
  function Trailer(length: nat): Text {
    if length <= MAX_STRING_LENGTH then []
    else
      var rest := length - MAX_STRING_LENGTH;
      DOTS + Digits(rest) + (if rest > 1 then MORE + [115] else MORE)
  }

  // "... " and " more character".
  const DOTS: Text := [46, 46, 46, 32]
  const MORE: Text := [32, 109, 111, 114, 101, 32, 99, 104, 97, 114, 97, 99, 116, 101, 114]

  function Kept(value: Text): Text {
    if |value| > MAX_STRING_LENGTH then value[..MAX_STRING_LENGTH] else value
  }

  function Inspected(value: Text): Text {
    var kept := Kept(value);
    (if |kept| <= SPLIT_THRESHOLD then Quoted(kept) else Joined(Lines(kept))) + Trailer(|value|)
  }

  /** Literals joined by `+`: the text they denote together, and what follows. */
  function ReadSum(s: Text): Option<Literal>
    decreases |s|
  {
    var l := ReadLiteral(s);
    if l.None? then None
    else if JOINT <= l.value.rest then
      var more := ReadSum(l.value.rest[|JOINT|..]);
      if more.None? then None else Some(Literal(l.value.value + more.value.value, more.value.rest))
    else l
  }

  lemma {:induction false} JoinedReadsBack(pieces: seq<Text>, rest: Text)
    requires pieces != [] && !(JOINT <= rest)
    ensures ReadSum(Joined(pieces) + rest) == Some(Literal(Flatten(pieces), rest))
  {
    hide Quoted, ReadLiteral;
    if |pieces| == 1 {
      QuotedReadsBack(pieces[0], rest);
      assert Flatten(pieces[1..]) == [];
      assert pieces[0] + [] == pieces[0];
    } else {
      var after := JOINT + (Joined(pieces[1..]) + rest);
      QuotedReadsBack(pieces[0], after);
      assert Joined(pieces) + rest == Quoted(pieces[0]) + after;
      assert after[|JOINT|..] == Joined(pieces[1..]) + rest;
      assert after[..|JOINT|] == JOINT;
      JoinedReadsBack(pieces[1..], rest);
    }
  }

  lemma {:induction false} FlattenAppends(pieces: seq<Text>, last: Text)
    ensures Flatten(pieces + [last]) == Flatten(pieces) + last
  {
    if pieces == [] {
      assert (pieces + [last])[1..] == [];
      assert last + [] == [] + last;
    } else {
      assert (pieces + [last])[1..] == pieces[1..] + [last];
      FlattenAppends(pieces[1..], last);
      assert pieces[0] + (Flatten(pieces[1..]) + last) == pieces[0] + Flatten(pieces[1..]) + last;
    }
  }

  lemma {:induction false} LinesFlatten(s: Text)
    ensures Flatten(Lines(s)) == s
  {
    if s != [] {
      var front, last := s[..|s| - 1], s[|s| - 1];
      LinesFlatten(front);
      assert s == front + [last];
      var before := Lines(front);
      if front == [] || front[|front| - 1] == NEWLINE {
        FlattenAppends(before, [last]);
      } else {
        var init, line := before[..|before| - 1], before[|before| - 1];
        assert before == init + [line];
        FlattenAppends(init, line);
        FlattenAppends(init, line + [last]);
        assert Flatten(init) + (line + [last]) == Flatten(init) + line + [last];
      }
    }
  }

  /** A line holds a line feed only at its end, and every line but the last ends with one. */
  lemma {:induction false} LinesBreak(s: Text, k: nat)
    requires k < |Lines(s)|
    ensures Lines(s)[k] != []
    ensures forall i :: 0 <= i < |Lines(s)[k]| - 1 ==> Lines(s)[k][i] != NEWLINE
    ensures k < |Lines(s)| - 1 ==> Lines(s)[k][|Lines(s)[k]| - 1] == NEWLINE
    ensures k == |Lines(s)| - 1 ==> Lines(s)[k][|Lines(s)[k]| - 1] == s[|s| - 1]
  {
    hide Lines;
    LinesNone();
    var front, c := s[..|s| - 1], s[|s| - 1];
    assert s == front + [c];
    LinesStep(front, c);
    var before := Lines(front);
    if k < |before| { LinesBreak(front, k); }
  }

  lemma LinesNone()
    ensures Lines([]) == []
  {
  }

  /** The whole rendering read back: the first 10000 units, and then only the count of the others. */
  lemma InspectedReadsBack(value: Text)
    ensures ReadSum(Inspected(value)) == Some(Literal(Kept(value), Trailer(|value|)))
    ensures Kept(value) == if |value| <= 10000 then value else value[..10000]
  {
    hide Joined, Lines, ReadSum, Digits;
    var kept, rest := Kept(value), Trailer(|value|);
    assert !(JOINT <= rest) by {
      if rest != [] { assert rest[0] == 46; }
    }
    if |kept| <= SPLIT_THRESHOLD {
      JoinedOne(kept);
      JoinedReadsBack([kept], rest);
    } else {
      LinesFlatten(kept);
      JoinedReadsBack(Lines(kept), rest);
    }
  }

  lemma JoinedOne(piece: Text)
    ensures Joined([piece]) == Quoted(piece) && Flatten([piece]) == piece
  {
    assert [piece][1..] == [];
    assert piece + [] == piece;
  }

  // ---------------------------------------------------------------------------------------------
  // The loops
  // ---------------------------------------------------------------------------------------------

  /** `_quote_piece`, unit by unit. */
  method QuotePiece(piece: Text) returns (out: Text)
    ensures out == Quoted(piece)
  {
    hide Body, HasSubstitution;
    var quote := SINGLE;
    if SINGLE in piece {
      if DOUBLE !in piece {
        quote := DOUBLE;
      } else if BACKTICK !in piece && !HasSubstitution(piece) {
        quote := BACKTICK;
      }
    }
    out := [quote];
    var i := 0;
    assert piece[0..] == piece;
    while i < |piece|
      invariant 0 <= i <= |piece|
      invariant out + Body(piece[i..], quote) == [quote] + Body(piece, quote)
    {
      var u := piece[i];
      BodyStep(piece, i, quote, out);
      if u == SINGLE && quote == SINGLE {
        out := out + [BACKSLASH, SINGLE];
      } else if u == BACKSLASH {
        out := out + [BACKSLASH, BACKSLASH];
      } else if Control(u) {
        out := out + Escape(u, quote);
      } else if High(u) && i + 1 < |piece| && Low(piece[i + 1]) {
        out := out + [u, piece[i + 1]];
        i := i + 1;
      } else if Surrogate(u) {
        out := out + Escape(u, quote);
      } else {
        out := out + [u];
      }
      i := i + 1;
    }
    assert piece[i..] == [];
    BodyEnds(quote);
    assert out + [] == out;
    out := out + [quote];
  }

  lemma BodyEnds(quote: Unit)
    ensures Body([], quote) == []
  {
  }

  lemma BodyStep(piece: Text, i: nat, quote: Unit, out: Text)
    requires i < |piece|
    ensures PairAt(piece, i) ==>
      out + [piece[i], piece[i + 1]] + Body(piece[i + 2..], quote) == out + Body(piece[i..], quote)
    ensures !PairAt(piece, i) ==>
      out + Escape(piece[i], quote) + Body(piece[i + 1..], quote) == out + Body(piece[i..], quote)
  {
    hide Escape;
    var s := piece[i..];
    assert s[1..] == piece[i + 1..];
    if PairAt(piece, i) {
      assert s[2..] == piece[i + 2..] && s[..2] == [piece[i], piece[i + 1]];
      var pair, after := [piece[i], piece[i + 1]], Body(piece[i + 2..], quote);
      assert out + (pair + after) == out + pair + after;
    } else {
      var written, after := Escape(piece[i], quote), Body(piece[i + 1..], quote);
      assert out + (written + after) == out + written + after;
    }
  }

  /** `inspect_string`. */
  method InspectString(value: Text) returns (out: Text)
    ensures out == Inspected(value)
  {
    hide Lines, Joined, Quoted, Digits;
    var kept := value;
    var trailer: Text := [];
    if |kept| > MAX_STRING_LENGTH {
      var rest := |kept| - MAX_STRING_LENGTH;
      kept := kept[..MAX_STRING_LENGTH];
      trailer := DOTS + Digits(rest) + (if rest > 1 then MORE + [115] else MORE);
    }
    if |kept| <= SPLIT_THRESHOLD {
      out := QuotePiece(kept);
      return out + trailer;
    }
    var pieces := SplitLines(kept);
    out := JoinPieces(pieces);
    out := out + trailer;
  }

  method SplitLines(kept: Text) returns (pieces: seq<Text>)
    requires kept != []
    ensures pieces == Lines(kept)
  {
    hide Lines;
    pieces := [];
    var start := 0;
    LinesEmpty(kept);
    for i := 0 to |kept|
      invariant 0 <= start <= i
      invariant SplitSoFar(kept, i, start, pieces)
    {
      SplitNext(kept, i, start, pieces);
      if kept[i] == NEWLINE {
        pieces := pieces + [kept[start..i + 1]];
        start := i + 1;
      }
    }
    SplitDone(kept, start, pieces);
    if start < |kept| || pieces == [] {
      pieces := pieces + [kept[start..]];
    }
  }

  // The finished lines and, when there is one, the line in progress.
  predicate SplitSoFar(kept: Text, i: nat, start: nat, pieces: seq<Text>) {
    && start <= i <= |kept|
    && Lines(kept[..i]) == (if start < i then pieces + [kept[start..i]] else pieces)
    && (start == i && i > 0 ==> kept[i - 1] == NEWLINE)
    && (start < i ==> kept[i - 1] != NEWLINE)
  }

  lemma LinesEmpty(kept: Text)
    ensures SplitSoFar(kept, 0, 0, [])
  {
    assert kept[..0] == [];
  }

  lemma SplitNext(kept: Text, i: nat, start: nat, pieces: seq<Text>)
    requires i < |kept| && SplitSoFar(kept, i, start, pieces)
    ensures if kept[i] == NEWLINE then SplitSoFar(kept, i + 1, i + 1, pieces + [kept[start..i + 1]])
      else SplitSoFar(kept, i + 1, start, pieces)
  {
    hide Lines;
    assert kept[..i + 1] == kept[..i] + [kept[i]];
    LinesStep(kept[..i], kept[i]);
    assert kept[start..i + 1] == kept[start..i] + [kept[i]];
    if start == i {
      assert kept[start..i + 1] == [kept[i]];
    } else {
      assert (pieces + [kept[start..i]])[..|pieces|] == pieces;
    }
  }

  lemma LinesStep(s: Text, c: Unit)
    ensures Lines(s + [c]) ==
      if s == [] || s[|s| - 1] == NEWLINE then Lines(s) + [[c]]
      else Lines(s)[..|Lines(s)| - 1] + [Lines(s)[|Lines(s)| - 1] + [c]]
  {
    assert (s + [c])[..|s|] == s;
  }

  lemma SplitDone(kept: Text, start: nat, pieces: seq<Text>)
    requires kept != [] && SplitSoFar(kept, |kept|, start, pieces)
    ensures Lines(kept) == (if start < |kept| || pieces == [] then pieces + [kept[start..]] else pieces)
  {
    assert kept[..|kept|] == kept;
  }

  method JoinPieces(pieces: seq<Text>) returns (joined: Text)
    ensures joined == Joined(pieces)
  {
    hide Joined, Quoted;
    joined := [];
    JoinedNone();
    for n := 0 to |pieces|
      invariant joined == Joined(pieces[..n])
    {
      JoinedAppends(pieces[..n], pieces[n]);
      assert pieces[..n + 1] == pieces[..n] + [pieces[n]];
      if n != 0 {
        joined := joined + JOINT;
      }
      var quoted := QuotePiece(pieces[n]);
      joined := joined + quoted;
    }
    assert pieces[..|pieces|] == pieces;
  }

  lemma JoinedNone()
    ensures Joined([]) == []
  {
  }

  lemma {:induction false} JoinedAppends(pieces: seq<Text>, last: Text)
    ensures Joined(pieces + [last]) == (if pieces == [] then Quoted(last) else Joined(pieces) + JOINT + Quoted(last))
  {
    hide Quoted;
    if pieces != [] {
      var more := pieces + [last];
      assert more[1..] == pieces[1..] + [last];
      JoinedAppends(pieces[1..], last);
      if |pieces| > 1 {
        var q := Quoted(pieces[0]) + JOINT;
        assert q + (Joined(pieces[1..]) + JOINT + Quoted(last)) == q + Joined(pieces[1..]) + JOINT + Quoted(last);
      }
    }
  }

  // ---------------------------------------------------------------------------------------------
  // The form of the text
  // ---------------------------------------------------------------------------------------------

  /** A piece stands between equal quotes: `'` unless it holds one; then `"` unless it holds one too; then the
      backtick unless it holds one or a `${`; and else `'` again. */
  lemma QuotedForm(piece: Text)
    ensures var text := Quoted(piece);
      && |text| >= 2 && text[0] == text[|text| - 1]
      && (text[0] == SINGLE <==>
            SINGLE !in piece || (DOUBLE in piece && (BACKTICK in piece || HasSubstitution(piece))))
      && (text[0] == DOUBLE <==> SINGLE in piece && DOUBLE !in piece)
      && (text[0] == BACKTICK <==>
            SINGLE in piece && DOUBLE in piece && BACKTICK !in piece && !HasSubstitution(piece))
  {
    hide Body;
  }

  /** A short string is one piece, a longer one is split at its line feeds; what is left out is counted after it. */
  lemma InspectedForm(value: Text)
    ensures |value| <= 76 ==> Inspected(value) == Quoted(value)
    ensures 76 < |value| <= 10000 ==> Inspected(value) == Joined(Lines(value))
    ensures |value| > 10000 ==>
      var rest := |value| - 10000;
      var counted := [46, 46, 46, 32] + Digits(rest) + MORE + (if rest > 1 then [115] else []);
      Inspected(value) == Joined(Lines(value[..10000])) + counted
  {
    hide Quoted, Joined, Lines, Digits, Trailer;
    TrailerForm(|value|);
    assert Quoted(value) + [] == Quoted(value);
    assert Joined(Lines(value)) + [] == Joined(Lines(value));
  }

  lemma TrailerForm(length: nat)
    ensures length <= 10000 ==> Trailer(length) == []
    ensures length > 10000 ==>
      var rest := length - 10000;
      Trailer(length) == [46, 46, 46, 32] + Digits(rest) + MORE + (if rest > 1 then [115] else [])
  {
    hide Digits;
    if length > 10000 {
      var d, m := Digits(length - 10000), MORE;
      assert DOTS + d + (m + [115]) == DOTS + d + m + [115];
      assert DOTS + d + m + [] == DOTS + d + m;
    }
  }

  /** How a unit on its own is written: as itself unless it is a backslash, a control, a surrogate, or `'` inside
      `'`; by a letter for the five controls that have one; in two upper-case digits for the others; in four
      lower-case digits for a surrogate. */
  lemma EscapeForm(u: Unit, quote: Unit)
    ensures Escape(u, quote) == [u] <==>
      u != BACKSLASH && !Control(u) && !Surrogate(u) && !(u == SINGLE && quote == SINGLE)
    ensures |Escape(u, quote)| == 2 <==> u == BACKSLASH || (u == SINGLE && quote == SINGLE) || u in {8, 9, 10, 12, 13}
    ensures |Escape(u, quote)| == 4 <==> Control(u) && u !in {8, 9, 10, 12, 13}
    ensures |Escape(u, quote)| == 4 ==> forall i :: 2 <= i < 4 ==>
      48 <= Escape(u, quote)[i] <= 57 || 65 <= Escape(u, quote)[i] <= 70
    ensures |Escape(u, quote)| == 6 <==> Surrogate(u)
    ensures |Escape(u, quote)| == 6 ==> forall i :: 2 <= i < 6 ==>
      48 <= Escape(u, quote)[i] <= 57 || 97 <= Escape(u, quote)[i] <= 102
  {
  }
}
