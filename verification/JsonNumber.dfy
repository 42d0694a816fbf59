/** ECMAScript's number notation (section 6.1.6.1.20 of ECMA-262), and the reading of a number by section 6 of
    RFC 8259 as an exact value. */
module JsonNumber {
  import opened Utf16
  import opened Options
  import opened Decimal
  import opened JsonString

  const MINUS: Unit := 0x2D
  const PLUS: Unit := 0x2B
  const POINT: Unit := 0x2E
  const LOWER_E: Unit := 0x65
  const UPPER_E: Unit := 0x45

  function Zeros(n: nat): (z: Text)
    ensures |z| == n && AllDigits(z)
  {
    seq(n, _ => ZERO)
  }

  function Pow10(e: int): real
    decreases if e < 0 then -e else e
  {
    if e == 0 then 1.0 else if e > 0 then 10.0 * Pow10(e - 1) else Pow10(e + 1) / 10.0
  }

  /** `int(s) * 10 ** e`. */
  function Scaled(s: Text, e: int): real
    requires AllDigits(s)
  {
    Value(s) as real * Pow10(e)
  }

  // ---------------------------------------------------------------------------------------------
  // Writing
  // ---------------------------------------------------------------------------------------------

  /** `_format_fixed_or_exponential`. */
  function Notation(s: Text, n: int): Text
    requires s != []
  {
    var k := |s|;
    if k <= n <= 21 then s + Zeros(n - k)
    else if 0 < n <= 21 then s[..n] + [POINT] + s[n..]
    else if -6 < n <= 0 then [ZERO, POINT] + Zeros(-n) + s
    else
      var sign := if n - 1 >= 0 then PLUS else MINUS;
      var exponent := Digits(if n - 1 >= 0 then n - 1 else 1 - n);
      if k == 1 then s + [LOWER_E, sign] + exponent
      else [s[0], POINT] + s[1..] + [LOWER_E, sign] + exponent
  }

  // ---------------------------------------------------------------------------------------------
  // Reading
  // ---------------------------------------------------------------------------------------------

  /** The longest run of digits a text starts with. */
  function Run(s: Text): (d: Text)
    ensures |d| <= |s| && d == s[..|d|] && AllDigits(d)
    ensures |d| < |s| ==> !IsDigit(s[|d|])
  {
    if s == [] || !IsDigit(s[0]) then [] else [s[0]] + Run(s[1..])
  }

  /** A fraction, if the text starts with one: its digits, at least one. */
  function ReadFraction(s: Text): (r: Option<Read<Text>>)
    ensures r.Some? ==> |r.value.rest| <= |s| && AllDigits(r.value.value)
  {
    if s == [] || s[0] != POINT then Some(Read([], s))
    else
      var d := Run(s[1..]);
      if d == [] then None else Some(Read(d, s[1 + |d|..]))
  }

  /** An exponent, if the text starts with one. */
  function ReadExponent(s: Text): (r: Option<Read<int>>)
    ensures r.Some? ==> |r.value.rest| <= |s|
  {
    if s == [] || (s[0] != LOWER_E && s[0] != UPPER_E) then Some(Read(0, s))
    else
      var signed := |s| > 1 && (s[1] == PLUS || s[1] == MINUS);
      var at := if signed then 2 else 1;
      var d := Run(s[at..]);
      var v: int := Value(d);
      if d == [] then None
      else Some(Read(if signed && s[1] == MINUS then -v else v, s[at + |d|..]))
  }

  /** A number without its minus sign. No leading zeros. */
  function ReadMagnitude(s: Text): (r: Option<Read<real>>)
    ensures r.Some? ==> |r.value.rest| < |s|
  {
    var whole := Run(s);
    if whole == [] || (whole[0] == ZERO && |whole| > 1) then None
    else
      var f := ReadFraction(s[|whole|..]);
      if f.None? then None
      else
        var e := ReadExponent(f.value.rest);
        if e.None? then None
        else Some(Read(Scaled(whole + f.value.value, e.value.value - |f.value.value|), e.value.rest))
  }

  function ReadNumber(s: Text): (r: Option<Read<real>>)
    ensures r.Some? ==> |r.value.rest| < |s|
  {
    if s != [] && s[0] == MINUS then
      var m := ReadMagnitude(s[1..]);
      if m.None? then None else Some(Read(-m.value.value, m.value.rest))
    else ReadMagnitude(s)
  }

  // ---------------------------------------------------------------------------------------------
  // The notation denotes the number
  // ---------------------------------------------------------------------------------------------

  /** What may follow a number: nothing that would go on with it. */
  predicate Stops(rest: Text) {
    rest == [] || !(IsDigit(rest[0]) || rest[0] == POINT || rest[0] == LOWER_E || rest[0] == UPPER_E)
  }

  lemma {:induction false} RunOf(d: Text, rest: Text)
    requires AllDigits(d) && (rest == [] || !IsDigit(rest[0]))
    ensures Run(d + rest) == d
  {
    if d == [] {
      assert d + rest == rest;
    } else {
      assert (d + rest)[1..] == d[1..] + rest;
      RunOf(d[1..], rest);
    }
  }

  lemma FractionOf(d: Text, rest: Text)
    requires AllDigits(d) && (rest == [] || !IsDigit(rest[0]))
    ensures d != [] ==> ReadFraction([POINT] + d + rest) == Some(Read(d, rest))
    ensures rest == [] || rest[0] != POINT ==> ReadFraction(rest) == Some(Read([], rest))
  {
    var s := [POINT] + d + rest;
    assert s[1..] == d + rest;
    RunOf(d, rest);
    assert s[1 + |d|..] == rest;
  }

  lemma ExponentOf(n: int, rest: Text)
    requires Stops(rest)
    ensures var sign := if n >= 0 then PLUS else MINUS;
      ReadExponent([LOWER_E, sign] + Digits(if n >= 0 then n else -n) + rest) == Some(Read(n, rest))
    ensures ReadExponent(rest) == Some(Read(0, rest))
  {
    hide Value, Digits;
    var sign := if n >= 0 then PLUS else MINUS;
    var d := Digits(if n >= 0 then n else -n);
    var s := [LOWER_E, sign] + d + rest;
    assert s[2..] == d + rest;
    RunOf(d, rest);
    DigitsValue(if n >= 0 then n else -n);
    assert s[2 + |d|..] == rest;
  }

  lemma OneZeroMore(s: Text, m: nat)
    requires AllDigits(s) && m > 0
    ensures AllDigits(s + Zeros(m)) && AllDigits(s + Zeros(m - 1))
    ensures Value(s + Zeros(m)) == 10 * Value(s + Zeros(m - 1))
  {
    var t := s + Zeros(m);
    assert t[..|t| - 1] == s + Zeros(m - 1);
  }

  lemma {:induction false} ZerosAppended(s: Text, m: nat)
    requires AllDigits(s)
    ensures AllDigits(s + Zeros(m)) && Value(s + Zeros(m)) as real == Value(s) as real * Pow10(m)
  {
    hide Value, Pow10, Zeros;
    if m == 0 {
      assert s + Zeros(0) == s;
      PowZero();
    } else {
      ZerosAppended(s, m - 1);
      OneZeroMore(s, m);
      PowStep(m - 1);
      TimesTen(Value(s) as real, Pow10(m - 1));
    }
  }

  lemma TimesTen(x: real, p: real)
    ensures 10.0 * (x * p) == x * (10.0 * p)
  {
  }

  lemma {:induction false} ZerosPrepended(m: nat, s: Text)
    requires AllDigits(s)
    ensures AllDigits(Zeros(m) + s) && Value(Zeros(m) + s) == Value(s)
  {
    if s == [] {
      assert Zeros(m) + s == Zeros(m);
      ZerosValue(m);
    } else {
      ZerosPrepended(m, s[..|s| - 1]);
      var t := Zeros(m) + s;
      assert t[..|t| - 1] == Zeros(m) + s[..|s| - 1];
    }
  }

  lemma {:induction false} ZerosValue(m: nat)
    ensures Value(Zeros(m)) == 0
  {
    if m > 0 {
      assert Zeros(m)[..m - 1] == Zeros(m - 1);
      ZerosValue(m - 1);
    }
  }

  /** Assembling a magnitude from what its parts read as. */
  lemma MagnitudeOf(whole: Text, after: Text, fraction: Text, after': Text, e: int, rest: Text)
    requires whole != [] && AllDigits(whole) && (whole[0] == ZERO ==> |whole| == 1) && AllDigits(fraction)
    requires after == [] || !IsDigit(after[0])
    requires ReadFraction(after) == Some(Read(fraction, after'))
    requires ReadExponent(after') == Some(Read(e, rest))
    ensures ReadMagnitude(whole + after) == Some(Read(Scaled(whole + fraction, e - |fraction|), rest))
  {
    hide Run, ReadFraction, ReadExponent, Scaled;
    RunOf(whole, after);
    assert (whole + after)[|whole|..] == after;
  }

  lemma Integer(s: Text, n: int, rest: Text)
    requires s != [] && AllDigits(s) && s[0] != ZERO && Stops(rest) && |s| <= n <= 21
    ensures ReadMagnitude(Notation(s, n) + rest) == Some(Read(Scaled(s, n - |s|), rest))
  {
    hide Run, ReadFraction, ReadExponent, ReadMagnitude, Pow10, Value;
    var m := n - |s|;
    ZerosAppended(s, m);
    FractionOf([], rest);
    ExponentOf(0, rest);
    var whole := s + Zeros(m);
    MagnitudeOf(whole, rest, [], rest, 0, rest);
    assert whole + [] == whole;
    PowZero();
    assert Scaled(whole + [], 0) == Scaled(s, m);
  }

  lemma PowZero()
    ensures Pow10(0) == 1.0
  {
  }

  lemma Mixed(s: Text, n: int, rest: Text)
    requires s != [] && AllDigits(s) && s[0] != ZERO && Stops(rest) && 0 < n <= 21 && n < |s|
    ensures ReadMagnitude(Notation(s, n) + rest) == Some(Read(Scaled(s, n - |s|), rest))
  {
    hide Run, ReadFraction, ReadExponent, ReadMagnitude, Scaled;
    var whole, fraction := s[..n], s[n..];
    FractionOf(fraction, rest);
    ExponentOf(0, rest);
    var after := [POINT] + fraction + rest;
    MagnitudeOf(whole, after, fraction, rest, 0, rest);
    assert whole + fraction == s;
    assert Notation(s, n) + rest == whole + after;
  }

  lemma SmallText(s: Text, n: int, rest: Text)
    requires s != [] && -6 < n <= 0
    ensures Notation(s, n) + rest == [ZERO] + ([POINT] + (Zeros(-n) + s) + rest)
  {
    hide Digits;
    var z := Zeros(-n);
    assert [ZERO, POINT] + z + s + rest == [ZERO] + ([POINT] + (z + s) + rest);
  }

  lemma SmallValue(s: Text, m: nat)
    requires s != [] && AllDigits(s)
    ensures AllDigits(Zeros(m) + s) && AllDigits([ZERO] + (Zeros(m) + s))
    ensures Value([ZERO] + (Zeros(m) + s)) == Value(s)
  {
    hide Value;
    ZerosPrepended(m, s);
    ZerosPrepended(1, Zeros(m) + s);
    assert Zeros(1) == [ZERO];
  }

  lemma Small(s: Text, n: int, rest: Text)
    requires s != [] && AllDigits(s) && s[0] != ZERO && Stops(rest) && -6 < n <= 0
    ensures ReadMagnitude(Notation(s, n) + rest) == Some(Read(Scaled(s, n - |s|), rest))
  {
    hide Run, ReadFraction, ReadExponent, ReadMagnitude, Value, Pow10, Notation;
    var fraction := Zeros(-n) + s;
    SmallValue(s, -n);
    SmallText(s, n, rest);
    FractionOf(fraction, rest);
    ExponentOf(0, rest);
    MagnitudeOf([ZERO], [POINT] + fraction + rest, fraction, rest, 0, rest);
    assert 0 - |fraction| == n - |s|;
    assert Scaled([ZERO] + fraction, 0 - |fraction|) == Scaled(s, n - |s|);
  }

  lemma Exponential(s: Text, n: int, rest: Text)
    requires s != [] && AllDigits(s) && s[0] != ZERO && Stops(rest) && (n > 21 || n <= -6)
    ensures ReadMagnitude(Notation(s, n) + rest) == Some(Read(Scaled(s, n - |s|), rest))
  {
    hide Run, ReadFraction, ReadExponent, ReadMagnitude, Scaled, Digits, Notation;
    var sign := if n - 1 >= 0 then PLUS else MINUS;
    var exponent := [LOWER_E, sign] + Digits(if n - 1 >= 0 then n - 1 else 1 - n) + rest;
    ExponentOf(n - 1, rest);
    var whole, fraction := s[..1], s[1..];
    FractionOf(fraction, exponent);
    assert whole + fraction == s;
    ExponentialText(s, n, rest, exponent);
    if |s| == 1 {
      MagnitudeOf(whole, exponent, fraction, exponent, n - 1, rest);
    } else {
      MagnitudeOf(whole, [POINT] + fraction + exponent, fraction, exponent, n - 1, rest);
    }
  }

  lemma ExponentialText(s: Text, n: int, rest: Text, exponent: Text)
    requires s != [] && (n > 21 || n <= -6)
    requires var sign := if n - 1 >= 0 then PLUS else MINUS;
      exponent == [LOWER_E, sign] + Digits(if n - 1 >= 0 then n - 1 else 1 - n) + rest
    ensures |s| == 1 ==> Notation(s, n) + rest == s[..1] + exponent
    ensures |s| > 1 ==> Notation(s, n) + rest == s[..1] + ([POINT] + s[1..] + exponent)
  {
    hide Digits, Zeros;
    var sign := if n - 1 >= 0 then PLUS else MINUS;
    var d := Digits(if n - 1 >= 0 then n - 1 else 1 - n);
    if |s| == 1 {
      assert s + [LOWER_E, sign] + d + rest == s[..1] + exponent;
    } else {
      assert [s[0], POINT] + s[1..] + [LOWER_E, sign] + d + rest == s[..1] + ([POINT] + s[1..] + exponent);
    }
  }

  /** In all four notations the text reads as exactly `int(s) * 10^(n - len(s))`, and ends where it should. */
  lemma NotationDenotes(s: Text, n: int, rest: Text)
    requires s != [] && AllDigits(s) && s[0] != ZERO && Stops(rest)
    ensures ReadMagnitude(Notation(s, n) + rest) == Some(Read(Scaled(s, n - |s|), rest))
  {
    hide Notation, ReadMagnitude, Scaled;
    if |s| <= n <= 21 {
      Integer(s, n, rest);
    } else if 0 < n <= 21 {
      Mixed(s, n, rest);
    } else if -6 < n <= 0 {
      Small(s, n, rest);
    } else {
      Exponential(s, n, rest);
    }
  }

  lemma PowStep(e: int)
    ensures Pow10(e + 1) == 10.0 * Pow10(e)
  {
  }

  lemma DropZero(d: Text, e: int)
    requires |d| > 1 && AllDigits(d) && d[|d| - 1] == ZERO
    ensures Scaled(d[..|d| - 1], e + 1) == Scaled(d, e)
  {
    hide Pow10;
    var v := Value(d[..|d| - 1]) as real;
    PowStep(e);
    TimesTen(v, Pow10(e));
    assert Value(d) as real == 10.0 * v;
  }

  /** The end of `_shortest_digits_and_exponent`: trailing zeros stripped, the value kept. */
  method Shorten(digits: Text, exponent: int) returns (s: Text, n: int)
    requires digits != [] && AllDigits(digits)
    ensures s != [] && s <= digits && AllDigits(s) && (|s| == 1 || s[|s| - 1] != ZERO)
    ensures Scaled(s, n - |s|) == Scaled(digits, exponent)
  {
    hide Scaled;
    s := digits;
    var e := exponent;
    while |s| > 1 && s[|s| - 1] == ZERO
      invariant s != [] && s <= digits && AllDigits(s) && Scaled(s, e) == Scaled(digits, exponent)
    {
      DropZero(s, e);
      s := s[..|s| - 1];
      e := e + 1;
    }
    n := e + |s|;
  }

  /** The notation by magnitude: an exponent exactly outside -5 to 21, always with its sign; a point exactly when
      digits stand after it; the digits of an integer followed by zeros up to the point. */
  lemma NotationForm(s: Text, n: int)
    requires s != [] && AllDigits(s)
    ensures var t := Notation(s, n);
      && (LOWER_E in t <==> n > 21 || n < -5)
      && (POINT in t <==> if n > 21 || n < -5 then |s| > 1 else n < |s|)
      && (|s| <= n <= 21 ==> |t| == n)
      && (0 < n < |s| && n <= 21 ==> |t| == |s| + 1 && t[n] == POINT)
      && (-6 < n <= 0 ==> |t| == |s| + 2 - n && t[0] == ZERO && t[1] == POINT)
      && (n > 21 || n < -5 ==> t[0] == s[0] && (if n > 21 then PLUS in t else MINUS in t))
  {
    var t := Notation(s, n);
    if |s| <= n <= 21 {
      DigitsOnly(t);
    } else if 0 < n <= 21 {
      DigitsOnly(s[..n]);
      DigitsOnly(s[n..]);
      assert t[n] == POINT;
    } else if -6 < n <= 0 {
      DigitsOnly(Zeros(-n) + s);
      assert t == [ZERO, POINT] + (Zeros(-n) + s);
      assert t[1] == POINT;
    } else {
      var sign := if n - 1 >= 0 then PLUS else MINUS;
      var d := Digits(if n - 1 >= 0 then n - 1 else 1 - n);
      DigitsOnly(s);
      DigitsOnly(s[1..]);
      DigitsOnly(d);
      ExponentForm(s, sign, d, t);
    }
  }

  lemma DigitsOnly(t: Text)
    requires AllDigits(t)
    ensures LOWER_E !in t && POINT !in t && PLUS !in t && MINUS !in t
  {
  }

  lemma ExponentForm(s: Text, sign: Unit, d: Text, t: Text)
    requires s != [] && AllDigits(s) && AllDigits(d) && (sign == PLUS || sign == MINUS)
    requires t == if |s| == 1 then s + [LOWER_E, sign] + d else [s[0], POINT] + s[1..] + [LOWER_E, sign] + d
    ensures LOWER_E in t && sign in t && t[0] == s[0] && (POINT in t <==> |s| > 1)
  {
    DigitsOnly(s);
    DigitsOnly(s[1..]);
    DigitsOnly(d);
    var k := if |s| == 1 then 1 else |s| + 1;
    assert t[k] == LOWER_E && t[k + 1] == sign;
    if |s| > 1 { assert t[1] == POINT; }
  }

  /** A double: non-finite, a zero, or a sign and the shortest digits `s` and exponent `n` of its magnitude. */
  datatype Number = NonFinite | Zero(negative: bool) | Finite(negative: bool, s: Text, n: int)

  predicate Shortest(x: Number) {
    x.Finite? ==> x.s != [] && AllDigits(x.s) && x.s[0] != ZERO
  }

  /** The value a finite number stands for. */
  function Denoted(x: Number): real
    requires Shortest(x) && !x.NonFinite?
  {
    if x.Zero? then 0.0 else if x.negative then -Scaled(x.s, x.n - |x.s|) else Scaled(x.s, x.n - |x.s|)
  }

  /** `_js_number_to_string`. */
  function NumberText(x: Number): Text
    requires Shortest(x) && !x.NonFinite?
  {
    if x.Zero? then [ZERO] else (if x.negative then [MINUS] else []) + Notation(x.s, x.n)
  }

  /** A number's text reads back as its value; either zero reads as zero. */
  lemma NumberReadsBack(x: Number, rest: Text)
    requires Shortest(x) && !x.NonFinite? && Stops(rest)
    ensures NumberText(x) != [] && (NumberText(x)[0] == MINUS || IsDigit(NumberText(x)[0]))
    ensures ReadNumber(NumberText(x) + rest) == Some(Read(Denoted(x), rest))
  {
    hide Notation, ReadMagnitude, Scaled;
    if x.Zero? {
      ZeroReadsBack(rest);
    } else {
      NotationStarts(x.s, x.n);
      NotationDenotes(x.s, x.n, rest);
      var text := NumberText(x) + rest;
      if x.negative {
        assert text[1..] == Notation(x.s, x.n) + rest;
      } else {
        assert text == Notation(x.s, x.n) + rest;
      }
    }
  }

  lemma NumberStarts(x: Number)
    requires Shortest(x) && !x.NonFinite?
    ensures NumberText(x) != [] && (NumberText(x)[0] == MINUS || IsDigit(NumberText(x)[0]))
  {
    hide Notation;
    if x.Finite? { NotationStarts(x.s, x.n); }
  }

  lemma NotationStarts(s: Text, n: int)
    requires s != [] && AllDigits(s)
    ensures Notation(s, n) != [] && IsDigit(Notation(s, n)[0])
  {
  }

  lemma ZeroReadsBack(rest: Text)
    requires Stops(rest)
    ensures ReadMagnitude([ZERO] + rest) == Some(Read(0.0, rest))
  {
    hide Run, ReadFraction, ReadExponent, ReadMagnitude;
    FractionOf([], rest);
    ExponentOf(0, rest);
    MagnitudeOf([ZERO], rest, [], rest, 0, rest);
    assert [ZERO] + [] == [ZERO] == Zeros(1);
    ZerosValue(1);
  }
}
