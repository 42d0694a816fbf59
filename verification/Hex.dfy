/** Hexadecimal digits, as text. */
module Hex {
  import opened Utf16
  import opened Options

  function UpperHex(d: int): Unit
    requires 0 <= d < 16
  {
    if d < 10 then 48 + d else 55 + d
  }

  function LowerHex(d: int): Unit
    requires 0 <= d < 16
  {
    if d < 10 then 48 + d else 87 + d
  }

  function HexValue(u: Unit): (v: Option<int>)
    ensures v.Some? ==> 0 <= v.value < 16
  {
    if 48 <= u <= 57 then Some(u - 48)
    else if 65 <= u <= 70 then Some(u - 55)
    else if 97 <= u <= 102 then Some(u - 87)
    else None
  }

  lemma HexDigits(d: int)
    requires 0 <= d < 16
    ensures HexValue(UpperHex(d)) == Some(d) && HexValue(LowerHex(d)) == Some(d)
  {
  }

  /** Four lower-case digits. */
  function Hex4(u: Unit): (t: Text)
    ensures |t| == 4
  {
    [LowerHex(u / 4096), LowerHex(u / 256 % 16), LowerHex(u / 16 % 16), LowerHex(u % 16)]
  }

  /** The unit that four digits of either case denote. */
  function ReadHex4(s: Text): Option<Unit> {
    if |s| < 4 then None
    else
      var a, b, c, d := HexValue(s[0]), HexValue(s[1]), HexValue(s[2]), HexValue(s[3]);
      if a.Some? && b.Some? && c.Some? && d.Some? then
        Some(a.value * 4096 + b.value * 256 + c.value * 16 + d.value)
      else None
  }

  lemma PlacesAddUp(u: Unit)
    ensures u / 4096 * 4096 + u / 256 % 16 * 256 + u / 16 % 16 * 16 + u % 16 == u
  {
    assert u == u / 16 * 16 + u % 16;
    assert u / 16 == u / 256 * 16 + u / 16 % 16;
    assert u / 256 == u / 4096 * 16 + u / 256 % 16;
  }

  lemma Hex4ReadsBack(u: Unit, rest: Text)
    ensures ReadHex4(Hex4(u) + rest) == Some(u)
  {
    hide LowerHex, HexValue;
    var a, b, c, d := u / 4096, u / 256 % 16, u / 16 % 16, u % 16;
    PlacesAddUp(u);
    HexDigits(a);
    HexDigits(b);
    HexDigits(c);
    HexDigits(d);
    var s := Hex4(u) + rest;
    assert s[0] == LowerHex(a) && s[1] == LowerHex(b) && s[2] == LowerHex(c) && s[3] == LowerHex(d);
  }
}
