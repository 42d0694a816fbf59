/** ECMAScript's `JSON.stringify` for parsed values, its property order, and the reading of its text by the
    grammar of RFC 8259. */
module JsJson {
  import opened Utf16
  import opened Options
  import opened Decimal
  import opened JsonString
  import opened JsonNumber
  import opened StableSort

  datatype Json =
    | Null
    | Bool(b: bool)
    | Str(text: Points)
    | Num(x: Number)
    | Arr(items: seq<Json>)
    | Obj(props: seq<Prop>)

  /** Properties in insertion order. */
  datatype Prop = Prop(key: Points, value: Json)

  // ---------------------------------------------------------------------------------------------
  // Property order
  // ---------------------------------------------------------------------------------------------

  const MAX_ARRAY_INDEX := 0xFFFF_FFFE

  /** `_is_array_index`. */
  predicate IsArrayIndex(key: Points) {
    && key != [] && AllDigits(key)
    && (key == [ZERO] || key[0] != ZERO)
    && |key| <= 10
    && Value(key) <= MAX_ARRAY_INDEX
  }

  lemma {:induction false} ValueDigits(s: seq<int>)
    requires s != [] && AllDigits(s) && (s == [ZERO] || s[0] != ZERO)
    ensures Digits(Value(s)) == s
    ensures s != [ZERO] ==> Value(s) > 0
  {
    if |s| == 1 {
      assert s[..0] == [];
    } else {
      var front := s[..|s| - 1];
      ValueDigits(front);
      assert s == front + [s[|s| - 1]];
      assert Value(s) / 10 == Value(front) && Value(s) % 10 == s[|s| - 1] - 48;
    }
  }

  lemma {:induction false} DigitsShort(n: nat, k: nat, bound: nat)
    requires n < bound && bound == Power(k) && k > 0
    ensures |Digits(n)| <= k
  {
    if n >= 10 {
      assert k > 1;
      DigitsShort(n / 10, k - 1, Power(k - 1));
    }
  }

  function Power(k: nat): nat {
    if k == 0 then 1 else 10 * Power(k - 1)
  }

  /** A key is an array index exactly when it is the decimal text of a number up to 2^32 - 2. */
  lemma ArrayIndexIff(key: Points)
    ensures IsArrayIndex(key) <==> exists n: nat :: n <= 4294967294 && key == Digits(n)
  {
    if IsArrayIndex(key) {
      ValueDigits(key);
      assert key == Digits(Value(key));
    }
    if n: nat :| n <= MAX_ARRAY_INDEX && key == Digits(n) {
      DigitsValue(n);
      assert Power(10) == 10_000_000_000;
      DigitsShort(n, 10, Power(10));
    }
  }

  /** The number an index key stands for. */
  function Rank(p: Prop): nat {
    if IsArrayIndex(p.key) then Value(p.key) else 0
  }

  function Indices(props: seq<Prop>): seq<Prop> {
    if props == [] then []
    else
      var front := Indices(props[..|props| - 1]);
      if IsArrayIndex(props[|props| - 1].key) then front + [props[|props| - 1]] else front
  }

  function Others(props: seq<Prop>): seq<Prop> {
    if props == [] then []
    else
      var front := Others(props[..|props| - 1]);
      if IsArrayIndex(props[|props| - 1].key) then front else front + [props[|props| - 1]]
  }

  /** `_js_property_order`: array indices ascending, then the others as inserted. */
  function Ordered(props: seq<Prop>): seq<Prop> {
    SortBy(Rank, Indices(props)) + Others(props)
  }

  /** One property comes before another: indices by number and first, the others by position. */
  predicate Before(props: seq<Prop>, a: Prop, b: Prop) {
    if IsArrayIndex(a.key) then IsArrayIndex(b.key) ==> Rank(a) <= Rank(b)
    else !IsArrayIndex(b.key) && exists k, l :: 0 <= k < l < |props| && props[k] == a && props[l] == b
  }

  predicate InOrder(props: seq<Prop>, out: seq<Prop>) {
    forall i, j :: 0 <= i < j < |out| ==> Before(props, out[i], out[j])
  }

  lemma {:induction false} Parted(props: seq<Prop>)
    ensures multiset(Indices(props)) + multiset(Others(props)) == multiset(props)
    ensures forall i :: 0 <= i < |Indices(props)| ==> IsArrayIndex(Indices(props)[i].key)
  {
    hide IsArrayIndex;
    if props != [] {
      Parted(props[..|props| - 1]);
      assert props == props[..|props| - 1] + [props[|props| - 1]];
    }
  }

  /** The others keep their places relative to each other. */
  lemma {:induction false} OthersKeepOrder(props: seq<Prop>)
    ensures forall i :: 0 <= i < |Others(props)| ==> !IsArrayIndex(Others(props)[i].key) && Others(props)[i] in props
    ensures InOrder(props, Others(props))
  {
    hide IsArrayIndex, Rank;
    if props != [] {
      var front, last := props[..|props| - 1], props[|props| - 1];
      OthersKeepOrder(front);
      assert props == front + [last];
      var out := Others(props);
      forall i, j | 0 <= i < j < |out| ensures Before(props, out[i], out[j]) {
        if j < |Others(front)| {
          assert Before(front, out[i], out[j]);
          var k, l :| 0 <= k < l < |front| && front[k] == out[i] && front[l] == out[j];
          assert props[k] == out[i] && props[l] == out[j];
        } else {
          assert out[i] in front;
          var k :| 0 <= k < |front| && front[k] == out[i];
          assert props[k] == out[i] && props[|front|] == out[j];
        }
      }
    }
  }

  /** Every property once, array indices first in ascending order, the others as inserted. */
  lemma OrderedIs(props: seq<Prop>)
    ensures multiset(Ordered(props)) == multiset(props)
    ensures InOrder(props, Ordered(props))
  {
    hide IsArrayIndex, Rank, Indices, Others, SortBy;
    Parted(props);
    OthersKeepOrder(props);
    Sorts(Rank, Indices(props));
    var a, b := SortBy(Rank, Indices(props)), Others(props);
    forall i | 0 <= i < |a| ensures IsArrayIndex(a[i].key) {
      assert a[i] in multiset(a);
      assert a[i] in Indices(props);
    }
    forall i, j | 0 <= i < j < |a + b| ensures Before(props, (a + b)[i], (a + b)[j]) {
      if i >= |a| { assert Before(props, b[i - |a|], b[j - |a|]); }
      else if j >= |a| { assert !IsArrayIndex(b[j - |a|].key); }
    }
  }

  // ---------------------------------------------------------------------------------------------
  // Writing
  // ---------------------------------------------------------------------------------------------

  function Size(j: Json): nat
    decreases j, 1
  {
    match j
    case Arr(items) => 1 + SizeItems(items)
    case Obj(props) => 1 + SizeProps(props)
    case _ => 1
  }

  function SizeItems(items: seq<Json>): nat
    decreases items, 0
  {
    if items == [] then 0 else 1 + Size(items[0]) + SizeItems(items[1..])
  }

  function SizeProps(props: seq<Prop>): nat
    decreases props, 0
  {
    if props == [] then 0 else 1 + Size(props[0].value) + SizeProps(props[1..])
  }

  lemma {:induction false} SizeAppends(a: seq<Prop>, b: seq<Prop>)
    ensures SizeProps(a + b) == SizeProps(a) + SizeProps(b)
  {
    hide Size;
    if a == [] {
      assert a + b == b;
    } else {
      assert (a + b)[1..] == a[1..] + b;
      SizeAppends(a[1..], b);
    }
  }

  lemma SizeOne(p: Prop)
    ensures SizeProps([p]) == 1 + Size(p.value)
  {
    hide Size;
    assert [p][1..] == [] && SizeProps([]) == 0;
  }

  lemma {:induction false} SizeInsert(p: Prop, sorted: seq<Prop>)
    ensures SizeProps(InsertBy(Rank, p, sorted)) == SizeProps(sorted) + 1 + Size(p.value)
  {
    hide SizeProps, Size, Rank;
    SizeOne(p);
    SizeAppends(sorted, [p]);
    SizeEmpty();
    if sorted != [] {
      var front, last := sorted[..|sorted| - 1], sorted[|sorted| - 1];
      assert sorted == front + [last];
      SizeInsert(p, front);
      SizeAppends(front, [last]);
      SizeAppends(InsertBy(Rank, p, front), [last]);
    }
  }

  lemma SizeEmpty()
    ensures SizeProps([]) == 0
  {
  }

  lemma {:induction false} SizeSort(props: seq<Prop>)
    ensures SizeProps(SortBy(Rank, props)) == SizeProps(props)
  {
    hide SizeProps, Size, Rank, InsertBy;
    if props != [] {
      var front, last := props[..|props| - 1], props[|props| - 1];
      assert props == front + [last];
      SizeSort(front);
      SizeInsert(last, SortBy(Rank, front));
      SizeAppends(front, [last]);
      SizeOne(last);
    }
  }

  lemma {:induction false} SizeParted(props: seq<Prop>)
    ensures SizeProps(Indices(props)) + SizeProps(Others(props)) == SizeProps(props)
  {
    hide SizeProps, Size, IsArrayIndex;
    if props == [] {
      SizeEmpty();
    } else {
      var front, last := props[..|props| - 1], props[|props| - 1];
      assert props == front + [last];
      SizeParted(front);
      SizeAppends(front, [last]);
      SizeAppends(Indices(front), [last]);
      SizeAppends(Others(front), [last]);
    }
  }

  lemma SizeOrdered(props: seq<Prop>)
    ensures SizeProps(Ordered(props)) == SizeProps(props)
  {
    hide SizeProps, Indices, Others, SortBy;
    SizeParted(props);
    SizeSort(Indices(props));
    SizeAppends(SortBy(Rank, Indices(props)), Others(props));
  }

  const COMMA: Unit := 44
  const COLON: Unit := 58
  const OPEN_BRACKET: Unit := 91
  const CLOSE_BRACKET: Unit := 93
  const OPEN_BRACE: Unit := 123
  const CLOSE_BRACE: Unit := 125
  const NULL: Text := [110, 117, 108, 108]
  const TRUE: Text := [116, 114, 117, 101]
  const FALSE: Text := [102, 97, 108, 115, 101]

  /** Every number in a value comes with proper digits. */
  predicate Proper(j: Json)
    decreases j, 1
  {
    match j
    case Num(x) => Shortest(x)
    case Arr(items) => forall i :: 0 <= i < |items| ==> Proper(items[i])
    case Obj(props) => ProperProps(props)
    case _ => true
  }

  predicate ProperProps(props: seq<Prop>)
    decreases props, 0
  {
    forall i :: 0 <= i < |props| ==> Proper(props[i].value)
  }

  lemma ProperOrdered(props: seq<Prop>)
    requires ProperProps(props)
    ensures ProperProps(Ordered(props))
  {
    hide Proper, Ordered;
    OrderedIs(props);
    var out := Ordered(props);
    forall i | 0 <= i < |out| ensures Proper(out[i].value) {
      assert out[i] in multiset(out);
      assert out[i] in props;
    }
  }

  /** `js_json_stringify`. */
  function Stringify(j: Json): Text
    requires Proper(j)
    decreases Size(j), 1
  {
    match j
    case Null => NULL
    case Bool(b) => if b then TRUE else FALSE
    case Str(text) => StringText(text)
    case Num(x) => if x.NonFinite? then NULL else NumberText(x)
    case Arr(items) => [OPEN_BRACKET] + Items(items) + [CLOSE_BRACKET]
    case Obj(props) =>
      ProperOrdered(props);
      SizeOrdered(props);
      [OPEN_BRACE] + Members(Ordered(props)) + [CLOSE_BRACE]
  }

  function Items(items: seq<Json>): Text
    requires forall i :: 0 <= i < |items| ==> Proper(items[i])
    decreases SizeItems(items), 0
  {
    if items == [] then []
    else if |items| == 1 then Stringify(items[0])
    else Stringify(items[0]) + [COMMA] + Items(items[1..])
  }

  function Members(props: seq<Prop>): Text
    requires ProperProps(props)
    decreases SizeProps(props), 0
  {
    if props == [] then []
    else if |props| == 1 then Member(props[0])
    else Member(props[0]) + [COMMA] + Members(props[1..])
  }

  function Member(p: Prop): Text
    requires Proper(p.value)
    decreases Size(p.value), 2
  {
    StringText(p.key) + [COLON] + Stringify(p.value)
  }

  // ---------------------------------------------------------------------------------------------
  // Reading
  // ---------------------------------------------------------------------------------------------

  /** A value as read: strings as UTF-16 units, numbers as exact values, members in order of appearance. */
  datatype Parsed =
    | PNull
    | PBool(b: bool)
    | PStr(text: Text)
    | PNum(x: real)
    | PArr(items: seq<Parsed>)
    | PObj(members: seq<(Text, Parsed)>)

  predicate White(u: Unit) {
    u == 0x20 || u == 0x09 || u == 0x0A || u == 0x0D
  }

  /** The text after leading white space, for a reader that allows any. */
  function Skip(s: Text, white: bool): (t: Text)
    ensures |t| <= |s|
  {
    if white && s != [] && White(s[0]) then Skip(s[1..], white) else s
  }

  function ReadValue(s: Text, white: bool): (r: Option<Read<Parsed>>)
    ensures r.Some? ==> |r.value.rest| < |s|
    decreases |s|, 1
  {
    ReadBare(Skip(s, white), white)
  }

  /** A value at the very start of the text. */
  function ReadBare(t: Text, white: bool): (r: Option<Read<Parsed>>)
    ensures r.Some? ==> |r.value.rest| < |t|
    decreases |t|, 0
  {
    if t == [] then None
    else if NULL <= t then Some(Read(PNull, t[4..]))
    else if TRUE <= t then Some(Read(PBool(true), t[4..]))
    else if FALSE <= t then Some(Read(PBool(false), t[5..]))
    else if t[0] == QUOTE then
      var c := ReadChars(t[1..]);
      if c.None? then None else Some(Read(PStr(c.value.value), c.value.rest))
    else if t[0] == OPEN_BRACKET then
      var u := Skip(t[1..], white);
      if u != [] && u[0] == CLOSE_BRACKET then Some(Read(PArr([]), u[1..]))
      else
        var items := ReadItems(t[1..], white);
        if items.None? then None else Some(Read(PArr(items.value.value), items.value.rest))
    else if t[0] == OPEN_BRACE then
      var u := Skip(t[1..], white);
      if u != [] && u[0] == CLOSE_BRACE then Some(Read(PObj([]), u[1..]))
      else
        var members := ReadMembers(t[1..], white);
        if members.None? then None else Some(Read(PObj(members.value.value), members.value.rest))
    else
      var x := ReadNumber(t);
      if x.None? then None else Some(Read(PNum(x.value.value), x.value.rest))
  }

  /** One or more values and the closing bracket. */
  function ReadItems(s: Text, white: bool): (r: Option<Read<seq<Parsed>>>)
    ensures r.Some? ==> |r.value.rest| < |s|
    decreases |s|, 2
  {
    var v := ReadValue(s, white);
    if v.None? then None
    else
      var t := Skip(v.value.rest, white);
      if t == [] then None
      else if t[0] == CLOSE_BRACKET then Some(Read([v.value.value], t[1..]))
      else if t[0] != COMMA then None
      else
        var more := ReadItems(t[1..], white);
        if more.None? then None else Some(Read([v.value.value] + more.value.value, more.value.rest))
  }

  /** A name, a colon and a value. */
  function ReadMember(s: Text, white: bool): (r: Option<Read<(Text, Parsed)>>)
    ensures r.Some? ==> |r.value.rest| < |s|
    decreases |s|, 2
  {
    var t := Skip(s, white);
    if t == [] || t[0] != QUOTE then None
    else
      var c := ReadChars(t[1..]);
      if c.None? then None
      else
        var u := Skip(c.value.rest, white);
        if u == [] || u[0] != COLON then None
        else
          var v := ReadValue(u[1..], white);
          if v.None? then None else Some(Read((c.value.value, v.value.value), v.value.rest))
  }

  /** One or more members and the closing brace. */
  function ReadMembers(s: Text, white: bool): (r: Option<Read<seq<(Text, Parsed)>>>)
    ensures r.Some? ==> |r.value.rest| < |s|
    decreases |s|, 3
  {
    var m := ReadMember(s, white);
    if m.None? then None
    else
      var t := Skip(m.value.rest, white);
      if t == [] then None
      else if t[0] == CLOSE_BRACE then Some(Read([m.value.value], t[1..]))
      else if t[0] != COMMA then None
      else
        var more := ReadMembers(t[1..], white);
        if more.None? then None else Some(Read([m.value.value] + more.value.value, more.value.rest))
  }

  /** A whole JSON text. */
  function ReadText(s: Text, white: bool): Option<Parsed> {
    var v := ReadValue(s, white);
    if v.None? || Skip(v.value.rest, white) != [] then None else Some(v.value.value)
  }

  // ---------------------------------------------------------------------------------------------
  // Reading undoes writing
  // ---------------------------------------------------------------------------------------------

  /** The value a text should read as: non-finite numbers as null, either zero as zero, strings as their
      units, members in property order. */
  function Meaning(j: Json): Parsed
    requires Proper(j)
    decreases Size(j), 1
  {
    match j
    case Null => PNull
    case Bool(b) => PBool(b)
    case Str(text) => PStr(Units(text))
    case Num(x) => if x.NonFinite? then PNull else PNum(Denoted(x))
    case Arr(items) => PArr(ItemMeanings(items))
    case Obj(props) =>
      ProperOrdered(props);
      SizeOrdered(props);
      PObj(MemberMeanings(Ordered(props)))
  }

  function ItemMeanings(items: seq<Json>): seq<Parsed>
    requires forall i :: 0 <= i < |items| ==> Proper(items[i])
    decreases SizeItems(items), 0
  {
    if items == [] then [] else [Meaning(items[0])] + ItemMeanings(items[1..])
  }

  function MemberMeanings(props: seq<Prop>): seq<(Text, Parsed)>
    requires ProperProps(props)
    decreases SizeProps(props), 0
  {
    if props == [] then [] else [(Units(props[0].key), Meaning(props[0].value))] + MemberMeanings(props[1..])
  }

  /** What can follow a value inside a text. */
  predicate Follows(rest: Text) {
    rest == [] || rest[0] == COMMA || rest[0] == CLOSE_BRACKET || rest[0] == CLOSE_BRACE
  }

  lemma FollowsStops(rest: Text, white: bool)
    requires Follows(rest)
    ensures Stops(rest) && Skip(rest, white) == rest
  {
  }

  /** The first unit of a value's text, which tells its kind. */
  predicate Starts(t: Text) {
    t != [] && !White(t[0]) && t[0] != CLOSE_BRACKET && t[0] != CLOSE_BRACE
  }

  lemma StringifyStarts(j: Json)
    requires Proper(j)
    ensures Starts(Stringify(j))
  {
    hide NumberText, StringText, Items, Members, Ordered, ProperProps, Size;
    if j.Num? && !j.x.NonFinite? { NumberStarts(j.x); }
    if j.Str? { StringStarts(j.text); }
  }

  lemma StringStarts(s: Points)
    ensures StringText(s) != [] && StringText(s)[0] == QUOTE
  {
  }

  lemma StartsBare(t: Text, white: bool)
    requires t != [] && !White(t[0])
    ensures ReadValue(t, white) == ReadBare(t, white)
  {
    hide ReadBare;
  }

  lemma LiteralReadsBack(j: Json, rest: Text, white: bool)
    requires Proper(j) && (j.Null? || j.Bool? || (j.Num? && j.x.NonFinite?))
    ensures ReadValue(Stringify(j) + rest, white) == Some(Read(Meaning(j), rest))
  {
    hide ReadNumber, ReadChars, ReadItems, ReadMembers;
    var t := Stringify(j) + rest;
    StartsBare(t, white);
    assert t[|Stringify(j)|..] == rest;
    assert t[..|Stringify(j)|] == Stringify(j);
  }

  lemma StringReadsBack(text: Points, rest: Text, white: bool)
    ensures ReadValue(StringText(text) + rest, white) == Some(Read(PStr(Units(text)), rest))
  {
    hide ReadNumber, ReadChars, ReadItems, ReadMembers, Chars, Units;
    var t := StringText(text) + rest;
    CharsReadBack(text, rest);
    assert t[1..] == Chars(text) + [QUOTE] + rest;
    StartsBare(t, white);
  }

  lemma NumReadsBack(x: Number, rest: Text, white: bool)
    requires Shortest(x) && !x.NonFinite? && Follows(rest)
    ensures ReadValue(NumberText(x) + rest, white) == Some(Read(PNum(Denoted(x)), rest))
  {
    hide ReadNumber, ReadChars, ReadItems, ReadMembers, NumberText, Denoted;
    FollowsStops(rest, white);
    NumberReadsBack(x, rest);
    var t := NumberText(x) + rest;
    StartsBare(t, white);
  }

  lemma {:induction false} ValueReadsBack(j: Json, rest: Text, white: bool)
    requires Proper(j) && Follows(rest)
    ensures ReadValue(Stringify(j) + rest, white) == Some(Read(Meaning(j), rest))
    decreases Size(j), 1
  {
    hide ReadValue, ReadItems, ReadMembers, Items, Members, ItemMeanings, MemberMeanings, StringText, NumberText;
    hide Denoted, Ordered, ProperProps, Follows;
    match j
    case Null => LiteralReadsBack(j, rest, white);
    case Bool(b) => LiteralReadsBack(j, rest, white);
    case Str(text) => StringReadsBack(text, rest, white);
    case Num(x) =>
      if x.NonFinite? { LiteralReadsBack(j, rest, white); } else { NumReadsBack(x, rest, white); }
    case Arr(items) =>
      if items != [] {
        ItemsReadBack(items, rest, white);
        ItemsStart(items);
      }
      ArrayReadsBack(items, rest, white);
    case Obj(props) =>
      ProperOrdered(props);
      SizeOrdered(props);
      if Ordered(props) != [] {
        MembersReadBack(Ordered(props), rest, white);
        MembersStart(Ordered(props));
      }
      ObjectReadsBack(Ordered(props), rest, white);
  }

  lemma ArrayReadsBack(items: seq<Json>, rest: Text, white: bool)
    requires forall i :: 0 <= i < |items| ==> Proper(items[i])
    requires items != [] ==> Starts(Items(items))
    requires items != [] ==>
      ReadItems(Items(items) + [CLOSE_BRACKET] + rest, white) == Some(Read(ItemMeanings(items), rest))
    ensures ReadValue([OPEN_BRACKET] + Items(items) + [CLOSE_BRACKET] + rest, white)
      == Some(Read(PArr(ItemMeanings(items)), rest))
  {
    hide ReadItems, ReadMembers, ReadNumber, ReadChars, Proper, Stringify, Meaning, ReadValue;
    var t := [OPEN_BRACKET] + Items(items) + [CLOSE_BRACKET] + rest;
    var u := Items(items) + [CLOSE_BRACKET] + rest;
    assert t[1..] == u;
    StartsBare(t, white);
    assert Skip(u, white) == u;
    if items == [] { assert u[1..] == rest; }
  }

  lemma ObjectReadsBack(props: seq<Prop>, rest: Text, white: bool)
    requires ProperProps(props)
    requires props != [] ==> Starts(Members(props))
    requires props != [] ==>
      ReadMembers(Members(props) + [CLOSE_BRACE] + rest, white) == Some(Read(MemberMeanings(props), rest))
    ensures ReadValue([OPEN_BRACE] + Members(props) + [CLOSE_BRACE] + rest, white)
      == Some(Read(PObj(MemberMeanings(props)), rest))
  {
    hide ReadItems, ReadMembers, ReadNumber, ReadChars, Proper, Member, Meaning, ReadValue;
    var t := [OPEN_BRACE] + Members(props) + [CLOSE_BRACE] + rest;
    var u := Members(props) + [CLOSE_BRACE] + rest;
    assert t[1..] == u;
    StartsBare(t, white);
    assert Skip(u, white) == u;
    if props == [] { assert u[1..] == rest; }
  }

  lemma ItemsStart(items: seq<Json>)
    requires items != [] && forall i :: 0 <= i < |items| ==> Proper(items[i])
    ensures Starts(Items(items))
  {
    hide Stringify, Proper;
    StringifyStarts(items[0]);
  }

  lemma MembersStart(props: seq<Prop>)
    requires props != [] && ProperProps(props)
    ensures Starts(Members(props))
  {
    hide Stringify, Proper, StringText;
    StringStarts(props[0].key);
  }

  lemma {:induction false} ItemsReadBack(items: seq<Json>, rest: Text, white: bool)
    requires items != [] && forall i :: 0 <= i < |items| ==> Proper(items[i])
    ensures ReadItems(Items(items) + [CLOSE_BRACKET] + rest, white) == Some(Read(ItemMeanings(items), rest))
    decreases SizeItems(items), 0
  {
    hide ReadItems, ReadValue, Stringify, Meaning, Proper;
    var closing := [CLOSE_BRACKET] + rest;
    if |items| == 1 {
      ValueReadsBack(items[0], closing, white);
      LastItem(Stringify(items[0]), Meaning(items[0]), rest, white);
      assert Items(items) + [CLOSE_BRACKET] + rest == Stringify(items[0]) + closing;
      assert items[1..] == [] && ItemMeanings(items[1..]) == [];
      assert ItemMeanings(items) == [Meaning(items[0])];
    } else {
      var later := Items(items[1..]) + [CLOSE_BRACKET] + rest;
      ValueReadsBack(items[0], [COMMA] + later, white);
      ItemsReadBack(items[1..], rest, white);
      NextItem(Stringify(items[0]), Meaning(items[0]), later, ItemMeanings(items[1..]), rest, white);
      assert Items(items) + [CLOSE_BRACKET] + rest == Stringify(items[0]) + ([COMMA] + later);
    }
  }

  lemma LastItem(text: Text, v: Parsed, rest: Text, white: bool)
    requires ReadValue(text + ([CLOSE_BRACKET] + rest), white) == Some(Read(v, [CLOSE_BRACKET] + rest))
    ensures ReadItems(text + ([CLOSE_BRACKET] + rest), white) == Some(Read([v], rest))
  {
    hide ReadValue;
    var t := [CLOSE_BRACKET] + rest;
    assert Skip(t, white) == t && t[1..] == rest;
  }

  lemma NextItem(text: Text, v: Parsed, later: Text, vs: seq<Parsed>, rest: Text, white: bool)
    requires ReadValue(text + ([COMMA] + later), white) == Some(Read(v, [COMMA] + later))
    requires ReadItems(later, white) == Some(Read(vs, rest))
    ensures ReadItems(text + ([COMMA] + later), white) == Some(Read([v] + vs, rest))
  {
    hide ReadValue;
    var t := [COMMA] + later;
    assert Skip(t, white) == t && t[1..] == later;
  }

  lemma Regroup(a: Text, b: Text, c: Text, d: Text, e: Text)
    ensures a + b + c + d + e == a + (b + (c + d + e))
    ensures a + d + e == a + (d + e)
  {
    assert a + b + c + d + e == a + (b + (c + d + e));
    assert a + d + e == a + (d + e);
  }

  lemma MembersText(props: seq<Prop>, rest: Text)
    requires props != [] && ProperProps(props)
    ensures Proper(props[0].value) && ProperProps(props[1..])
    ensures var closing := [CLOSE_BRACE] + rest;
      var after := if |props| == 1 then closing else [COMMA] + (Members(props[1..]) + [CLOSE_BRACE] + rest);
      Members(props) + [CLOSE_BRACE] + rest == Member(props[0]) + after
  {
    hide Member, Proper, Size;
    Regroup(Member(props[0]), [COMMA], Members(props[1..]), [CLOSE_BRACE], rest);
  }

  lemma MembersMean(props: seq<Prop>)
    requires props != [] && ProperProps(props)
    ensures Proper(props[0].value) && ProperProps(props[1..])
    ensures MemberMeanings(props) == [(Units(props[0].key), Meaning(props[0].value))] + MemberMeanings(props[1..])
    ensures |props| == 1 ==> MemberMeanings(props[1..]) == []
  {
    hide Meaning, Proper, Size, Units;
  }

  lemma SizeSteps(props: seq<Prop>)
    requires props != []
    ensures Size(props[0].value) < SizeProps(props) && SizeProps(props[1..]) < SizeProps(props)
  {
    hide Size;
  }

  lemma {:induction false} MembersReadBack(props: seq<Prop>, rest: Text, white: bool)
    requires props != [] && ProperProps(props)
    ensures ReadMembers(Members(props) + [CLOSE_BRACE] + rest, white) == Some(Read(MemberMeanings(props), rest))
    decreases SizeProps(props), 0
  {
    hide ReadMembers, ReadMember, ReadValue, Meaning, Proper, ProperProps;
    hide Units, Member, Members, MemberMeanings, Size, SizeProps;
    MembersText(props, rest);
    MembersMean(props);
    SizeSteps(props);
    var m := (Units(props[0].key), Meaning(props[0].value));
    assert [m] + [] == [m];
    if |props| == 1 {
      var closing := [CLOSE_BRACE] + rest;
      ValueReadsBack(props[0].value, closing, white);
      MemberReadsBack(props[0], closing, white);
      LastMember(Member(props[0]), m, rest, white);
    } else {
      var later := Members(props[1..]) + [CLOSE_BRACE] + rest;
      ValueReadsBack(props[0].value, [COMMA] + later, white);
      MemberReadsBack(props[0], [COMMA] + later, white);
      MembersReadBack(props[1..], rest, white);
      NextMember(Member(props[0]), m, later, MemberMeanings(props[1..]), rest, white);
    }
  }

  lemma MemberReadsBack(p: Prop, after: Text, white: bool)
    requires Proper(p.value)
    requires ReadValue(Stringify(p.value) + after, white) == Some(Read(Meaning(p.value), after))
    ensures ReadMember(Member(p) + after, white) == Some(Read((Units(p.key), Meaning(p.value)), after))
  {
    hide ReadValue, ReadChars, Chars, Units, Stringify, Meaning, Proper;
    var v := Stringify(p.value) + after;
    var s := Member(p) + after;
    assert s == [QUOTE] + (Chars(p.key) + [QUOTE] + ([COLON] + v));
    assert s[1..] == Chars(p.key) + [QUOTE] + ([COLON] + v);
    CharsReadBack(p.key, [COLON] + v);
    var u := [COLON] + v;
    assert Skip(s, white) == s && Skip(u, white) == u && u[1..] == v;
  }

  lemma LastMember(text: Text, m: (Text, Parsed), rest: Text, white: bool)
    requires ReadMember(text + ([CLOSE_BRACE] + rest), white) == Some(Read(m, [CLOSE_BRACE] + rest))
    ensures ReadMembers(text + ([CLOSE_BRACE] + rest), white) == Some(Read([m], rest))
  {
    hide ReadMember;
    var t := [CLOSE_BRACE] + rest;
    assert Skip(t, white) == t && t[1..] == rest;
  }

  lemma NextMember(text: Text, m: (Text, Parsed), later: Text, ms: seq<(Text, Parsed)>, rest: Text, white: bool)
    requires ReadMember(text + ([COMMA] + later), white) == Some(Read(m, [COMMA] + later))
    requires ReadMembers(later, white) == Some(Read(ms, rest))
    ensures ReadMembers(text + ([COMMA] + later), white) == Some(Read([m] + ms, rest))
  {
    hide ReadMember;
    var t := [COMMA] + later;
    assert Skip(t, white) == t && t[1..] == later;
  }

  /** Reading what was written gives the value's meaning, for every value, even to a reader that allows no white
      space. */
  lemma StringifyRoundTrip(j: Json, white: bool)
    requires Proper(j)
    ensures ReadText(Stringify(j), white) == Some(Meaning(j))
  {
    hide ReadValue, Stringify, Meaning;
    ValueReadsBack(j, [], white);
    assert Stringify(j) + [] == Stringify(j);
    assert Skip([], white) == [];
  }
}
