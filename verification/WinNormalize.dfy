/** Node's `normalizeString` for Windows paths: the one-pass form, and the segments it stands for. */
module WinNormalize {
  import opened Utf16

  const BACKSLASH: Unit := 0x5C
  const SLASH: Unit := 0x2F
  const DOT: Unit := 0x2E

  const UP: Text := [DOT, DOT]
  const HERE: Text := [DOT]

  predicate IsSeparator(c: Unit) {
    c == SLASH || c == BACKSLASH
  }

  predicate NoSeparator(s: Text) {
    forall i :: 0 <= i < |s| ==> !IsSeparator(s[i])
  }

  // ---------------------------------------------------------------------------------------------
  // Split, fold, join
  // ---------------------------------------------------------------------------------------------

  /** The pieces of a path between separators of either kind; always at least one. */
  function Split(s: Text): (parts: seq<Text>)
    ensures |parts| >= 1
  {
    if s == [] then [[]]
    else
      var before := Split(s[..|s| - 1]);
      var c := s[|s| - 1];
      if IsSeparator(c) then before + [[]]
      else before[..|before| - 1] + [before[|before| - 1] + [c]]
  }

  /** One piece on a folded path: nothing for an empty piece or `.`, one level up for `..`. */
  function Push(segs: seq<Text>, piece: Text, above: bool): seq<Text> {
    if piece == [] || piece == HERE then segs
    else if piece != UP then segs + [piece]
    else if segs != [] && segs[|segs| - 1] != UP then segs[..|segs| - 1]
    else if above then segs + [UP]
    else segs
  }

  function Folded(parts: seq<Text>, above: bool): seq<Text> {
    if parts == [] then [] else Push(Folded(parts[..|parts| - 1], above), parts[|parts| - 1], above)
  }

  function Join(segs: seq<Text>): Text {
    if segs == [] then []
    else if |segs| == 1 then segs[0]
    else Join(segs[..|segs| - 1]) + [BACKSLASH] + segs[|segs| - 1]
  }

  /** The normalized path. */
  function Normalized(s: Text, above: bool): Text {
    Join(Folded(Split(s), above))
  }

  // ---------------------------------------------------------------------------------------------
  // The shape of a folded path
  // ---------------------------------------------------------------------------------------------

  predicate Named(seg: Text) {
    seg != [] && seg != HERE && NoSeparator(seg)
  }

  /** Named segments, with `..` only as a prefix, and none at all unless allowed above the root. */
  predicate Canonical(segs: seq<Text>, above: bool) {
    && (forall i :: 0 <= i < |segs| ==> Named(segs[i]))
    && (forall i, j :: 0 <= i < j < |segs| && segs[j] == UP ==> segs[i] == UP)
    && (above || forall i :: 0 <= i < |segs| ==> segs[i] != UP)
  }

  predicate Pieces(parts: seq<Text>) {
    forall i :: 0 <= i < |parts| ==> NoSeparator(parts[i])
  }

  lemma {:induction false} SplitPieces(s: Text)
    ensures Pieces(Split(s))
  {
    if s != [] { SplitPieces(s[..|s| - 1]); }
  }

  lemma {:induction false} FoldedCanonical(parts: seq<Text>, above: bool)
    requires Pieces(parts)
    ensures Canonical(Folded(parts, above), above)
  {
    if parts != [] {
      FoldedCanonical(parts[..|parts| - 1], above);
    }
  }

  /** A canonical path is its own fold. */
  lemma {:induction false} FoldedFixed(segs: seq<Text>, above: bool)
    requires Canonical(segs, above)
    ensures Folded(segs, above) == segs
  {
    if segs != [] {
      FoldedFixed(segs[..|segs| - 1], above);
      assert segs == segs[..|segs| - 1] + [segs[|segs| - 1]];
    }
  }

  function Extended(parts: seq<Text>, run: Text): seq<Text>
    requires |parts| >= 1
  {
    parts[..|parts| - 1] + [parts[|parts| - 1] + run]
  }

  lemma ExtendedOne(run: Text)
    ensures Extended([[]], run) == [run]
  {
    assert [] + run == run;
  }

  lemma ExtendedNew(parts: seq<Text>, run: Text)
    ensures Extended(parts + [[]], run) == parts + [run]
  {
    assert [] + run == run;
    assert (parts + [[]])[..|parts|] == parts;
  }

  lemma SplitStep(s: Text, c: Unit)
    ensures Split(s + [c]) == if IsSeparator(c) then Split(s) + [[]] else Extended(Split(s), [c])
  {
    assert (s + [c])[..|s|] == s;
  }

  /** Splitting inside a run of ordinary units, and after a separator. */
  lemma {:induction false} SplitRun(s: Text, run: Text)
    requires NoSeparator(run)
    ensures Split(s + run) == Extended(Split(s), run)
  {
    hide Split;
    var last := Split(s)[|Split(s)| - 1];
    if run == [] {
      assert s + run == s && last + run == last;
    } else {
      var front, c := run[..|run| - 1], run[|run| - 1];
      assert run == front + [c];
      assert s + run == s + front + [c];
      SplitRun(s, front);
      SplitStep(s + front, c);
      assert last + front + [c] == last + run;
    }
  }

  lemma SplitSeparator(s: Text, c: Unit)
    requires IsSeparator(c)
    ensures Split(s + [c]) == Split(s) + [[]]
  {
    assert (s + [c])[..|s|] == s;
  }

  lemma {:induction false} SplitJoin(segs: seq<Text>)
    requires segs != [] && Pieces(segs)
    ensures Split(Join(segs)) == segs
  {
    hide Split, Extended;
    if |segs| == 1 {
      SplitEmpty();
      ExtendedOne(segs[0]);
      SplitRun([], segs[0]);
      assert [] + segs[0] == segs[0];
    } else {
      var front, last := segs[..|segs| - 1], segs[|segs| - 1];
      SplitJoin(front);
      SplitSeparator(Join(front), BACKSLASH);
      SplitRun(Join(front) + [BACKSLASH], last);
      ExtendedNew(front, last);
      assert segs == front + [last];
    }
  }

  lemma SplitEmpty()
    ensures Split([]) == [[]]
  {
  }

  /** A path splits at a separator. */
  lemma {:induction false} SplitAppends(a: Text, c: Unit, b: Text)
    requires IsSeparator(c)
    ensures Split(a + [c] + b) == Split(a) + Split(b)
  {
    hide Split;
    if b == [] {
      assert a + [c] + b == a + [c];
      SplitSeparator(a, c);
      SplitEmpty();
    } else {
      var front, d := b[..|b| - 1], b[|b| - 1];
      assert b == front + [d];
      assert a + [c] + b == a + [c] + front + [d];
      SplitAppends(a, c, front);
      SplitStep(a + [c] + front, d);
      SplitStep(front, d);
    }
  }

  lemma {:induction false} FoldedAppends(a: seq<Text>, b: seq<Text>, above: bool)
    requires Folded(a, above) == []
    ensures Folded(a + b, above) == Folded(b, above)
  {
    hide Push, Folded;
    if b == [] {
      assert a + b == a;
      FoldedNone(above);
    } else {
      assert (a + b)[..|a + b| - 1] == a + b[..|b| - 1];
      FoldedAppends(a, b[..|b| - 1], above);
      FoldedLast(a + b, above);
      FoldedLast(b, above);
    }
  }

  lemma FoldedNone(above: bool)
    ensures Folded([], above) == []
  {
  }

  lemma FoldedBlank(above: bool)
    ensures Folded([[]], above) == []
  {
    var blank: seq<Text> := [[]];
    assert blank[..0] == [];
  }

  /** A separator before or after a path does not change what it normalizes to. */
  lemma NormalizedTrims(s: Text, above: bool)
    ensures Normalized([BACKSLASH] + s, above) == Normalized(s, above)
    ensures Normalized(s + [BACKSLASH], above) == Normalized(s, above)
  {
    hide Split;
    SplitAppends([], BACKSLASH, s);
    SplitEmpty();
    assert [] + [BACKSLASH] + s == [BACKSLASH] + s;
    FoldedBlank(above);
    FoldedAppends([[]], Split(s), above);
    SplitSeparator(s, BACKSLASH);
    assert (Split(s) + [[]])[..|Split(s)|] == Split(s);
  }

  /** The segments of a normalized path are canonical, and normalizing again changes nothing. */
  lemma NormalizeIdempotent(s: Text, above: bool)
    ensures Canonical(Folded(Split(s), above), above)
    ensures Normalized(Normalized(s, above), above) == Normalized(s, above)
  {
    hide Split, Folded, Join, Canonical;
    SplitPieces(s);
    var segs := Folded(Split(s), above);
    FoldedCanonical(Split(s), above);
    CanonicalAgain(segs, above);
  }

  lemma CanonicalAgain(segs: seq<Text>, above: bool)
    requires Canonical(segs, above)
    ensures Normalized(Join(segs), above) == Join(segs)
  {
    hide Split;
    if segs == [] {
      SplitEmpty();
      FoldedBlank(above);
    } else {
      SplitJoin(segs);
      FoldedFixed(segs, above);
    }
  }

  // ---------------------------------------------------------------------------------------------
  // The one-pass form
  // ---------------------------------------------------------------------------------------------

  /** The last index of a backslash, or -1. */
  function LastBackslash(s: Text): (k: int)
    ensures -1 <= k < |s|
  {
    if s == [] then -1 else if s[|s| - 1] == BACKSLASH then |s| - 1 else LastBackslash(s[..|s| - 1])
  }

  function LastLength(segs: seq<Text>): nat {
    if segs == [] then 0 else |segs[|segs| - 1]|
  }

  lemma {:induction false} LastBackslashIs(s: Text, k: int)
    requires -1 <= k < |s| && (k >= 0 ==> s[k] == BACKSLASH)
    requires forall i :: k < i < |s| ==> s[i] != BACKSLASH
    ensures LastBackslash(s) == k
  {
    if s != [] && k < |s| - 1 { LastBackslashIs(s[..|s| - 1], k); }
  }

  function Cut(res: Text): Text {
    var index := LastBackslash(res);
    if index == -1 then [] else res[..index]
  }

  function LengthAfterLastBackslash(res: Text): int {
    |res| - 1 - LastBackslash(res)
  }

  /** What the text of a joined path shows of its last segment. */
  lemma JoinedLast(segs: seq<Text>)
    requires segs != [] && forall i :: 0 <= i < |segs| ==> Named(segs[i])
    ensures var res := Join(segs);
      && |res| > 0 && (|segs| > 1 <==> LastBackslash(res) != -1) && (|segs| > 1 ==> |res| > 2)
      && LengthAfterLastBackslash(res) == |segs[|segs| - 1]|
      && Cut(res) == Join(segs[..|segs| - 1])
  {
    hide LastBackslash;
    var res := Join(segs);
    var last := segs[|segs| - 1];
    assert Named(last);
    if |segs| == 1 {
      LastBackslashIs(res, -1);
      assert segs[..0] == [];
    } else {
      var front := Join(segs[..|segs| - 1]);
      JoinNonempty(segs[..|segs| - 1]);
      LastBackslashIs(res, |front|);
      assert res[..|front|] == front;
    }
  }

  lemma JoinNonempty(segs: seq<Text>)
    requires segs != [] && forall i :: 0 <= i < |segs| ==> Named(segs[i])
    ensures Join(segs) != []
  {
    assert Named(segs[0]);
  }

  /** The `dots` count: how many dots the current piece is made of, or -1 once another unit was seen. */
  function Dots(piece: Text): int {
    if forall i :: 0 <= i < |piece| ==> piece[i] == DOT then |piece| else -1
  }

  lemma DotsExtends(piece: Text, c: Unit)
    ensures Dots(piece + [c]) == if c == DOT && Dots(piece) != -1 then Dots(piece) + 1 else -1
  {
    var longer := piece + [c];
    assert longer[|piece|] == c;
    assert forall i :: 0 <= i < |piece| ==> longer[i] == piece[i];
  }

  lemma DotsMeaning(piece: Text)
    ensures piece == HERE <==> Dots(piece) == 1
    ensures piece == UP <==> Dots(piece) == 2
  {
  }

  // The scan stands at unit `i`, in the piece after `lastSlash`, with every earlier piece folded.
  predicate AtUnit(path: Text, above: bool, i: int, lastSlash: int, dots: int, segs: seq<Text>) {
    && -1 <= lastSlash < i <= |path|
    && var parts := Split(path[..i]);
      && parts[|parts| - 1] == path[lastSlash + 1..i]
      && segs == Folded(parts[..|parts| - 1], above)
      && dots == Dots(path[lastSlash + 1..i])
  }

  predicate Shows(res: Text, lastLength: int, segs: seq<Text>, above: bool) {
    res == Join(segs) && lastLength == LastLength(segs) && Canonical(segs, above)
  }

  lemma Start(path: Text, above: bool)
    ensures AtUnit(path, above, 0, -1, 0, [])
    ensures Shows([], 0, [], above)
  {
    assert path[..0] == [];
  }

  lemma InPiece(path: Text, above: bool, i: nat, lastSlash: int, dots: int, segs: seq<Text>)
    requires i < |path| && AtUnit(path, above, i, lastSlash, dots, segs) && !IsSeparator(path[i])
    ensures AtUnit(path, above, i + 1, lastSlash, if path[i] == DOT && dots != -1 then dots + 1 else -1, segs)
  {
    hide Folded, Dots;
    assert path[..i + 1][..i] == path[..i];
    assert path[lastSlash + 1..i + 1] == path[lastSlash + 1..i] + [path[i]];
    DotsExtends(path[lastSlash + 1..i], path[i]);
    var parts := Split(path[..i]);
    assert Split(path[..i + 1])[..|parts| - 1] == parts[..|parts| - 1];
  }

  lemma PieceEnds(path: Text, above: bool, i: nat, lastSlash: int, dots: int, segs: seq<Text>)
    requires i <= |path| && AtUnit(path, above, i, lastSlash, dots, segs)
    ensures var piece := path[lastSlash + 1..i];
      var pushed := Push(segs, piece, above);
      && (i < |path| && IsSeparator(path[i]) ==> AtUnit(path, above, i + 1, i, 0, pushed))
      && (i == |path| ==> pushed == Folded(Split(path), above))
      && (piece == [] <==> lastSlash == i - 1) && (piece == HERE <==> dots == 1) && (piece == UP <==> dots == 2)
      && NoSeparator(piece) && Canonical(pushed, above)
  {
    hide Split, Folded, Push, Dots, Canonical, NoSeparator;
    var piece := path[lastSlash + 1..i];
    var parts := Split(path[..i]);
    DotsMeaning(piece);
    DotsNone();
    SplitPieces(path[..i]);
    FoldedCanonical(parts, above);
    FoldedLast(parts, above);
    if i < |path| {
      assert path[..i + 1] == path[..i] + [path[i]];
      assert path[i + 1..i + 1] == [];
      if IsSeparator(path[i]) {
        SplitSeparator(path[..i], path[i]);
        assert (parts + [[]])[..|parts|] == parts;
      }
    } else {
      assert path[..i] == path;
    }
  }

  lemma FoldedLast(parts: seq<Text>, above: bool)
    requires parts != []
    ensures Folded(parts, above) == Push(Folded(parts[..|parts| - 1], above), parts[|parts| - 1], above)
  {
  }

  lemma DotsNone()
    ensures Dots([]) == 0
  {
  }

  lemma LastLengthShown(segs: seq<Text>, above: bool)
    requires Canonical(segs, above)
    ensures Join(segs) == [] <==> segs == []
    ensures LastLength(segs) == LengthAfterLastBackslash(Join(segs))
    ensures segs != [] ==> Cut(Join(segs)) == Join(segs[..|segs| - 1])
    ensures segs != [] && LastBackslash(Join(segs)) == -1 ==> |segs| == 1
    ensures segs != [] && |Join(segs)| <= 2 ==> LastBackslash(Join(segs)) == -1
  {
    hide Join, LastBackslash, Canonical, Named, Cut, LengthAfterLastBackslash;
    CanonicalNamed(segs, above);
    if segs == [] {
      JoinEmpty();
      CutEmpty();
    } else {
      JoinedLast(segs);
    }
  }

  lemma CutEmpty()
    ensures LastBackslash([]) == -1 && Cut([]) == [] && LengthAfterLastBackslash([]) == 0
  {
  }

  lemma EndsWithUp(segs: seq<Text>, above: bool)
    requires Canonical(segs, above) && segs != []
    ensures var res := Join(segs);
      segs[|segs| - 1] == UP <==> |res| >= 2 && LastLength(segs) == 2 && res[|res| - 2..] == UP
  {
    var res, last := Join(segs), segs[|segs| - 1];
    if |segs| > 1 { assert res[|res| - |last|..] == last; }
  }

  /** `..` over a path whose last segment is not `..`: what the two ways of cutting leave. */
  lemma CutLast(res: Text, lastLength: int, segs: seq<Text>, above: bool)
    requires Shows(res, lastLength, segs, above)
    ensures res == [] <==> segs == []
    ensures segs != [] && segs[|segs| - 1] == UP <==> |res| >= 2 && lastLength == 2 && res[|res| - 2..] == UP
    ensures segs != [] ==>
      var left := if LastBackslash(res) == -1 then 0 else LengthAfterLastBackslash(Cut(res));
      && Shows(Cut(res), left, segs[..|segs| - 1], above)
      && (|res| <= 2 ==> LastBackslash(res) == -1)
  {
    hide Join, LastBackslash, Canonical, Cut, LengthAfterLastBackslash;
    LastLengthShown(segs, above);
    if segs != [] {
      EndsWithUp(segs, above);
      CanonicalFront(segs, above);
      LastLengthShown(segs[..|segs| - 1], above);
    }
  }

  lemma CanonicalFront(segs: seq<Text>, above: bool)
    requires segs != [] && Canonical(segs, above)
    ensures Canonical(segs[..|segs| - 1], above)
    ensures forall i :: 0 <= i < |segs| - 1 ==> Named(segs[i])
  {
  }

  lemma JoinEmpty()
    ensures Join([]) == []
  {
  }

  /** A segment appended, with a backslash before it unless it is the first. */
  lemma AppendSegment(res: Text, lastLength: int, segs: seq<Text>, seg: Text, above: bool)
    requires Shows(res, lastLength, segs, above) && Canonical(segs + [seg], above)
    ensures Shows(if res != [] then res + ([BACKSLASH] + seg) else seg, |seg|, segs + [seg], above)
  {
    hide Canonical;
    assert (segs + [seg])[..|segs|] == segs;
    if segs != [] {
      CanonicalNamed(segs, above);
      JoinNonempty(segs);
      assert Join(segs) + [BACKSLASH] + seg == Join(segs) + ([BACKSLASH] + seg);
    }
  }

  lemma CanonicalNamed(segs: seq<Text>, above: bool)
    requires Canonical(segs, above)
    ensures forall i :: 0 <= i < |segs| ==> Named(segs[i])
  {
  }

  lemma PushCases(segs: seq<Text>, piece: Text, above: bool)
    ensures var pushed := Push(segs, piece, above);
      && (piece == [] || piece == HERE ==> pushed == segs)
      && (piece != [] && piece != HERE && piece != UP ==> pushed == segs + [piece])
      && (piece == UP && segs != [] && segs[|segs| - 1] != UP ==> pushed == segs[..|segs| - 1])
      && (piece == UP && (segs == [] || segs[|segs| - 1] == UP) ==> pushed == if above then segs + [UP] else segs)
  {
  }

  lemma CutMeans(res: Text)
    ensures LastBackslash(res) == -1 ==> Cut(res) == []
    ensures LastBackslash(res) != -1 ==> Cut(res) == res[..LastBackslash(res)]
    ensures forall t: Text :: LengthAfterLastBackslash(t) == |t| - 1 - LastBackslash(t)
  {
    hide LastBackslash;
  }

  /** `_node_normalize_string`, in one pass over the units. */
  method NormalizeString(path: Text, allowAboveRoot: bool) returns (res: Text)
    ensures res == Normalized(path, allowAboveRoot)
  {
    hide Split, Folded, Dots, AtUnit, Shows, LastBackslash;
    hide Push, Canonical, Join, NoSeparator, Cut, LengthAfterLastBackslash;
    res := [];
    var lastSegmentLength := 0;
    var lastSlash := -1;
    var dots := 0;
    var unit: int := -1;
    ghost var segs: seq<Text> := [];
    Start(path, allowAboveRoot);
    var i := 0;
    while i <= |path|
      invariant 0 <= i <= |path| + 1 && -1 <= lastSlash <= i - 1
      invariant i <= |path| ==> AtUnit(path, allowAboveRoot, i, lastSlash, dots, segs)
      invariant i <= |path| ==> unit == if i == 0 then -1 else path[i - 1]
      invariant i > |path| ==> segs == Folded(Split(path), allowAboveRoot)
      invariant Shows(res, lastSegmentLength, segs, allowAboveRoot)
    {
      PieceEnds(path, allowAboveRoot, i, lastSlash, dots, segs);
      if i < |path| {
        unit := path[i];
      } else if unit == SLASH || unit == BACKSLASH {
        TrailingSeparator(path, allowAboveRoot, lastSlash, dots, segs);
        break;
      } else {
        unit := SLASH;
      }
      if unit == SLASH || unit == BACKSLASH {
        ghost var pushed := Push(segs, path[lastSlash + 1..i], allowAboveRoot);
        PushCases(segs, path[lastSlash + 1..i], allowAboveRoot);
        CutMeans(res);
        CutLast(res, lastSegmentLength, segs, allowAboveRoot);
        if lastSlash == i - 1 || dots == 1 {
        } else if dots == 2 {
          if |res| < 2 || lastSegmentLength != 2 || res[|res| - 2..] != UP {
            if |res| > 2 {
              var index := LastBackslash(res);
              if index == -1 {
                res, lastSegmentLength := [], 0;
              } else {
                res := res[..index];
                lastSegmentLength := |res| - 1 - LastBackslash(res);
              }
              segs := pushed;
              lastSlash, dots := i, 0;
              i := i + 1;
              continue;
            }
            if res != [] {
              res, lastSegmentLength := [], 0;
              segs := pushed;
              lastSlash, dots := i, 0;
              i := i + 1;
              continue;
            }
          }
          if allowAboveRoot {
            AppendSegment(res, lastSegmentLength, segs, UP, allowAboveRoot);
            res := if res != [] then res + ([BACKSLASH] + UP) else UP;
            lastSegmentLength := 2;
          }
        } else {
          var segment := path[lastSlash + 1..i];
          AppendSegment(res, lastSegmentLength, segs, segment, allowAboveRoot);
          res := if res != [] then res + ([BACKSLASH] + segment) else segment;
          lastSegmentLength := i - lastSlash - 1;
        }
        segs := pushed;
        lastSlash, dots := i, 0;
      } else {
        InPiece(path, allowAboveRoot, i, lastSlash, dots, segs);
        if unit == DOT && dots != -1 {
          dots := dots + 1;
        } else {
          dots := -1;
        }
      }
      i := i + 1;
    }
    assert res == Join(segs) by { ShowsJoin(res, lastSegmentLength, segs, allowAboveRoot); }
  }

  lemma ShowsJoin(res: Text, lastLength: int, segs: seq<Text>, above: bool)
    requires Shows(res, lastLength, segs, above)
    ensures res == Join(segs)
  {
  }

  lemma TrailingSeparator(path: Text, above: bool, lastSlash: int, dots: int, segs: seq<Text>)
    requires path != [] && IsSeparator(path[|path| - 1]) && AtUnit(path, above, |path|, lastSlash, dots, segs)
    ensures segs == Folded(Split(path), above)
  {
    assert path[..|path|] == path;
    var parts := Split(path);
    assert parts[|parts| - 1] == [];
    assert parts != [];
  }

  // ---------------------------------------------------------------------------------------------
  // Going on from a folded path
  // ---------------------------------------------------------------------------------------------

  /** More pieces on a folded path. */
  function FoldOn(segs: seq<Text>, parts: seq<Text>, above: bool): seq<Text> {
    if parts == [] then segs else Push(FoldOn(segs, parts[..|parts| - 1], above), parts[|parts| - 1], above)
  }

  lemma {:induction false} FoldedOn(a: seq<Text>, b: seq<Text>, above: bool)
    ensures Folded(a + b, above) == FoldOn(Folded(a, above), b, above)
  {
    hide Push, Folded;
    if b == [] {
      assert a + b == a;
    } else {
      assert (a + b)[..|a + b| - 1] == a + b[..|b| - 1];
      FoldedOn(a, b[..|b| - 1], above);
      FoldedLast(a + b, above);
    }
  }

  /** A path after a separator goes on from what comes before it. */
  lemma NormalizedOn(s: Text, more: Text, above: bool)
    ensures Folded(Split(s + [BACKSLASH] + more), above) == FoldOn(Folded(Split(s), above), Split(more), above)
  {
    hide Split, Folded, FoldOn;
    SplitAppends(s, BACKSLASH, more);
    FoldedOn(Split(s), Split(more), above);
  }

  /** A name and then `..` lead back: the name is taken away again. */
  lemma NameThenUp(s: Text, name: Text, above: bool)
    requires Named(name) && name != UP
    ensures Normalized(s + [BACKSLASH] + name + [BACKSLASH] + UP, above) == Normalized(s, above)
    ensures Folded(Split(s + [BACKSLASH] + name), above) == Folded(Split(s), above) + [name]
  {
    hide Split, Folded, FoldOn, Join;
    NormalizedOn(s, name, above);
    SplitOne(name);
    FoldOnOne(Folded(Split(s), above), name, above);
    var longer := s + [BACKSLASH] + name;
    NormalizedOn(longer, UP, above);
    SplitOne(UP);
    FoldOnOne(Folded(Split(longer), above), UP, above);
    assert (Folded(Split(s), above) + [name])[..|Folded(Split(s), above)|] == Folded(Split(s), above);
  }

  lemma SplitOne(piece: Text)
    requires NoSeparator(piece)
    ensures Split(piece) == [piece]
  {
    hide Split, Extended;
    SplitEmpty();
    SplitRun([], piece);
    ExtendedOne(piece);
    assert [] + piece == piece;
  }

  lemma FoldOnOne(segs: seq<Text>, piece: Text, above: bool)
    ensures FoldOn(segs, [piece], above) == Push(segs, piece, above)
  {
    hide Push;
    assert [piece][..0] == [];
  }

  /** `..` with nothing left to take away stays, if allowed above the root, and is dropped otherwise; `.` and
      an empty piece change nothing. */
  lemma UpAtTheTop(s: Text, above: bool)
    requires forall i :: 0 <= i < |Folded(Split(s), above)| ==> Folded(Split(s), above)[i] == UP
    ensures Folded(Split(s + [BACKSLASH] + UP), above) == Folded(Split(s), above) + (if above then [UP] else [])
  {
    hide Split, Folded, FoldOn, Canonical;
    NormalizedOn(s, UP, above);
    SplitOne(UP);
    FoldOnOne(Folded(Split(s), above), UP, above);
    assert Folded(Split(s), above) + [] == Folded(Split(s), above);
  }

  lemma HereChangesNothing(s: Text, above: bool)
    ensures Normalized(s + [BACKSLASH] + HERE, above) == Normalized(s, above)
    ensures Normalized(s + [SLASH], above) == Normalized(s, above)
  {
    hide Split, Folded, FoldOn;
    NormalizedOn(s, HERE, above);
    SplitOne(HERE);
    FoldOnOne(Folded(Split(s), above), HERE, above);
    SplitSeparator(s, SLASH);
    FoldedLast(Split(s) + [[]], above);
    assert (Split(s) + [[]])[..|Split(s)|] == Split(s);
  }

  /** Text after a path that ends in a separator goes on from that path. */
  lemma TailOn(t: Text, r: Text, above: bool)
    requires t == [] || t[|t| - 1] == BACKSLASH
    ensures Folded(Split(t + r + [BACKSLASH]), above) == FoldOn(Folded(Split(t), above), Split(r), above)
  {
    hide Split, Folded, FoldOn;
    SplitSeparator(t + r, BACKSLASH);
    BlankLast(Split(t + r), above);
    if t == [] {
      assert t + r == r;
      SplitEmpty();
      FoldedBlank(above);
      FoldedOn([], Split(r), above);
      assert [] + Split(r) == Split(r);
      FoldedNone(above);
    } else {
      var u := t[..|t| - 1];
      assert t == u + [BACKSLASH];
      NormalizedOn(u, r, above);
      SplitSeparator(u, BACKSLASH);
      BlankLast(Split(u), above);
    }
  }

  lemma BlankLast(parts: seq<Text>, above: bool)
    ensures Folded(parts + [[]], above) == Folded(parts, above)
  {
    hide Folded;
    FoldedLast(parts + [[]], above);
    assert (parts + [[]])[..|parts|] == parts;
  }
}
