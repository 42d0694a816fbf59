/** What a removal leaves behind when nothing else changes the tree: POSIX answers, stated over the entries
    of the tree and the prefix order of their paths. */
module RemovalOutcome {
  import opened Options
  import opened RemovalWalk

  // ---------------------------------------------------------------------------------------------
  // The tree
  // ---------------------------------------------------------------------------------------------

  /** Answers an unchanging filesystem can give: what exists never answers ENOENT, `rmdir` of a
      non-directory answers ENOTDIR, a directory is never unlinked, and a directory with children is not
      removed by its first `rmdir`. Everything else may be refused with any error. */
  predicate Posix(n: Node) {
    && n.lstat in {if n.directory then IsDirectory else IsOther, Fails(ErrorOf(n.lstat))} && n.lstat != Fails(ENOENT)
    && n.unlink != Some(ENOENT) && n.list != Some(ENOENT) && n.last != Some(ENOENT)
    && (n.directory ==> n.unlink.Some? && n.first != Some(ENOENT) && n.first != Some(ENOTDIR))
    && (n.directory && n.kids != [] ==> n.first.Some?)
    && (!n.directory ==> n.kids == [] && n.first == Some(ENOTDIR))
  }

  function ErrorOf(r: Reply): Err {
    if r.Fails? then r.err else Other(0)
  }

  /** Children sit one name below their parent, under distinct names. */
  predicate Placed(base: Path, kids: seq<Node>) {
    && (forall i :: 0 <= i < |kids| ==> |kids[i].path| == |base| + 1 && base <= kids[i].path)
    && (forall i, j :: 0 <= i < j < |kids| ==> kids[i].path != kids[j].path)
  }

  predicate WellFormed(n: Node)
    decreases n, 1
  {
    Posix(n) && Placed(n.path, n.kids) && AllWellFormed(n.kids)
  }

  predicate AllWellFormed(ns: seq<Node>)
    decreases ns, 0
  {
    forall i :: 0 <= i < |ns| ==> WellFormed(ns[i])
  }

  /** Every entry of a tree, children after their parent. */
  function Entries(n: Node): seq<Node>
    decreases n, 1
  {
    [n] + AllEntries(n.kids)
  }

  function AllEntries(ns: seq<Node>): seq<Node>
    decreases ns, 0
  {
    if ns == [] then [] else Entries(ns[0]) + AllEntries(ns[1..])
  }

  // ---------------------------------------------------------------------------------------------
  // Refusals and what remains
  // ---------------------------------------------------------------------------------------------

  /** The answers of `rmdir` that send the walk to a directory's content. */
  predicate NotEmptied(e: Err) {
    e == ENOTEMPTY || e == EEXIST || e == EPERM
  }

  /** A directory that cannot be looked at, and whose `unlink` is not refused as a directory's. */
  predicate Unrecognized(n: Node) {
    n.directory && n.lstat.Fails? && n.unlink.Some? && n.unlink.value != EISDIR && n.unlink.value != EPERM
  }

  /** A directory whose content is removed: its first `rmdir` says it is not empty, and it can be listed. */
  predicate Opens(n: Node) {
    n.directory && !Unrecognized(n) && n.first.Some? && NotEmptied(n.first.value) && n.list.None?
  }

  /** Refused at its first call or at its listing: a non-directory at its `unlink`; a directory at the call
      that should recognize it, at its first `rmdir` with any other code, or at its listing. */
  predicate Blocked(n: Node) {
    if !n.directory then n.unlink.Some?
    else Unrecognized(n) || (n.first.Some? && !NotEmptied(n.first.value)) || (n.first.Some? && n.list.Some?)
  }

  /** Refused at its final `rmdir` only. */
  predicate Stuck(n: Node) {
    Opens(n) && n.last.Some?
  }

  /** The code it is refused with. */
  function Refusal(n: Node): Err
    requires Blocked(n) || Stuck(n)
  {
    if !n.directory || Unrecognized(n) then n.unlink.value
    else if !NotEmptied(n.first.value) then n.first.value
    else if n.list.Some? then n.list.value
    else n.last.value
  }

  /** The walk's routing decides by these answers. */
  lemma Routed(n: Node)
    requires Posix(n)
    ensures Opens(n) <==> EntryRoute(n).Descend? && FirstRoute(n, EntryRoute(n).original).Children?
    ensures Blocked(n) <==>
      EntryRoute(n).Failed? || (EntryRoute(n).Descend? && FirstRoute(n, EntryRoute(n).original).Refused?)
    ensures EntryRoute(n).Failed? ==> Blocked(n) && Refusal(n) == EntryRoute(n).err
    ensures EntryRoute(n).Descend? && FirstRoute(n, EntryRoute(n).original).Refused? ==>
      Blocked(n) && Refusal(n) == FirstRoute(n, EntryRoute(n).original).err
  {
  }

  /** A path remains when it lies in the subtree of a blocked entry, or is, or is above, a blocked entry or
      a stuck directory. */
  predicate Remains(es: seq<Node>, q: Path) {
    exists k :: 0 <= k < |es| && Keeps(es[k], q)
  }

  predicate Keeps(e: Node, q: Path) {
    (Blocked(e) && (e.path <= q || q <= e.path)) || (Stuck(e) && q <= e.path)
  }

  predicate Exists(es: seq<Node>, q: Path) {
    exists k :: 0 <= k < |es| && es[k].path == q
  }

  /** The paths a trace removed. */
  function Removed(t: seq<Step>): set<Path> {
    if t == [] then {} else Removed(t[..|t| - 1]) + Effect(t[|t| - 1])
  }

  function Effect(s: Step): set<Path> {
    if s.reply.Done? && (s.call.Unlink? || s.call.Rmdir?) then {s.call.path} else {}
  }

  lemma {:induction false} RemovedSplits(a: seq<Step>, b: seq<Step>)
    ensures Removed(a + b) == Removed(a) + Removed(b)
  {
    if b == [] {
      assert a + b == a;
    } else {
      assert (a + b)[..|a + b| - 1] == a + b[..|b| - 1];
      RemovedSplits(a, b[..|b| - 1]);
    }
  }

  // ---------------------------------------------------------------------------------------------
  // Every call answered as the current filesystem would
  // ---------------------------------------------------------------------------------------------

  /** What a call may answer when exactly the paths in `present` exist. */
  predicate Genuine(present: set<Path>, s: Step) {
    && s.call.path in present
    && (Effect(s) != {} ==> forall q :: q in present && s.call.path <= q ==> q == s.call.path)
    && (s.reply.Names? ==>
          Below(s.call.path, s.reply.names) == set q | q in present && |q| == |s.call.path| + 1 && s.call.path <= q)
    && s.reply != Fails(ENOENT)
  }

  function Below(base: Path, names: seq<string>): set<Path> {
    set i | 0 <= i < |names| :: base + [names[i]]
  }

  /** A whole trace is one the filesystem could have answered, starting with `present`. */
  predicate Faithful(present: set<Path>, t: seq<Step>) {
    forall i :: 0 <= i < |t| ==> Genuine(present - Removed(t[..i]), t[i])
  }

  // ---------------------------------------------------------------------------------------------
  // Where the entries of a forest lie
  // ---------------------------------------------------------------------------------------------

  predicate AllUnder(es: seq<Node>, x: Path) {
    forall k :: 0 <= k < |es| ==> x <= es[k].path
  }

  predicate AllApart(es: seq<Node>, x: Path) {
    forall k :: 0 <= k < |es| ==> |x| <= |es[k].path| && !(x <= es[k].path)
  }

  lemma {:induction false} EntriesUnder(n: Node)
    requires WellFormed(n)
    ensures AllUnder(Entries(n), n.path)
    decreases n, 1
  {
    hide Posix;
    AllEntriesUnder(n.kids, n.path);
  }

  lemma {:induction false} AllEntriesUnder(ns: seq<Node>, base: Path)
    requires AllWellFormed(ns) && Placed(base, ns)
    ensures AllUnder(AllEntries(ns), base)
    ensures forall k :: 0 <= k < |AllEntries(ns)| ==> |base| < |AllEntries(ns)[k].path|
    decreases ns, 0
  {
    hide Posix;
    if ns != [] {
      EntriesUnder(ns[0]);
      AllEntriesUnder(ns[1..], base);
    }
  }

  /** Entries of later siblings lie apart from an earlier one. */
  lemma {:induction false} SiblingsApart(ns: seq<Node>, base: Path, x: Path)
    requires AllWellFormed(ns) && Placed(base, ns)
    requires |x| == |base| + 1 && forall i :: 0 <= i < |ns| ==> ns[i].path != x
    ensures AllApart(AllEntries(ns), x)
  {
    hide Posix, WellFormed;
    if ns != [] {
      EntriesUnder(ns[0]);
      SiblingsApart(ns[1..], base, x);
      assert ns[0].path != x && |ns[0].path| == |x|;
      var es := Entries(ns[0]);
      forall k | 0 <= k < |es| ensures |x| <= |es[k].path| && !(x <= es[k].path) {
        assert ns[0].path <= es[k].path;
        assert es[k].path[..|x|] == ns[0].path;
      }
    }
  }

  lemma RemainsSplits(a: seq<Node>, b: seq<Node>, q: Path)
    ensures Remains(a + b, q) <==> Remains(a, q) || Remains(b, q)
    ensures Exists(a + b, q) <==> Exists(a, q) || Exists(b, q)
  {
    hide Keeps;
    if k :| 0 <= k < |a| && Keeps(a[k], q) { assert (a + b)[k] == a[k]; }
    if k :| 0 <= k < |b| && Keeps(b[k], q) { assert (a + b)[|a| + k] == b[k]; }
    if k :| 0 <= k < |a| && a[k].path == q { assert (a + b)[k] == a[k]; }
    if k :| 0 <= k < |b| && b[k].path == q { assert (a + b)[|a| + k] == b[k]; }
  }

  /** Nothing in one subtree keeps a path of a sibling's, either way. */
  lemma SiblingsDoNotKeep(a: seq<Node>, b: seq<Node>, x: Path, q: Path)
    requires AllUnder(a, x) && AllApart(b, x)
    ensures x <= q ==> !Remains(b, q) && !Exists(b, q)
    ensures |x| <= |q| && !(x <= q) ==> !Remains(a, q) && !Exists(a, q)
  {
    hide Blocked, Stuck;
    if x <= q {
      forall k | 0 <= k < |b| ensures !Keeps(b[k], q) && b[k].path != q {
        Comparable(x, b[k].path, q);
      }
    }
    if |x| <= |q| && !(x <= q) {
      forall k | 0 <= k < |a| ensures !Keeps(a[k], q) && a[k].path != q {
        Comparable(x, q, a[k].path);
      }
    }
  }

  lemma Comparable(x: Path, y: Path, z: Path)
    requires |x| <= |y|
    ensures x <= z && y <= z ==> x <= y
    ensures x <= y && y <= z ==> x <= z
  {
    if x <= z && y <= z {
      assert x == z[..|x|] == z[..|y|][..|x|] == y[..|x|];
    }
    if x <= y && y <= z {
      assert z[..|x|] == z[..|y|][..|x|];
    }
  }

  // ---------------------------------------------------------------------------------------------
  // What remains
  // ---------------------------------------------------------------------------------------------

  predicate Refuses(es: seq<Node>) {
    exists k :: 0 <= k < |es| && (Blocked(es[k]) || Stuck(es[k]))
  }

  /** A walk over these entries removed exactly what does not remain, and failed exactly if one refused. */
  ghost predicate Leaves(es: seq<Node>, w: Walk) {
    && (forall q :: q in Removed(w.trace) <==> Exists(es, q) && !Remains(es, q))
    && (w.first.Some? <==> Refuses(es))
  }

  lemma RemovedNone()
    ensures Removed([]) == {}
  {
  }

  lemma RemovedOne(s: Step)
    ensures Removed([s]) == Effect(s)
  {
    assert [s][..0] == [];
  }

  lemma EntryRemoves(n: Node)
    requires Posix(n)
    ensures Removed(EntryCalls(n)) == if EntryRoute(n).Settled? then {n.path} else {}
    ensures EntryRoute(n).Settled? ==> !n.directory
  {
    hide Removed;
    var l, u := Step(Lstat(n.path), n.lstat), Step(Unlink(n.path), Answer(n.unlink));
    RemovedOne(l);
    RemovedOne(u);
    RemovedSplits([l], [u]);
    assert [l] + [] == [l];
  }

  lemma FirstRemoves(n: Node)
    ensures Removed(FirstCalls(n)) == if n.first.None? then {n.path} else {}
  {
    hide Removed;
    var r := Step(Rmdir(n.path), Answer(n.first));
    var s := Step(Scandir(n.path), if n.list.Some? then Fails(n.list.value) else Names(NamesOf(n.kids)));
    RemovedOne(r);
    RemovedOne(s);
    RemovedSplits([r], [s]);
    assert [r] + [] == [r];
  }

  lemma ClosedTrace(n: Node)
    requires Posix(n) && !Opens(n)
    ensures Removed(RemoveEntry(n).trace) == if Blocked(n) then {} else {n.path}
    ensures RemoveEntry(n).first.Some? <==> Blocked(n)
    ensures !Blocked(n) ==> n.kids == []
  {
    hide RemoveAll, Removed, EntryCalls, FirstCalls;
    Routed(n);
    EntryRemoves(n);
    FirstRemoves(n);
    RemovedSplits(EntryCalls(n), FirstCalls(n));
    var w := RemoveEntry(n);
    if EntryRoute(n).Descend? {
      assert RemoveDirectory(n, EntryRoute(n).original).trace == FirstCalls(n);
      assert w.trace == EntryCalls(n) + FirstCalls(n);
    } else {
      assert w.trace == EntryCalls(n);
    }
  }

  /** An entry that is not opened: removed by its own calls when they are not refused, else untouched. */
  lemma LeavesClosed(n: Node)
    requires Posix(n) && !Opens(n) && AllUnder(Entries(n), n.path)
    ensures Leaves(Entries(n), RemoveEntry(n))
  {
    hide AllEntries, RemoveEntry, Removed;
    var es := Entries(n);
    assert es[0] == n;
    ClosedTrace(n);
    if Blocked(n) {
      forall q ensures !(Exists(es, q) && !Remains(es, q)) {
        if Exists(es, q) { assert Keeps(es[0], q); }
      }
    } else {
      assert n.kids == [] && es == [n] by { assert AllEntries([]) == [] by { AllEntriesNone(); } }
      assert es[0].path == n.path;
    }
  }

  lemma AllEntriesNone()
    ensures AllEntries([]) == []
  {
  }

  /** A directory whose children are removed in turn: it goes itself iff nothing under it refused. */
  lemma LeavesOpened(n: Node)
    requires Posix(n) && Opens(n) && AllUnder(Entries(n), n.path)
    requires forall k :: 0 <= k < |AllEntries(n.kids)| ==> |n.path| < |AllEntries(n.kids)[k].path|
    requires Leaves(AllEntries(n.kids), RemoveAll(n.kids))
    ensures Leaves(Entries(n), RemoveEntry(n))
  {
    hide AllEntries, RemoveAll, Removed, EntryCalls, FirstCalls;
    var es, below := Entries(n), RemoveAll(n.kids);
    var kids := AllEntries(n.kids);
    assert n.first.Some? && !Blocked(n);
    OpenedTrace(n);
    assert Refuses(es) <==> Refuses(kids) || Stuck(n) by { RefusesFront(n, kids); }
    forall q ensures q in Removed(RemoveEntry(n).trace) <==> Exists(es, q) && !Remains(es, q) {
      RemainsSplits([n], kids, q);
      if q == n.path {
        assert [n][0].path == q;
        RootRemains(es, q);
        assert !Exists(kids, q);
      } else {
        assert Exists([n], q) <==> false;
        if Exists(kids, q) { assert !Keeps(n, q); assert !Remains([n], q); }
      }
    }
  }

  lemma RootRemains(es: seq<Node>, q: Path)
    requires AllUnder(es, q)
    ensures Remains(es, q) <==> Refuses(es)
  {
    hide Blocked, Stuck;
    if k :| 0 <= k < |es| && (Blocked(es[k]) || Stuck(es[k])) { assert Keeps(es[k], q); }
  }

  lemma RefusesFront(n: Node, kids: seq<Node>)
    ensures Refuses([n] + kids) <==> Refuses(kids) || Blocked(n) || Stuck(n)
  {
    hide Blocked, Stuck;
    var es := [n] + kids;
    assert es[0] == n;
    if k :| 0 <= k < |kids| && (Blocked(kids[k]) || Stuck(kids[k])) { assert es[k + 1] == kids[k]; }
  }

  lemma OpenedTrace(n: Node)
    requires Posix(n) && Opens(n)
    ensures
      var below := RemoveAll(n.kids);
      var own := if below.first.None? && n.last.None? then {n.path} else {};
      && Removed(RemoveEntry(n).trace) == Removed(below.trace) + own
      && RemoveEntry(n).first == (if below.first.Some? then below.first else n.last)
  {
    hide RemoveAll, Removed, EntryCalls, FirstCalls;
    var below := RemoveAll(n.kids);
    Routed(n);
    EntryRemoves(n);
    FirstRemoves(n);
    var c := Close(n, below);
    var r := Step(Rmdir(n.path), Answer(n.last));
    RemovedOne(r);
    RemovedSplits(below.trace, [r]);
    RemovedSplits(EntryCalls(n), FirstCalls(n) + c.trace);
    RemovedSplits(FirstCalls(n), c.trace);
  }

  lemma {:induction false} LeavesEntry(n: Node)
    requires WellFormed(n)
    ensures Leaves(Entries(n), RemoveEntry(n))
    decreases n, 1
  {
    hide AllEntries, RemoveAll, AllWellFormed, Posix;
    EntriesUnder(n);
    if Opens(n) {
      LeavesAll(n.kids, n.path);
      AllEntriesUnder(n.kids, n.path);
      LeavesOpened(n);
    } else {
      LeavesClosed(n);
    }
  }

  lemma {:induction false} LeavesAll(ns: seq<Node>, base: Path)
    requires AllWellFormed(ns) && Placed(base, ns)
    ensures Leaves(AllEntries(ns), RemoveAll(ns))
    decreases ns, 0
  {
    hide RemoveEntry, Posix, WellFormed, Entries, Removed;
    if ns == [] {
      RemovedNone();
    } else {
      LeavesEntry(ns[0]);
      LeavesAll(ns[1..], base);
      EntriesUnder(ns[0]);
      SiblingsApart(ns[1..], base, ns[0].path);
      LeavesBoth(Entries(ns[0]), AllEntries(ns[1..]), ns[0].path, RemoveEntry(ns[0]), RemoveAll(ns[1..]));
    }
  }

  lemma LeavesBoth(a: seq<Node>, b: seq<Node>, x: Path, w: Walk, v: Walk)
    requires AllUnder(a, x) && AllApart(b, x) && Leaves(a, w) && Leaves(b, v)
    ensures Leaves(a + b, Then(w, v))
  {
    hide Removed, Remains, Keeps, Blocked, Stuck;
    RemovedSplits(w.trace, v.trace);
    forall q ensures q in Removed(w.trace + v.trace) <==> Exists(a + b, q) && !Remains(a + b, q) {
      RemainsSplits(a, b, q);
      SiblingsDoNotKeep(a, b, x, q);
    }
    if k :| 0 <= k < |a| && (Blocked(a[k]) || Stuck(a[k])) { assert (a + b)[k] == a[k]; }
    if k :| 0 <= k < |b| && (Blocked(b[k]) || Stuck(b[k])) { assert (a + b)[|a| + k] == b[k]; }
  }

  // ---------------------------------------------------------------------------------------------
  // The raised error
  // ---------------------------------------------------------------------------------------------

  /** The entries the walk settles, in the order it settles them: a directory after everything under it,
      and nothing under an entry it does not open. */
  function Settlements(n: Node): seq<Node>
    decreases n, 1
  {
    (if Opens(n) then AllSettlements(n.kids) else []) + [n]
  }

  function AllSettlements(ns: seq<Node>): seq<Node>
    decreases ns, 0
  {
    if ns == [] then [] else Settlements(ns[0]) + AllSettlements(ns[1..])
  }

  /** The refusal of the first entry that refuses. */
  function FirstRefusal(es: seq<Node>): (r: Option<Err>)
    ensures r.None? <==> !Refuses(es)
    ensures r.Some? ==>
      exists k :: 0 <= k < |es| && (Blocked(es[k]) || Stuck(es[k])) && r == Some(Refusal(es[k])) && !Refuses(es[..k])
  {
    if es == [] then None
    else
      var front := es[..|es| - 1];
      var e := es[|es| - 1];
      var before := FirstRefusal(front);
      assert es == front + [e];
      if before.Some? then
        assert forall k :: 0 <= k < |front| ==> es[..k] == front[..k] && es[k] == front[k];
        before
      else if Blocked(e) || Stuck(e) then
        assert es[|front|] == e && es[..|front|] == front;
        Some(Refusal(e))
      else None
  }

  lemma {:induction false} FirstRefusalSplits(a: seq<Node>, b: seq<Node>)
    ensures FirstRefusal(a + b) == Earlier(FirstRefusal(a), FirstRefusal(b))
  {
    hide Refuses, Refusal, Blocked, Stuck;
    if b == [] {
      assert a + b == a;
    } else {
      assert (a + b)[..|a + b| - 1] == a + b[..|b| - 1];
      FirstRefusalSplits(a, b[..|b| - 1]);
    }
  }

  lemma FirstRefusalOne(e: Node)
    ensures FirstRefusal([e]) == if Blocked(e) || Stuck(e) then Some(Refusal(e)) else None
  {
    hide Refuses, Refusal, Blocked, Stuck;
    assert [e][..0] == [] && FirstRefusal([]) == None;
  }

  /** The error raised is that of the first entry, in settling order, that refuses. */
  lemma {:induction false} RaisesFirstRefusal(n: Node)
    requires WellFormed(n)
    ensures RemoveEntry(n).first == FirstRefusal(Settlements(n))
    decreases n, 1
  {
    hide RemoveAll, FirstRefusal, AllSettlements, EntryCalls, FirstCalls;
    FirstRefusalOne(n);
    Routed(n);
    if Opens(n) {
      RaisesFirstOfAll(n.kids);
      FirstRefusalSplits(AllSettlements(n.kids), [n]);
      OpenedTrace(n);
    } else {
      assert [] + [n] == [n];
    }
  }

  lemma {:induction false} RaisesFirstOfAll(ns: seq<Node>)
    requires AllWellFormed(ns)
    ensures RemoveAll(ns).first == FirstRefusal(AllSettlements(ns))
    decreases ns, 0
  {
    hide RemoveEntry, FirstRefusal, Settlements, WellFormed;
    if ns == [] {
      FirstRefusalNone();
    } else {
      RaisesFirstRefusal(ns[0]);
      RaisesFirstOfAll(ns[1..]);
      FirstRefusalSplits(Settlements(ns[0]), AllSettlements(ns[1..]));
    }
  }

  lemma FirstRefusalNone()
    ensures FirstRefusal([]) == None
  {
  }

  // ---------------------------------------------------------------------------------------------
  // The answers are those of the filesystem as the walk leaves it
  // ---------------------------------------------------------------------------------------------

  /** `present` holds exactly this tree at and below its root. */
  ghost predicate Holds(present: set<Path>, n: Node) {
    forall q :: q in present && n.path <= q <==> Exists(Entries(n), q)
  }

  lemma FaithfulThen(present: set<Path>, a: seq<Step>, b: seq<Step>)
    requires Faithful(present, a) && Faithful(present - Removed(a), b)
    ensures Faithful(present, a + b)
  {
    hide Removed, Genuine;
    var t := a + b;
    forall i | 0 <= i < |t| ensures Genuine(present - Removed(t[..i]), t[i]) {
      if i < |a| {
        assert t[..i] == a[..i] && t[i] == a[i];
      } else {
        assert t[..i] == a + b[..i - |a|] && t[i] == b[i - |a|];
        RemovedSplits(a, b[..i - |a|]);
        assert present - Removed(t[..i]) == present - Removed(a) - Removed(b[..i - |a|]);
      }
    }
  }

  lemma FaithfulOne(present: set<Path>, s: Step)
    requires Genuine(present, s)
    ensures Faithful(present, [s])
  {
    hide Genuine;
    assert [s][..0] == [];
    assert present - Removed([]) == present;
  }

  lemma OpenedFirst(n: Node)
    requires Opens(n)
    ensures n.first.Some?
  {
  }

  lemma {:induction false} FaithfulEntry(present: set<Path>, n: Node)
    requires WellFormed(n) && Holds(present, n)
    ensures Faithful(present, RemoveEntry(n).trace)
    decreases n, 1
  {
    hide RemoveAll, Faithful, Removed, EntryCalls, FirstCalls, AllWellFormed, Posix, Holds, Entries;
    hide Placed, EntryRoute, FirstRoute;
    FaithfulRouting(present, n);
    Routed(n);
    if EntryRoute(n).Descend? {
      FaithfulFirst(present, n);
      assert present - {} == present;
      FaithfulThen(present, EntryCalls(n), FirstCalls(n));
      if Opens(n) {
        OpenedFirst(n);
        HoldsKids(present, n);
        FaithfulAll(present, n.kids, n.path);
        FaithfulClose(present, n);
        assert present - {} == present;
        FaithfulThen(present, FirstCalls(n), Close(n, RemoveAll(n.kids)).trace);
        FaithfulThen(present, EntryCalls(n), FirstCalls(n) + Close(n, RemoveAll(n.kids)).trace);
      }
    }
  }

  lemma {:induction false} FaithfulAll(present: set<Path>, ns: seq<Node>, base: Path)
    requires AllWellFormed(ns) && Placed(base, ns)
    requires forall i :: 0 <= i < |ns| ==> Holds(present, ns[i])
    ensures Faithful(present, RemoveAll(ns).trace)
    decreases ns, 0
  {
    hide RemoveEntry, Faithful, Removed, WellFormed, Holds, Entries;
    if ns == [] {
      FaithfulNone(present);
    } else {
      FaithfulEntry(present, ns[0]);
      var w := RemoveEntry(ns[0]);
      var rest := present - Removed(w.trace);
      forall i | 0 <= i < |ns[1..]| ensures Holds(rest, ns[1..][i]) {
        HoldsAfter(present, ns[0], ns[1..][i]);
      }
      FaithfulAll(rest, ns[1..], base);
      FaithfulThen(present, w.trace, RemoveAll(ns[1..]).trace);
    }
  }

  lemma FaithfulNone(present: set<Path>)
    ensures Faithful(present, [])
  {
  }

  /** Removing one sibling leaves another as it was. */
  lemma HoldsAfter(present: set<Path>, n: Node, sibling: Node)
    requires WellFormed(n) && Holds(present, sibling)
    requires |n.path| == |sibling.path| && n.path != sibling.path
    ensures Holds(present - Removed(RemoveEntry(n).trace), sibling)
  {
    hide WellFormed, RemoveEntry, Removed, Entries, Remains;
    LeavesEntry(n);
    EntriesUnder(n);
    forall q | q in Removed(RemoveEntry(n).trace) ensures !(sibling.path <= q) {
      assert n.path <= q;
      if sibling.path <= q { Comparable(n.path, sibling.path, q); }
    }
  }

  lemma ChildlessAlone(present: set<Path>, n: Node)
    requires Holds(present, n) && n.kids == []
    ensures n.path in present && forall q :: q in present && n.path <= q ==> q == n.path
  {
    assert Entries(n) == [n];
    assert Exists(Entries(n), n.path) by { assert Entries(n)[0].path == n.path; }
  }

  lemma RootPresent(present: set<Path>, n: Node)
    requires Holds(present, n)
    ensures n.path in present
  {
    hide AllEntries;
    assert Entries(n)[0].path == n.path;
    assert Exists(Entries(n), n.path);
  }

  lemma FaithfulRouting(present: set<Path>, n: Node)
    requires Posix(n) && Holds(present, n)
    ensures Faithful(present, EntryCalls(n))
    ensures EntryRoute(n).Descend? ==> Removed(EntryCalls(n)) == {}
  {
    hide Faithful, Removed, Holds, Entries;
    RootPresent(present, n);
    EntryRemoves(n);
    var l, u := Step(Lstat(n.path), n.lstat), Step(Unlink(n.path), Answer(n.unlink));
    FaithfulOne(present, l);
    RemovedOne(l);
    assert [l] + [] == [l];
    if !(n.lstat.IsDirectory? || n.lstat == Fails(ENOENT)) {
      if n.unlink.None? { ChildlessAlone(present, n); }
      assert present - {} == present;
      FaithfulOne(present, u);
      FaithfulThen(present, [l], [u]);
    }
  }

  lemma FaithfulFirst(present: set<Path>, n: Node)
    requires WellFormed(n) && Holds(present, n)
    ensures Faithful(present, FirstCalls(n))
    ensures EntryRoute(n).Descend? && n.first.Some? ==> Removed(FirstCalls(n)) == {}
  {
    hide Faithful, Removed, Holds, Entries, NamesOf, AllWellFormed, Placed;
    RootPresent(present, n);
    FirstRemoves(n);
    var r := Step(Rmdir(n.path), Answer(n.first));
    var s := Step(Scandir(n.path), if n.list.Some? then Fails(n.list.value) else Names(NamesOf(n.kids)));
    if n.first.None? { ChildlessAlone(present, n); }
    FaithfulOne(present, r);
    RemovedOne(r);
    assert [r] + [] == [r];
    if n.first.Some? && Descends(n.first.value) {
      assert present - {} == present;
      ListingIsPresent(present, n);
      FaithfulOne(present, s);
      FaithfulThen(present, [r], [s]);
    }
  }

  lemma {:induction false} KidPaths(ns: seq<Node>, base: Path, q: Path)
    requires AllWellFormed(ns) && Placed(base, ns) && |q| == |base| + 1
    ensures Exists(AllEntries(ns), q) <==> exists i :: 0 <= i < |ns| && ns[i].path == q
  {
    hide Posix, WellFormed, Remains;
    if ns != [] {
      KidPaths(ns[1..], base, q);
      EntriesUnder(ns[0]);
      RemainsSplits(Entries(ns[0]), AllEntries(ns[1..]), q);
      assert Entries(ns[0])[0] == ns[0];
      assert forall i :: 0 < i < |ns| ==> ns[i] == ns[1..][i - 1];
      assert Exists(Entries(ns[0]), q) <==> ns[0].path == q;
    }
  }

  /** The listing the walk receives is the directory's current content. */
  lemma ListingIsPresent(present: set<Path>, n: Node)
    requires WellFormed(n) && Holds(present, n)
    ensures Below(n.path, NamesOf(n.kids)) == set q | q in present && |q| == |n.path| + 1 && n.path <= q
  {
    hide AllEntries, AllWellFormed, Posix, Remains;
    var names := NamesOf(n.kids);
    assert forall i :: 0 <= i < |n.kids| ==> n.path + [names[i]] == n.kids[i].path;
    forall q | |q| == |n.path| + 1
      ensures q in Below(n.path, names) <==> q in present && n.path <= q
    {
      KidPaths(n.kids, n.path, q);
      RemainsSplits([n], AllEntries(n.kids), q);
    }
    forall q | q in Below(n.path, names) ensures |q| == |n.path| + 1 {
    }
  }

  lemma {:induction false} KidEntries(ns: seq<Node>, i: nat, q: Path)
    requires i < |ns|
    ensures Exists(Entries(ns[i]), q) ==> Exists(AllEntries(ns), q)
  {
    hide Entries, Remains;
    RemainsSplits(Entries(ns[0]), AllEntries(ns[1..]), q);
    if i > 0 { KidEntries(ns[1..], i - 1, q); }
  }

  lemma {:induction false} KidEntriesOnly(ns: seq<Node>, base: Path, i: nat, q: Path)
    requires AllWellFormed(ns) && Placed(base, ns) && i < |ns|
    requires Exists(AllEntries(ns), q) && ns[i].path <= q
    ensures Exists(Entries(ns[i]), q)
  {
    hide Entries, Remains, WellFormed;
    RemainsSplits(Entries(ns[0]), AllEntries(ns[1..]), q);
    EntriesUnder(ns[0]);
    if i == 0 {
      SiblingsApart(ns[1..], base, ns[0].path);
      SiblingsDoNotKeep(Entries(ns[0]), AllEntries(ns[1..]), ns[0].path, q);
    } else {
      if Exists(Entries(ns[0]), q) {
        Comparable(ns[0].path, ns[i].path, q);
        assert false;
      }
      KidEntriesOnly(ns[1..], base, i - 1, q);
    }
  }

  lemma HoldsKids(present: set<Path>, n: Node)
    requires WellFormed(n) && Holds(present, n)
    ensures forall i :: 0 <= i < |n.kids| ==> Holds(present, n.kids[i])
  {
    hide AllEntries, Posix, Remains;
    forall i, q | 0 <= i < |n.kids|
      ensures q in present && n.kids[i].path <= q <==> Exists(Entries(n.kids[i]), q)
    {
      RemainsSplits([n], AllEntries(n.kids), q);
      EntriesUnder(n.kids[i]);
      KidEntries(n.kids, i, q);
      if n.kids[i].path <= q {
        Comparable(n.path, n.kids[i].path, q);
        if q in present { KidEntriesOnly(n.kids, n.path, i, q); }
      }
    }
  }

  /** The final `rmdir` comes when the directory is empty. */
  lemma FaithfulClose(present: set<Path>, n: Node)
    requires WellFormed(n) && Holds(present, n)
    requires Faithful(present, RemoveAll(n.kids).trace)
    ensures Faithful(present, Close(n, RemoveAll(n.kids)).trace)
  {
    hide AllEntries, AllWellFormed, RemoveAll, Faithful, Removed, Refuses, Exists;
    var below := RemoveAll(n.kids);
    if below.first.None? {
      var rest := present - Removed(below.trace);
      LeavesAll(n.kids, n.path);
      AllEntriesUnder(n.kids, n.path);
      RootPresent(present, n);
      RootStays(n);
      forall q | q in rest && n.path <= q ensures q == n.path {
        RemainsSplits([n], AllEntries(n.kids), q);
        NothingKept(AllEntries(n.kids), q);
        assert Exists([n], q);
        assert q == n.path by { ExistsOne(n, q); }
      }
      var s := Step(Rmdir(n.path), Answer(n.last));
      assert Genuine(rest, s);
      FaithfulOne(rest, s);
      FaithfulThen(present, below.trace, [s]);
    }
  }

  lemma ExistsOne(n: Node, q: Path)
    ensures Exists([n], q) <==> n.path == q
  {
    assert [n][0] == n;
  }

  lemma RootStays(n: Node)
    requires WellFormed(n)
    ensures n.path !in Removed(RemoveAll(n.kids).trace)
  {
    hide RemoveAll, Removed, AllEntries, Remains, Posix, AllWellFormed;
    LeavesAll(n.kids, n.path);
    AllEntriesUnder(n.kids, n.path);
  }

  lemma NothingKept(es: seq<Node>, q: Path)
    ensures !Refuses(es) ==> !Remains(es, q)
  {
    hide Blocked, Stuck;
  }

  // ---------------------------------------------------------------------------------------------
  // Main result
  // ---------------------------------------------------------------------------------------------

  /** Removing a tree in an otherwise unchanging filesystem: the answers are those of the filesystem as the
      walk leaves it; what is gone is exactly what does not remain, nothing outside the tree is touched; it
      succeeds iff nothing remains, iff no entry refuses; and otherwise it raises the first refusal. */
  lemma RemovalOutcome(present: set<Path>, n: Node)
    requires WellFormed(n) && Holds(present, n)
    ensures
      var w, es := RemoveEntry(n), Entries(n);
      var after := present - Removed(w.trace);
      && Faithful(present, w.trace)
      && (forall q :: q in after <==> q in present && (n.path <= q ==> Remains(es, q)))
      && (w.first.None? <==> forall q :: q in after ==> !(n.path <= q))
      && (w.first.None? <==> !Refuses(es))
      && w.first == FirstRefusal(Settlements(n))
  {
    hide RemoveEntry, Entries, WellFormed, Removed, Faithful, Settlements, FirstRefusal;
    FaithfulEntry(present, n);
    LeavesEntry(n);
    RaisesFirstRefusal(n);
    EntriesUnder(n);
    RootRemains(Entries(n), n.path);
    RootPresent(present, n);
    forall q ensures !Refuses(Entries(n)) ==> !Remains(Entries(n), q) { NothingKept(Entries(n), q); }
  }

  /** Nothing in the way: a file is unlinked, a directory is recognized, an empty one goes at once, one with
      children says so, can be listed, and goes in the end. */
  predicate Permits(n: Node) {
    if !n.directory then n.unlink.None?
    else
      && (n.lstat.IsDirectory? || n.unlink == Some(EISDIR) || n.unlink == Some(EPERM))
      && (if n.kids == [] then n.first.None? else n.first == Some(ENOTEMPTY) || n.first == Some(EEXIST))
      && n.list.None? && n.last.None?
  }

  /** A tree with nothing in the way is removed whole, and no error is raised. */
  lemma RemovedWhole(present: set<Path>, n: Node)
    requires WellFormed(n) && Holds(present, n)
    requires forall k :: 0 <= k < |Entries(n)| ==> Permits(Entries(n)[k])
    ensures var w := RemoveEntry(n);
      && w.first.None?
      && forall q :: q in present - Removed(w.trace) <==> q in present && !(n.path <= q)
  {
    hide RemoveEntry, Entries, WellFormed, Removed, Faithful, Settlements, FirstRefusal, Remains;
    RemovalOutcome(present, n);
    var es := Entries(n);
    forall k | 0 <= k < |es| ensures !Blocked(es[k]) && !Stuck(es[k]) {
      assert Permits(es[k]);
    }
    assert !Refuses(es);
    forall q ensures !Remains(es, q) { NothingKept(es, q); }
  }
}
