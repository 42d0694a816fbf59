/** Recursive removal: the explicit-stack walk over whatever the native calls answer, and the recursive
    definition it computes. POSIX routing. */
module RemovalWalk {
  import opened Options

  type Path = seq<string>

  datatype Err = ENOENT | ENOTDIR | ENOTEMPTY | EEXIST | EPERM | EISDIR | EACCES | Other(code: nat)

  datatype Native = Lstat(path: Path) | Unlink(path: Path) | Rmdir(path: Path) | Scandir(path: Path)

  datatype Reply = Done | IsDirectory | IsOther | Names(names: seq<string>) | Fails(err: Err)

  /** One native call and what it answered. */
  datatype Step = Step(call: Native, reply: Reply)

  /** An entry with what each native call on it answers when the walk makes it: `lstat`, `unlink`, the
      first `rmdir`, the listing, and the final `rmdir`. A refused call never reaches the later ones. The
      walk learns whether the entry is a directory only through those answers. */
  datatype Node = Node(
    path: Path, directory: bool, lstat: Reply, unlink: Option<Err>, first: Option<Err>, list: Option<Err>,
    kids: seq<Node>, last: Option<Err>)

  /** The calls made so far and the first failure, if any. */
  datatype Walk = Walk(trace: seq<Step>, first: Option<Err>)

  function Answer(e: Option<Err>): Reply {
    if e.Some? then Fails(e.value) else Done
  }

  predicate Descends(e: Err) {
    e == ENOTEMPTY || e == EEXIST || e == EPERM
  }

  /** How one entry is routed: settled here, a directory to remove with the error that routed it, or failed. */
  datatype Routed = Settled | Descend(original: Option<Err>) | Failed(err: Err)

  // ---------------------------------------------------------------------------------------------
  // One entry
  // ---------------------------------------------------------------------------------------------

  function UnlinkRoute(n: Node): Routed {
    if n.unlink.None? || n.unlink.value == ENOENT then Settled
    else if n.unlink.value == EISDIR || n.unlink.value == EPERM then Descend(n.unlink)
    else Failed(n.unlink.value)
  }

  /** `_rimraf_entry`: its own `lstat` decides; a failed one other than ENOENT still tries `unlink`. */
  function EntryRoute(n: Node): Routed {
    if n.lstat.IsDirectory? then Descend(None)
    else if n.lstat == Fails(ENOENT) then Settled
    else UnlinkRoute(n)
  }

  function EntryCalls(n: Node): seq<Step> {
    [Step(Lstat(n.path), n.lstat)]
    + (if n.lstat.IsDirectory? || n.lstat == Fails(ENOENT) then [] else [Step(Unlink(n.path), Answer(n.unlink))])
  }

  /** What `_rmdir_first` decides: settled, failed, or children to remove. */
  datatype Opened = Emptied | Refused(err: Err) | Children

  function FirstRoute(n: Node, original: Option<Err>): Opened {
    if n.first.None? || n.first.value == ENOENT then Emptied
    else if n.first.value == ENOTDIR then (if original.Some? then Refused(original.value) else Emptied)
    else if !Descends(n.first.value) then Refused(n.first.value)
    else if n.list.None? then Children
    else if n.list.value == ENOENT then Emptied
    else Refused(n.list.value)
  }

  function NamesOf(kids: seq<Node>): seq<string> {
    seq(|kids|, i requires 0 <= i < |kids| => if kids[i].path == [] then "" else kids[i].path[|kids[i].path| - 1])
  }

  function FirstCalls(n: Node): seq<Step> {
    [Step(Rmdir(n.path), Answer(n.first))]
    + (if n.first.Some? && Descends(n.first.value)
       then [Step(Scandir(n.path), if n.list.Some? then Fails(n.list.value) else Names(NamesOf(n.kids)))] else [])
  }

  // ---------------------------------------------------------------------------------------------
  // The recursive definition
  // ---------------------------------------------------------------------------------------------

  function Earlier(a: Option<Err>, b: Option<Err>): Option<Err> {
    if a.Some? then a else b
  }

  function Then(a: Walk, b: Walk): Walk {
    Walk(a.trace + b.trace, Earlier(a.first, b.first))
  }

  /** The final `rmdir`, made only when nothing under the directory failed. */
  function Close(n: Node, below: Walk): Walk {
    if below.first.Some? then below
    else Walk(below.trace + [Step(Rmdir(n.path), Answer(n.last))], if n.last == Some(ENOENT) then None else n.last)
  }

  /** Remove a directory: `rmdir`, else every child in listing order, continuing past failures, and a
      final `rmdir` only if no descendant failed. */
  function RemoveDirectory(n: Node, original: Option<Err>): Walk
    decreases n, 1
  {
    var tried := Walk(FirstCalls(n), None);
    match FirstRoute(n, original)
    case Emptied => tried
    case Refused(e) => tried.(first := Some(e))
    case Children => Then(tried, Close(n, RemoveAll(n.kids)))
  }

  function RemoveEntry(n: Node): Walk
    decreases n, 2
  {
    var routed := Walk(EntryCalls(n), None);
    match EntryRoute(n)
    case Settled => routed
    case Failed(e) => routed.(first := Some(e))
    case Descend(original) => Then(routed, RemoveDirectory(n, original))
  }

  function RemoveAll(kids: seq<Node>): Walk
    decreases kids, 0
  {
    if kids == [] then Walk([], None) else Then(RemoveEntry(kids[0]), RemoveAll(kids[1..]))
  }

  /** Whatever else happens to the tree meanwhile: an entry that has vanished at any of its calls counts as
      removed; one that turned out not to be a directory does too, unless an error had sent the walk there,
      which is then raised; an `unlink` refused in any other way is raised. */
  lemma RacesForgiven(n: Node)
    ensures n.lstat == Fails(ENOENT) ==> RemoveEntry(n) == Walk([Step(Lstat(n.path), n.lstat)], None)
    ensures n.lstat.IsDirectory? && n.first in {None, Some(ENOENT), Some(ENOTDIR)} ==> RemoveEntry(n).first == None
    ensures !n.lstat.IsDirectory? && n.lstat != Fails(ENOENT) ==>
      && (n.unlink in {None, Some(ENOENT)} ==> RemoveEntry(n).first == None)
      && (n.unlink in {Some(EISDIR), Some(EPERM)} && n.first in {None, Some(ENOENT)} ==> RemoveEntry(n).first == None)
      && (n.unlink in {Some(EISDIR), Some(EPERM)} && n.first == Some(ENOTDIR) ==> RemoveEntry(n).first == n.unlink)
      && (n.unlink !in {None, Some(ENOENT), Some(EISDIR), Some(EPERM)} ==> RemoveEntry(n).first == n.unlink)
    ensures n.lstat.IsDirectory? && n.first in {Some(ENOTEMPTY), Some(EEXIST), Some(EPERM)} ==>
      && (n.list == Some(ENOENT) ==> RemoveEntry(n).first == None)
      && (n.list.None? && RemoveAll(n.kids).first == None && n.last == Some(ENOENT) ==> RemoveEntry(n).first == None)
      && (n.list.None? && RemoveAll(n.kids).first.Some? ==> RemoveEntry(n).first == RemoveAll(n.kids).first)
  {
    hide RemoveAll, FirstCalls;
    assert [Step(Lstat(n.path), n.lstat)] + [] == [Step(Lstat(n.path), n.lstat)];
  }

  // ---------------------------------------------------------------------------------------------
  // The explicit stack
  // ---------------------------------------------------------------------------------------------

  function Reversed(ns: seq<Node>): seq<Node> {
    if ns == [] then [] else Reversed(ns[1..]) + [ns[0]]
  }

  /** One directory being emptied: its children still to remove, next one last, and whether any failed. */
  datatype Frame = Frame(dir: Node, remaining: seq<Node>, failed: bool)

  // What is left to do for one frame: its remaining children, in order, then its final `rmdir`.
  function FinishFrame(f: Frame): Walk {
    var below := RemoveAll(Reversed(f.remaining));
    if f.failed then below else Close(f.dir, below)
  }

  function MarkTop(stack: seq<Frame>, failed: bool): seq<Frame> {
    if stack == [] || !failed then stack else stack[|stack| - 1 := stack[|stack| - 1].(failed := true)]
  }

  /** Everything a stack still has to do, top frame first. */
  function Resume(stack: seq<Frame>, done: Walk): Walk
    decreases |stack|
  {
    if stack == [] then done
    else
      var top := stack[|stack| - 1];
      var w := FinishFrame(top);
      Resume(MarkTop(stack[..|stack| - 1], top.failed || w.first.Some?), Then(done, w))
  }

  // The measure of the walk: every frame, and every entry under a child still to remove.
  function Work(stack: seq<Frame>): nat {
    if stack == [] then 0 else Work(stack[..|stack| - 1]) + 1 + SizeAll(stack[|stack| - 1].remaining)
  }

  function Size(n: Node): nat
    decreases n, 1
  {
    2 + SizeAll(n.kids)
  }

  function SizeAll(ns: seq<Node>): nat
    decreases ns, 0
  {
    if ns == [] then 0 else SizeAll(ns[..|ns| - 1]) + Size(ns[|ns| - 1])
  }

  lemma {:induction false} SizeReversed(ns: seq<Node>)
    ensures SizeAll(Reversed(ns)) == SizeAll(ns)
  {
    hide Size;
    if ns != [] {
      var r := Reversed(ns[1..]);
      assert Reversed(ns)[..|r|] == r;
      SizeReversed(ns[1..]);
      SizeFront(ns);
    }
  }

  lemma {:induction false} SizeFront(ns: seq<Node>)
    requires ns != []
    ensures SizeAll(ns) == Size(ns[0]) + SizeAll(ns[1..])
  {
    hide Size;
    if |ns| > 1 {
      SizeFront(ns[..|ns| - 1]);
      assert ns[1..][..|ns| - 2] == ns[..|ns| - 1][1..];
    } else {
      assert ns[1..] == [] && ns[..0] == [];
    }
  }

  lemma {:induction false} ReversedPops(ns: seq<Node>, last: Node)
    ensures Reversed(ns + [last]) == [last] + Reversed(ns)
  {
    if ns == [] {
      assert ns + [last] == [last];
      assert [last][1..] == [];
    } else {
      assert (ns + [last])[1..] == ns[1..] + [last];
      ReversedPops(ns[1..], last);
    }
  }

  lemma {:induction false} ReversedTwice(ns: seq<Node>)
    ensures Reversed(Reversed(ns)) == ns
  {
    if ns != [] {
      ReversedPops(Reversed(ns[1..]), ns[0]);
      ReversedTwice(ns[1..]);
    }
  }

  /** Taking one child off the top frame and finishing it, whatever that takes, changes nothing. */
  lemma TakeChild(stack: seq<Frame>, top: Frame, child: Node, done: Walk)
    requires top.remaining != [] && top.remaining[|top.remaining| - 1] == child
    ensures
      var rest := top.(remaining := top.remaining[..|top.remaining| - 1]);
      var e := RemoveEntry(child);
      Resume(stack + [top], done) == Resume(MarkTop(stack + [rest], e.first.Some?), Then(done, e))
  {
    hide RemoveEntry;
    var rest := top.(remaining := top.remaining[..|top.remaining| - 1]);
    var e := RemoveEntry(child);
    assert top.remaining == rest.remaining + [child];
    ReversedPops(rest.remaining, child);
    assert Reversed(top.remaining)[1..] == Reversed(rest.remaining);
    var below := RemoveAll(Reversed(rest.remaining));
    assert RemoveAll(Reversed(top.remaining)) == Then(e, below);
    var after := rest.(failed := rest.failed || e.first.Some?);
    assert MarkTop(stack + [rest], e.first.Some?) == stack + [after];
    var w, w' := FinishFrame(top), FinishFrame(after);
    assert Then(done, w) == Then(Then(done, e), w') by {
      FinishAfter(top, after, e, below);
      ThenAssociates(done, e, w');
    }
    assert (stack + [top])[..|stack|] == stack == (stack + [after])[..|stack|];
    assert (top.failed || w.first.Some?) == (after.failed || w'.first.Some?);
  }

  lemma FinishAfter(top: Frame, after: Frame, e: Walk, below: Walk)
    requires after.dir == top.dir && after.failed == (top.failed || e.first.Some?)
    requires RemoveAll(Reversed(top.remaining)) == Then(e, below)
    requires RemoveAll(Reversed(after.remaining)) == below
    ensures FinishFrame(top) == Then(e, FinishFrame(after))
  {
    hide RemoveAll, Reversed;
    assert e.first.None? && below.first.None? ==>
      Close(top.dir, Then(e, below)).trace == Then(e, Close(top.dir, below)).trace;
  }

  lemma ThenAssociates(a: Walk, b: Walk, c: Walk)
    ensures Then(a, Then(b, c)) == Then(Then(a, b), c)
  {
    assert a.trace + (b.trace + c.trace) == a.trace + b.trace + c.trace;
  }

  /** A frame whose children are done: pop it, make the final `rmdir` unless one failed. */
  lemma PopFrame(stack: seq<Frame>, top: Frame, done: Walk)
    requires top.remaining == []
    ensures
      var failure := if top.dir.last == Some(ENOENT) then None else top.dir.last;
      var w := if top.failed then Walk([], None)
        else Walk([Step(Rmdir(top.dir.path), Answer(top.dir.last))], failure);
      Resume(stack + [top], done) == Resume(MarkTop(stack, top.failed || w.first.Some?), Then(done, w))
  {
    hide RemoveEntry;
    assert Reversed(top.remaining) == [];
    assert [] + [Step(Rmdir(top.dir.path), Answer(top.dir.last))] == [Step(Rmdir(top.dir.path), Answer(top.dir.last))];
    assert (stack + [top])[..|stack|] == stack;
  }

  /** A child whose own `rmdir` opened it becomes a new top frame. */
  lemma PushFrame(stack: seq<Frame>, child: Node, original: Option<Err>, done: Walk)
    requires EntryRoute(child) == Descend(original) && FirstRoute(child, original) == Children
    ensures var called := Walk(EntryCalls(child) + FirstCalls(child), None);
      Resume(stack + [Frame(child, Reversed(child.kids), false)], Then(done, called))
      == Resume(MarkTop(stack, RemoveEntry(child).first.Some?), Then(done, RemoveEntry(child)))
  {
    hide EntryRoute, FirstRoute, EntryCalls, FirstCalls, RemoveAll;
    var f := Frame(child, Reversed(child.kids), false);
    ReversedTwice(child.kids);
    var w := FinishFrame(f);
    assert w == Close(child, RemoveAll(child.kids));
    var called := Walk(EntryCalls(child) + FirstCalls(child), None);
    ThenAssociates(Walk(EntryCalls(child), None), Walk(FirstCalls(child), None), w);
    assert RemoveEntry(child) == Then(called, w);
    ThenAssociates(done, called, w);
    assert (stack + [f])[..|stack|] == stack;
  }

  /** A child that is settled or fails without opening a directory. */
  lemma EntrySettles(child: Node, done: Walk)
    ensures EntryRoute(child).Settled? ==>
      && Then(done, RemoveEntry(child)) == Walk(done.trace + EntryCalls(child), done.first)
      && RemoveEntry(child).first.None?
    ensures EntryRoute(child).Failed? ==>
      && Then(done, RemoveEntry(child))
         == Walk(done.trace + EntryCalls(child), Earlier(done.first, Some(EntryRoute(child).err)))
      && RemoveEntry(child).first.Some?
    ensures EntryRoute(child).Descend? && FirstRoute(child, EntryRoute(child).original).Emptied? ==>
      Then(done, RemoveEntry(child)) == Walk(done.trace + EntryCalls(child) + FirstCalls(child), done.first)
      && RemoveEntry(child).first.None?
    ensures EntryRoute(child).Descend? && FirstRoute(child, EntryRoute(child).original).Refused? ==>
      Then(done, RemoveEntry(child)) == Walk(done.trace + EntryCalls(child) + FirstCalls(child),
        Earlier(done.first, Some(FirstRoute(child, EntryRoute(child).original).err)))
      && RemoveEntry(child).first.Some?
  {
    hide RemoveAll, EntryRoute, FirstRoute, EntryCalls, FirstCalls;
    assert done.trace + (EntryCalls(child) + FirstCalls(child)) == done.trace + EntryCalls(child) + FirstCalls(child);
  }

  lemma StartFrame(n: Node, original: Option<Err>)
    requires FirstRoute(n, original) == Children
    ensures Resume([Frame(n, Reversed(n.kids), false)], Walk(FirstCalls(n), None)) == RemoveDirectory(n, original)
  {
    hide RemoveAll, FirstRoute, FirstCalls;
    ReversedTwice(n.kids);
    var f := Frame(n, Reversed(n.kids), false);
    assert [f][..0] == [];
  }

  lemma ResumeEmpty(w: Walk)
    ensures Resume([], w) == w
  {
  }

  lemma WorkTop(stack: seq<Frame>, top: Frame)
    ensures Work(stack + [top]) == Work(stack) + 1 + SizeAll(top.remaining)
  {
    hide SizeAll;
    assert (stack + [top])[..|stack|] == stack;
  }

  lemma WorkMarked(stack: seq<Frame>, failed: bool)
    ensures Work(MarkTop(stack, failed)) == Work(stack)
  {
    hide SizeAll;
  }

  lemma WorkTaken(below: seq<Frame>, frame: Frame, rest: Frame, child: Node)
    requires frame.remaining != [] && child == frame.remaining[|frame.remaining| - 1]
    requires rest.remaining == frame.remaining[..|frame.remaining| - 1]
    ensures Work(below + [frame]) == Work(below + [rest]) + 2 + SizeAll(child.kids)
  {
    WorkTop(below, frame);
    WorkTop(below, rest);
  }

  // The top directory's children are done: its final `rmdir`, unless one failed.
  method FinishTop(below: seq<Frame>, frame: Frame, trace: seq<Step>, first: Option<Err>)
    returns (pending: seq<Frame>, trace': seq<Step>, first': Option<Err>)
    requires frame.remaining == []
    ensures Resume(pending, Walk(trace', first')) == Resume(below + [frame], Walk(trace, first))
    ensures Work(pending) < Work(below + [frame])
  {
    hide Resume, Work;
    pending, trace', first' := below, trace, first;
    PopFrame(below, frame, Walk(trace, first));
    WorkMarked(below, true);
    WorkTop(below, frame);
    if !frame.failed {
      trace' := trace + [Step(Rmdir(frame.dir.path), Answer(frame.dir.last))];
      if frame.dir.last.None? || frame.dir.last.value == ENOENT {
        return;
      }
      first' := Earlier(first, frame.dir.last);
    } else {
      assert trace + [] == trace;
    }
    pending := MarkTop(pending, true);
  }

  // The top directory's next child: settled, failed, or pushed as a new top.
  method RemoveNext(below: seq<Frame>, frame: Frame, trace: seq<Step>, first: Option<Err>)
    returns (pending: seq<Frame>, trace': seq<Step>, first': Option<Err>)
    requires frame.remaining != []
    ensures Resume(pending, Walk(trace', first')) == Resume(below + [frame], Walk(trace, first))
    ensures Work(pending) < Work(below + [frame])
  {
    hide RemoveAll, RemoveEntry, Resume, Reversed, EntryRoute, FirstRoute, EntryCalls, FirstCalls, SizeAll, Work;
    var child := frame.remaining[|frame.remaining| - 1];
    var rest := frame.(remaining := frame.remaining[..|frame.remaining| - 1]);
    ghost var done := Walk(trace, first);
    TakeChild(below, frame, child, done);
    WorkTaken(below, frame, rest, child);
    pending, first' := below + [rest], first;
    WorkTop(pending, Frame(child, Reversed(child.kids), false));
    SizeReversed(child.kids);
    EntrySettles(child, done);
    trace' := trace + EntryCalls(child);
    var failure: Option<Err> := None;
    match EntryRoute(child) {
      case Settled =>
      case Failed(e) => failure := Some(e);
      case Descend(o) =>
        trace' := trace' + FirstCalls(child);
        match FirstRoute(child, o) {
          case Emptied =>
          case Refused(e) => failure := Some(e);
          case Children =>
            PushFrame(pending, child, o, done);
            assert trace' == done.trace + (EntryCalls(child) + FirstCalls(child));
            pending := pending + [Frame(child, Reversed(child.kids), false)];
        }
    }
    if failure.Some? {
      first' := Earlier(first, failure);
      WorkMarked(pending, true);
      pending := MarkTop(pending, true);
    }
  }

  /** `_rimraf`, on its own stack of directories: the recursive definition's calls, in its order, with its
      error, on every finite tree. */
  method Rimraf(n: Node, original: Option<Err>) returns (w: Walk)
    ensures w == RemoveDirectory(n, original)
  {
    hide RemoveAll, Resume, Reversed, FirstRoute, FirstCalls, Work;
    var trace: seq<Step>, first: Option<Err> := FirstCalls(n), None;
    match FirstRoute(n, original) {
      case Emptied => return Walk(trace, None);
      case Refused(e) => return Walk(trace, Some(e));
      case Children =>
    }
    var pending := [Frame(n, Reversed(n.kids), false)];
    StartFrame(n, original);
    while pending != []
      invariant Resume(pending, Walk(trace, first)) == RemoveDirectory(n, original)
      decreases Work(pending)
    {
      var frame := pending[|pending| - 1];
      var below := pending[..|pending| - 1];
      assert pending == below + [frame];
      if frame.remaining == [] {
        pending, trace, first := FinishTop(below, frame, trace, first);
      } else {
        pending, trace, first := RemoveNext(below, frame, trace, first);
      }
    }
    w := Walk(trace, first);
    ResumeEmpty(w);
  }

  datatype RemoveError = NativeError(err: Err) | DirectoryRefusal

  /** `_remove_sync`: validate the target by an `lstat` of its own, then classify it afresh and remove it.
      `validated` is what the validating call answers. */
  method RemoveSync(n: Node, validated: Reply, recursive: bool, force: bool)
    returns (trace: seq<Step>, raised: Option<RemoveError>)
    ensures var refused :=
        if validated.Fails? && !(force && validated.err == ENOENT) then Some(NativeError(validated.err))
        else if validated.IsDirectory? && !recursive then Some(DirectoryRefusal)
        else None;
      var removal := if refused.Some? then Walk([], None) else RemoveEntry(n);
      && trace == [Step(Lstat(n.path), validated)] + removal.trace
      && raised == (if removal.first.Some? then Some(NativeError(removal.first.value)) else refused)
  {
    hide RemoveDirectory, EntryRoute, EntryCalls;
    trace := [Step(Lstat(n.path), validated)];
    if validated.Fails? {
      if !(force && validated.err == ENOENT) {
        return trace, Some(NativeError(validated.err));
      }
    } else if validated.IsDirectory? && !recursive {
      return trace, Some(DirectoryRefusal);
    }
    trace := trace + EntryCalls(n);
    match EntryRoute(n) {
      case Settled => raised := None;
      case Failed(e) => raised := Some(NativeError(e));
      case Descend(original) =>
        var w := Rimraf(n, original);
        assert trace + w.trace == [Step(Lstat(n.path), validated)] + (EntryCalls(n) + w.trace);
        trace := trace + w.trace;
        raised := if w.first.Some? then Some(NativeError(w.first.value)) else None;
    }
  }
}
