/** Node's recursive `mkdir` walk. Paths are component sequences under a root that exists; other processes
    may create directories at any moment, or, in a quiet filesystem, do nothing. */
module RecursiveMkdir {
  import opened Options

  type Path = seq<string>

  datatype Kind = Directory | NonDirectory | Dangling

  datatype Err = EEXIST | ENOENT | ENOTDIR

  datatype Failure = Failure(err: Err, path: Path)

  type Entries = map<Path, Kind>

  /** The root is a directory, and whatever exists has directories all the way above it. */
  predicate WellFormed(e: Entries) {
    && [] in e && e[[]] == Directory
    && forall p, k :: p in e && 0 <= k < |p| ==> p[..k] in e && e[p[..k]] == Directory
  }

  /** How deep a path exists. */
  function Depth(e: Entries, p: Path): (k: nat)
    requires WellFormed(e)
    ensures k <= |p| && p[..k] in e
    ensures forall j :: k < j <= |p| ==> p[..j] !in e
    ensures forall j :: 0 <= j <= k ==> p[..j] in e
  {
    if p in e then
      assert p[..|p|] == p;
      |p|
    else
      assert p != [];
      var up := p[..|p| - 1];
      assert forall j :: 0 <= j < |p| ==> p[..j] == up[..j];
      assert p[..|p|] == p;
      Depth(e, up)
  }

  /** The deepest existing prefix is not a directory, so the path cannot be made one. */
  predicate Obstructed(e: Entries, p: Path)
    requires WellFormed(e)
  {
    e[p[..Depth(e, p)]] != Directory
  }

  /** What `mkdir` answers. Looking a name up through a non-directory is ENOTDIR or ENOENT by platform. */
  function MkdirError(e: Entries, p: Path, through: Err): Option<Err>
    requires WellFormed(e)
  {
    if p in e then Some(EEXIST)
    else
      var k := Depth(e, p);
      if e[p[..k]] == NonDirectory then Some(through)
      else if e[p[..k]] == Dangling || k < |p| - 1 then Some(ENOENT)
      else None
  }

  /** The failure of an obstructed walk: at the target itself, at once for a lookup that answers ENOTDIR,
      and otherwise at the obstruction, once the walk has come down to it. */
  function Refusal(e: Entries, p: Path, through: Err): Failure
    requires WellFormed(e) && Obstructed(e, p)
  {
    var k := Depth(e, p);
    if k == |p| then Failure(if e[p[..k]] == NonDirectory then EEXIST else ENOENT, p)
    else if e[p[..k]] == NonDirectory && through == ENOTDIR then Failure(ENOTDIR, p)
    else Failure(ENOTDIR, p[..k])
  }

  /** Prefixes of a path of lengths `from` to `to`, shortest first. */
  function Prefixes(p: Path, from: nat, to: nat): seq<Path>
    requires from <= to + 1 && to <= |p|
  {
    seq(to + 1 - from, i requires 0 <= i < to + 1 - from => p[..from + i])
  }

  function Made(e: Entries, ps: seq<Path>): Entries {
    if ps == [] then e else Made(e, ps[..|ps| - 1])[ps[|ps| - 1] := Directory]
  }

  /** Only directories were added. */
  predicate Grown(e: Entries, f: Entries) {
    && (forall p :: p in e ==> p in f && f[p] == e[p])
    && (forall p :: p in f && p !in e ==> f[p] == Directory)
  }

  lemma GrownTransitive(e: Entries, f: Entries, g: Entries)
    requires Grown(e, f) && Grown(f, g)
    ensures Grown(e, g)
  {
  }

  /** Growth keeps an obstruction where it is, and never makes a new one. */
  lemma GrownObstructed(e: Entries, f: Entries, p: Path)
    requires WellFormed(e) && WellFormed(f) && Grown(e, f)
    ensures Obstructed(e, p) <==> Obstructed(f, p)
    ensures Obstructed(e, p) ==> Depth(e, p) == Depth(f, p)
    ensures Depth(e, p) <= Depth(f, p)
  {
    var k, l := Depth(e, p), Depth(f, p);
    assert p[..k] in f;
    assert k <= l ==> p[..l][..k] == p[..k];
  }

  class FileSystem {
    var entries: Entries
    /** Nobody else changes it. */
    const quiet: bool
    /** What a lookup through a non-directory answers: ENOTDIR, or ENOENT. */
    const through: Err

    ghost predicate Valid()
      reads this
    {
      WellFormed(entries) && through != EEXIST
    }

    constructor (entries: Entries, quiet: bool, through: Err)
      requires WellFormed(entries) && through != EEXIST
      ensures Valid() && this.entries == entries && this.quiet == quiet && this.through == through
    {
      this.entries, this.quiet, this.through := entries, quiet, through;
    }

    // Other processes: in a filesystem that is not quiet, any directories may appear.
    method Others()
      requires Valid()
      modifies this
      ensures Valid() && Grown(old(entries), entries)
      ensures quiet ==> entries == old(entries)
    {
      var other: Entries := *;
      if !quiet && WellFormed(other) && Grown(entries, other) { entries := other; }
    }

    method Mkdir(p: Path) returns (err: Option<Err>)
      requires Valid()
      modifies this
      ensures Valid()
      ensures err == MkdirError(old(entries), p, through)
      ensures entries == if err.None? then old(entries)[p := Directory] else old(entries)
    {
      err := MkdirError(entries, p, through);
      if err.None? {
        MkdirKeeps(entries, p, through);
        entries := entries[p := Directory];
      }
    }
  }

  lemma MkdirKeeps(e: Entries, p: Path, through: Err)
    requires WellFormed(e) && MkdirError(e, p, through).None?
    ensures WellFormed(e[p := Directory]) && Grown(e, e[p := Directory]) && p !in e
    ensures p != [] && Depth(e, p) == |p| - 1 && !Obstructed(e, p)
  {
    var f := e[p := Directory];
    var k := Depth(e, p);
    assert p[..|p|] == p;
    assert p != [];
    forall q, j | q in f && 0 <= j < |q| ensures q[..j] in f && f[q[..j]] == Directory {
      if q == p && q !in e {
        assert j <= k;
        assert p[..k][..j] == p[..j];
      }
    }
  }

  // ---------------------------------------------------------------------------------------------
  // The walk
  // ---------------------------------------------------------------------------------------------

  /** The stack of a walk: the target at the bottom, one component less at each level. */
  predicate Descending(stack: seq<Path>, path: Path) {
    |stack| <= |path| + 1 && forall i :: 0 <= i < |stack| ==> stack[i] == path[..|path| - i]
  }

  /** Prefixes of the target, absent at the start and present now, each shorter than the next. */
  predicate ParentsFirst(created: seq<Path>, path: Path, start: Entries, now: Entries) {
    && (forall i :: 0 <= i < |created| ==> created[i] <= path && created[i] !in start && created[i] in now)
    && (forall i, j :: 0 <= i < j < |created| ==> |created[i]| < |created[j]|)
  }

  /** What a quiet walk has done so far: made every missing prefix down to the present depth. */
  predicate MadeSoFar(created: seq<Path>, path: Path, start: Entries, now: Entries)
    requires WellFormed(start) && WellFormed(now)
  {
    var from, to := Depth(start, path), Depth(now, path);
    from <= to && created == Prefixes(path, from + 1, to) && now == Made(start, created)
  }

  lemma MadeOneMore(created: seq<Path>, path: Path, start: Entries, now: Entries, k: nat)
    requires WellFormed(start) && WellFormed(now) && MadeSoFar(created, path, start, now)
    requires k == Depth(now, path) < |path|
    requires WellFormed(now[path[..k + 1] := Directory])
    ensures MadeSoFar(created + [path[..k + 1]], path, start, now[path[..k + 1] := Directory])
  {
    hide WellFormed, Depth, Made, Prefixes;
    DepthAfter(now, path, k + 1);
    PrefixesExtend(path, Depth(start, path) + 1, k);
    MadeExtends(start, created, path[..k + 1]);
  }

  lemma PrefixesExtend(p: Path, from: nat, to: nat)
    requires from <= to + 1 && to < |p|
    ensures Prefixes(p, from, to + 1) == Prefixes(p, from, to) + [p[..to + 1]]
  {
  }

  lemma MadeExtends(e: Entries, ps: seq<Path>, q: Path)
    ensures Made(e, ps + [q]) == Made(e, ps)[q := Directory]
  {
    assert (ps + [q])[..|ps|] == ps;
  }

  lemma DepthIs(e: Entries, p: Path, k: nat)
    requires WellFormed(e) && k <= |p| && p[..k] in e && (k < |p| ==> p[..k + 1] !in e)
    ensures Depth(e, p) == k
  {
    var d := Depth(e, p);
    assert k < |p| ==> p[..k + 1] !in e;
  }

  /** The prefix of a path exists as deep as the path does. */
  lemma DepthOfPrefix(e: Entries, p: Path, t: nat)
    requires WellFormed(e) && t <= |p|
    ensures Depth(e, p[..t]) == if Depth(e, p) <= t then Depth(e, p) else t
    ensures forall k :: 0 <= k <= t ==> p[..t][..k] == p[..k]
  {
    var d := if Depth(e, p) <= t then Depth(e, p) else t;
    assert forall k :: 0 <= k <= t ==> p[..t][..k] == p[..k];
    assert p[..t][..d] == p[..d];
    if d < t { assert p[..t][..d + 1] == p[..d + 1]; }
    DepthIs(e, p[..t], d);
  }

  /** What the call at depth `t` answers, in terms of how deep the whole path exists. */
  lemma MkdirAt(e: Entries, path: Path, t: nat, through: Err)
    requires WellFormed(e) && t <= |path| && through != EEXIST
    ensures var err := MkdirError(e, path[..t], through);
      var d := Depth(e, path);
      && (err == Some(EEXIST) <==> t <= d)
      && (err.None? <==> t == d + 1 && !Obstructed(e, path))
      && (t > d && Obstructed(e, path) && e[path[..d]] == NonDirectory ==> err == Some(through))
      && (t > d && Obstructed(e, path) && e[path[..d]] == Dangling ==> err == Some(ENOENT))
      && (t > d + 1 && !Obstructed(e, path) ==> err == Some(ENOENT))
  {
    DepthOfPrefix(e, path, t);
  }

  lemma PrefixKind(e: Entries, path: Path, t: nat)
    requires WellFormed(e) && t <= Depth(e, path)
    ensures path[..t] in e
    ensures t < Depth(e, path) ==> e[path[..t]] == Directory
  {
    var d := Depth(e, path);
    if t < d { assert path[..d][..t] == path[..t]; }
  }

  // Between two calls: the walk is at depth `t`, with a bound `w` on the prefixes still to appear.
  ghost predicate Going(start: Entries, now: Entries, path: Path, created: seq<Path>, t: int, w: int, fs: FileSystem) {
    && WellFormed(start) && WellFormed(now) && Grown(start, now) && 0 <= t <= |path| + 1 && fs.through != EEXIST
    && (Obstructed(start, path) ==>
          && created == [] && Depth(start, path) <= t <= |path|
          && (start[path[..Depth(start, path)]] == NonDirectory && fs.through == ENOTDIR ==> t == |path|))
    && (!Obstructed(start, path) ==> ParentsFirst(created, path, start, now))
    && (fs.quiet ==> MadeSoFar(created, path, start, now))
    && (t == |path| + 1 ==> Depth(now, path) == |path|)
    && w >= |path| - Depth(now, path)
    && (!Obstructed(start, path) && t < |path| ==> w > |path| - t)
  }

  lemma Begins(start: Entries, path: Path, fs: FileSystem)
    requires WellFormed(start) && fs.through != EEXIST
    ensures Going(start, start, path, [], |path|, |path| - Depth(start, path), fs)
  {
    hide Depth;
  }

  lemma StillThere(created: seq<Path>, path: Path, start: Entries, now: Entries, next: Entries)
    requires ParentsFirst(created, path, start, now) && Grown(now, next)
    ensures ParentsFirst(created, path, start, next)
  {
  }

  lemma OneMoreBelow(created: seq<Path>, path: Path, start: Entries, now: Entries, next: Entries, t: nat)
    requires WellFormed(now) && t == Depth(now, path) + 1 <= |path|
    requires ParentsFirst(created, path, start, now) && Grown(start, now) && Grown(now, next) && path[..t] in next
    ensures ParentsFirst(created + [path[..t]], path, start, next)
  {
    hide Depth, WellFormed;
    assert path[..t] !in now by { assert forall j :: t - 1 < j <= |path| ==> path[..j] !in now; }
    forall i | 0 <= i < |created| ensures |created[i]| < t {
      assert created[i] == path[..|created[i]|];
    }
  }

  lemma OthersKeep(start: Entries, now: Entries, next: Entries, path: Path, created: seq<Path>, t: int, w: int,
      fs: FileSystem)
    requires Going(start, now, path, created, t, w, fs)
    requires WellFormed(next) && Grown(now, next) && (fs.quiet ==> next == now)
    ensures Going(start, next, path, created, t, w, fs)
  {
    hide Depth, WellFormed, Obstructed, ParentsFirst, MadeSoFar, Grown;
    GrownTransitive(start, now, next);
    GrownObstructed(now, next, path);
    if !Obstructed(start, path) { StillThere(created, path, start, now, next); }
  }

  lemma Makes(start: Entries, now: Entries, path: Path, created: seq<Path>, t: int, w: int, fs: FileSystem)
    requires Going(start, now, path, created, t, w, fs) && t <= |path|
    requires MkdirError(now, path[..t], fs.through).None?
    ensures Going(start, now[path[..t] := Directory], path, created + [path[..t]], t + 1, |path| - t, fs)
    ensures 0 <= |path| - t < w
  {
    hide Depth, WellFormed, Obstructed, MadeSoFar, Grown, MkdirError, ParentsFirst;
    var next := now[path[..t] := Directory];
    MkdirAt(now, path, t, fs.through);
    MkdirKeeps(now, path[..t], fs.through);
    GrownTransitive(start, now, next);
    GrownObstructed(start, now, path);
    if fs.quiet { MadeOneMore(created, path, start, now, t - 1); }
    DepthAfter(now, path, t);
    OneMoreBelow(created, path, start, now, next, t);
  }

  lemma DepthAfter(e: Entries, path: Path, t: nat)
    requires WellFormed(e) && t <= |path| && t == Depth(e, path) + 1 && WellFormed(e[path[..t] := Directory])
    ensures Depth(e[path[..t] := Directory], path) == t
  {
    var next := e[path[..t] := Directory];
    assert t < |path| ==> |path[..t + 1]| == t + 1 && path[..t + 1] !in e;
    DepthIs(next, path, t);
  }

  lemma GoesDown(start: Entries, now: Entries, path: Path, created: seq<Path>, t: int, w: int, fs: FileSystem)
    requires Going(start, now, path, created, t, w, fs) && t <= |path|
    requires MkdirError(now, path[..t], fs.through) == Some(ENOENT)
    ensures t > 0 && Going(start, now, path, created, t - 1, w, fs)
  {
    hide Depth, WellFormed, Obstructed, MadeSoFar, Grown, MkdirError, ParentsFirst;
    MkdirAt(now, path, t, fs.through);
    GrownObstructed(start, now, path);
    if Obstructed(start, path) { KindKept(start, now, path); }
  }

  lemma KindKept(start: Entries, now: Entries, path: Path)
    requires WellFormed(start) && WellFormed(now) && Grown(start, now) && Obstructed(start, path)
    ensures now[path[..Depth(start, path)]] == start[path[..Depth(start, path)]] != Directory
  {
  }

  /** A lookup through a non-directory that answers ENOTDIR ends the walk at its first call. */
  lemma LooksThrough(start: Entries, now: Entries, path: Path, created: seq<Path>, t: int, w: int, fs: FileSystem)
    requires Going(start, now, path, created, t, w, fs) && t <= |path|
    requires MkdirError(now, path[..t], fs.through) == Some(ENOTDIR)
    ensures Obstructed(start, path) && created == []
    ensures Refusal(start, path, fs.through) == Failure(ENOTDIR, path[..t])
  {
    hide Depth, WellFormed, Obstructed, MadeSoFar, Grown, MkdirError, ParentsFirst;
    MkdirAt(now, path, t, fs.through);
    GrownObstructed(start, now, path);
    if Obstructed(start, path) { KindKept(start, now, path); }
    assert path[..|path|] == path;
  }

  /** A prefix that exists: a directory sends the walk back up, anything else is the obstruction. */
  lemma FindsThere(start: Entries, now: Entries, path: Path, created: seq<Path>, t: int, w: int, fs: FileSystem)
    requires Going(start, now, path, created, t, w, fs) && t <= |path|
    requires MkdirError(now, path[..t], fs.through) == Some(EEXIST)
    ensures path[..t] in now
    ensures now[path[..t]] == Directory ==> !Obstructed(start, path)
    ensures now[path[..t]] == Directory && t < |path| ==>
      Going(start, now, path, created, t + 1, |path| - t, fs) && 0 <= |path| - t < w
    ensures now[path[..t]] == Directory && t == |path| ==> Depth(now, path) == |path|
    ensures now[path[..t]] != Directory ==>
      var err := if t < |path| then ENOTDIR else if now[path[..t]] == Dangling then ENOENT else EEXIST;
      Obstructed(start, path) && created == [] && Refusal(start, path, fs.through) == Failure(err, path[..t])
  {
    hide Depth, WellFormed, MadeSoFar, Grown, MkdirError, ParentsFirst;
    MkdirAt(now, path, t, fs.through);
    GrownObstructed(start, now, path);
    PrefixKind(now, path, t);
    if Obstructed(start, path) { KindKept(start, now, path); }
    assert path[..|path|] == path;
  }

  lemma Finished(start: Entries, now: Entries, path: Path, created: seq<Path>, t: int, w: int, fs: FileSystem)
    requires Going(start, now, path, created, t, w, fs) && !Obstructed(start, path) && Depth(now, path) == |path|
    ensures path in now && now[path] == Directory && ParentsFirst(created, path, start, now)
    ensures fs.quiet ==> created == Prefixes(path, Depth(start, path) + 1, |path|)
  {
    hide Depth, WellFormed, ParentsFirst, Made, Prefixes;
    GrownObstructed(start, now, path);
    assert path[..|path|] == path;
  }

  /** `_node_mkdirp`. It fails exactly when a prefix of the path is not a directory, having made nothing;
      otherwise the path is a directory afterwards, what it made itself are missing prefixes, parents
      first, and in a quiet filesystem they are exactly the missing prefixes and nothing else changed. */
  method Mkdirp(fs: FileSystem, path: Path) returns (failure: Option<Failure>, created: seq<Path>)
    requires fs.Valid()
    modifies fs
    ensures fs.Valid() && Grown(old(fs.entries), fs.entries)
    ensures Obstructed(old(fs.entries), path) ==>
      failure == Some(Refusal(old(fs.entries), path, fs.through)) && created == []
    ensures !Obstructed(old(fs.entries), path) ==>
      && failure.None? && path in fs.entries && fs.entries[path] == Directory
      && ParentsFirst(created, path, old(fs.entries), fs.entries)
    ensures fs.quiet ==> fs.entries == Made(old(fs.entries), created)
    ensures fs.quiet && !Obstructed(old(fs.entries), path) ==>
      created == Prefixes(path, Depth(old(fs.entries), path) + 1, |path|)
  {
    hide Depth, MkdirError, Obstructed, WellFormed, Grown, MadeSoFar, ParentsFirst, Prefixes, Made, Refusal, Going;
    ghost var start := fs.entries;
    ghost var w := |path| - Depth(start, path);
    var stack := [path];
    assert path[..|path|] == path;
    created := [];
    Begins(start, path, fs);
    while stack != []
      invariant Descending(stack, path) && fs.Valid()
      invariant Going(start, fs.entries, path, created, |path| - |stack| + 1, w, fs)
      decreases w, |path| + 1 - |stack|
    {
      var current := stack[|stack| - 1];
      ghost var t := |path| - |stack| + 1;
      stack := stack[..|stack| - 1];
      ghost var entered := fs.entries;
      fs.Others();
      ghost var now := fs.entries;
      OthersKeep(start, entered, now, path, created, t, w, fs);
      var err := fs.Mkdir(current);
      if err.None? {
        Makes(start, now, path, created, t, w, fs);
        created := created + [current];
        w := |path| - t;
        continue;
      }
      if err.value == ENOTDIR {
        LooksThrough(start, now, path, created, t, w, fs);
        Ends(start, now, path, created, t, w, fs);
        return Some(Failure(ENOTDIR, current)), created;
      }
      if err.value == ENOENT {
        // A root that exists is never reported missing, so the path has a parent to go down to.
        GoesDown(start, now, path, created, t, w, fs);
        var dirname := current[..|current| - 1];
        stack := stack + [current, dirname];
        continue;
      }
      var intermediate := stack != [];
      fs.Others();
      ghost var later := fs.entries;
      OthersKeep(start, now, later, path, created, t, w, fs);
      StillExists(now, later, path, t, fs);
      FindsThere(start, later, path, created, t, w, fs);
      Ends(start, later, path, created, t, w, fs);
      if fs.entries[current] == Dangling {
        return Some(Failure(if intermediate then ENOTDIR else ENOENT, current)), created;
      }
      if fs.entries[current] == Directory {
        if intermediate {
          w := |path| - t;
          continue;
        }
        Finished(start, later, path, created, t, w, fs);
        return None, created;
      }
      return Some(Failure(if intermediate then ENOTDIR else EEXIST, current)), created;
    }
    ReachedTop(start, fs.entries, path, created, w, fs);
    Ends(start, fs.entries, path, created, |path| + 1, w, fs);
    Finished(start, fs.entries, path, created, |path| + 1, w, fs);
    failure := None;
  }

  lemma ReachedTop(start: Entries, now: Entries, path: Path, created: seq<Path>, w: int, fs: FileSystem)
    requires Going(start, now, path, created, |path| + 1, w, fs)
    ensures !Obstructed(start, path) && Depth(now, path) == |path|
  {
    hide Depth, Obstructed, WellFormed, Grown, MadeSoFar, ParentsFirst;
  }

  lemma StillExists(now: Entries, next: Entries, path: Path, t: nat, fs: FileSystem)
    requires WellFormed(now) && WellFormed(next) && Grown(now, next) && t <= |path| && fs.through != EEXIST
    requires MkdirError(now, path[..t], fs.through) == Some(EEXIST)
    ensures MkdirError(next, path[..t], fs.through) == Some(EEXIST)
  {
    hide MkdirError, WellFormed, Depth;
    MkdirAt(now, path, t, fs.through);
    MkdirAt(next, path, t, fs.through);
    GrownObstructed(now, next, path);
  }

  lemma Ends(start: Entries, now: Entries, path: Path, created: seq<Path>, t: int, w: int, fs: FileSystem)
    requires Going(start, now, path, created, t, w, fs)
    ensures WellFormed(start) && Grown(start, now)
    ensures fs.quiet ==> now == Made(start, created)
  {
    hide Depth, WellFormed, Grown, ParentsFirst, Made, Prefixes;
  }
}
