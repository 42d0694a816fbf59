/** Node's `path.win32.resolve`: the root of one argument, the right-to-left scan with its lazy reads of the
    host, and the two-phase definition it computes. */
module WinResolve {
  import opened Utf16
  import opened WinNormalize
  import opened Options

  const COLON: Unit := 0x3A

  /** What a path's own text fixes: its device, where its root ends, and whether it is absolute. */
  datatype Root = Root(device: Text, end: nat, absolute: bool)

  // ---------------------------------------------------------------------------------------------
  // The root of one path
  // ---------------------------------------------------------------------------------------------

  predicate IsLetter(c: Unit) {
    0x41 <= c <= 0x5A || 0x61 <= c <= 0x7A
  }

  /** `\\server\share`. */
  function Unc(server: Text, share: Text): Text {
    [BACKSLASH, BACKSLASH] + server + [BACKSLASH] + share
  }

  predicate Segment(s: Text) {
    s != [] && NoSeparator(s)
  }

  predicate IsUnc(device: Text) {
    exists k :: 2 < k < |device| && SplitsAt(device, k)
  }

  predicate SplitsAt(device: Text, k: nat)
    requires 2 < k < |device|
  {
    device == Unc(device[2..k], device[k + 1..]) && Segment(device[2..k]) && Segment(device[k + 1..])
  }

  predicate IsDrive(device: Text) {
    |device| == 2 && IsLetter(device[0]) && device[1] == COLON
  }

  predicate IsDevice(device: Text) {
    IsDrive(device) || IsUnc(device)
  }

  /** The end of the longest run from `j` of units that are, or are not, separators. */
  function RunEnd(path: Text, j: nat, separators: bool): (k: nat)
    requires j <= |path|
    ensures j <= k <= |path|
    ensures forall i :: j <= i < k ==> IsSeparator(path[i]) == separators
    ensures k < |path| ==> IsSeparator(path[k]) != separators
    decreases |path| - j
  {
    if j < |path| && IsSeparator(path[j]) == separators then RunEnd(path, j + 1, separators) else j
  }

  /** A UNC root: two separators, a server, separators, a share; or none of it. */
  function UncRoot(path: Text): Root
    requires |path| >= 2
  {
    var a := RunEnd(path, 2, false);
    var b := RunEnd(path, a, true);
    if a == 2 || b == |path| then Root([], 0, true)
    else Root(Unc(path[2..a], path[b..RunEnd(path, b, false)]), RunEnd(path, b, false), true)
  }

  function RootOf(path: Text): (r: Root)
    ensures r.end <= |path|
  {
    if path == [] then Root([], 0, false)
    else if IsSeparator(path[0]) then
      if |path| == 1 || !IsSeparator(path[1]) then Root([], 1, true) else UncRoot(path)
    else if |path| >= 2 && IsLetter(path[0]) && path[1] == COLON then
      if |path| > 2 && IsSeparator(path[2]) then Root(path[..2], 3, true) else Root(path[..2], 2, false)
    else Root([], 0, false)
  }

  /** `_win32_root`, with its three loops. */
  method Win32Root(path: Text) returns (root: Root)
    ensures root == RootOf(path)
  {
    if |path| == 0 { return Root([], 0, false); }
    if |path| == 1 { return if IsSeparator(path[0]) then Root([], 1, true) else Root([], 0, false); }
    if IsSeparator(path[0]) {
      if !IsSeparator(path[1]) { return Root([], 1, true); }
      var j, last := 2, 2;
      while j < |path| && !IsSeparator(path[j])
        invariant 2 <= j <= |path| && RunEnd(path, j, false) == RunEnd(path, 2, false)
      { j := j + 1; }
      if j < |path| && j != last {
        var first := path[last..j];
        last := j;
        while j < |path| && IsSeparator(path[j])
          invariant last <= j <= |path| && RunEnd(path, j, true) == RunEnd(path, last, true)
        { j := j + 1; }
        if j < |path| && j != last {
          last := j;
          while j < |path| && !IsSeparator(path[j])
            invariant last <= j <= |path| && RunEnd(path, j, false) == RunEnd(path, last, false)
          { j := j + 1; }
          if j == |path| || j != last {
            return Root(Unc(first, path[last..j]), j, true);
          }
        }
      }
      return Root([], 0, true);
    }
    if IsLetter(path[0]) && path[1] == COLON {
      if |path| > 2 && IsSeparator(path[2]) { return Root(path[..2], 3, true); }
      return Root(path[..2], 2, false);
    }
    return Root([], 0, false);
  }

  /** Whatever text a path has, its device is empty, a drive or a UNC share. */
  lemma RootDevice(path: Text)
    ensures RootOf(path).device == [] || IsDevice(RootOf(path).device)
  {
    if |path| >= 2 && IsSeparator(path[0]) && IsSeparator(path[1]) {
      var a := RunEnd(path, 2, false);
      var b := RunEnd(path, a, true);
      if a != 2 && b != |path| {
        var device := RootOf(path).device;
        var server, share := path[2..a], path[b..RunEnd(path, b, false)];
        assert device[2..a] == server && device[a + 1..] == share;
        assert SplitsAt(device, a);
      }
    }
  }

  lemma RunEndIs(path: Text, j: nat, separators: bool, k: nat)
    requires j <= k <= |path|
    requires forall i :: j <= i < k ==> IsSeparator(path[i]) == separators
    requires k < |path| ==> IsSeparator(path[k]) != separators
    ensures RunEnd(path, j, separators) == k
  {
    var r := RunEnd(path, j, separators);
    assert !(r < k) && !(k < r);
  }

  /** What the text after a root is: `tail`, up to one leading separator. */
  predicate ReadsBack(path: Text, device: Text, tail: Text) {
    var root := RootOf(path);
    root.device == device && root.absolute && (path[root.end..] == tail || path[root.end..] == [BACKSLASH] + tail)
  }

  /** A path laid out as a share: two separators, a server up to `a`, separators up to `b`, a share to `end`. */
  lemma UncLaidOut(path: Text, a: nat, b: nat, end: nat)
    requires 2 < a < b < end <= |path| && Segment(path[2..a]) && Segment(path[b..end])
    requires IsSeparator(path[0]) && IsSeparator(path[1]) && (end < |path| ==> IsSeparator(path[end]))
    requires forall i :: a <= i < b ==> IsSeparator(path[i])
    ensures RootOf(path) == Root(Unc(path[2..a], path[b..end]), end, true)
  {
    hide RunEnd, Unc;
    assert forall i :: 2 <= i < a ==> path[i] == path[2..a][i - 2];
    assert forall i :: b <= i < end ==> path[i] == path[b..end][i - b];
    RunEndIs(path, 2, false, a);
    RunEndIs(path, a, true, b);
    RunEndIs(path, b, false, end);
  }

  /** A path laid out in any other way: two separators without both names are a root without a device; one
      separator is a root; a letter and a colon are a drive, with a root if a separator follows; anything
      else is relative. */
  lemma OtherwiseLaidOut(path: Text)
    ensures |path| >= 2 && IsSeparator(path[0]) && IsSeparator(path[1]) && NoTwoNames(path) ==>
      RootOf(path) == Root([], 0, true)
    ensures path != [] && IsSeparator(path[0]) && (|path| == 1 || !IsSeparator(path[1])) ==>
      RootOf(path) == Root([], 1, true)
    ensures |path| >= 2 && IsLetter(path[0]) && path[1] == COLON ==>
      RootOf(path) == if |path| > 2 && IsSeparator(path[2]) then Root(path[..2], 3, true) else Root(path[..2], 2, false)
    ensures path == [] || (!IsSeparator(path[0]) && !(|path| >= 2 && IsLetter(path[0]) && path[1] == COLON)) ==>
      RootOf(path) == Root([], 0, false)
  {
    if |path| >= 2 && IsSeparator(path[0]) && IsSeparator(path[1]) {
      var a := RunEnd(path, 2, false);
      var b := RunEnd(path, a, true);
      if a != 2 && b != |path| { assert !NoTwoNames(path); }
    }
  }

  /** After the two separators there are not two names with separators between them. */
  predicate NoTwoNames(path: Text) {
    forall i, j :: 2 <= i < j < |path| && IsSeparator(path[i]) && !IsSeparator(path[j]) ==>
      |path| > 2 && IsSeparator(path[2])
  }

  lemma UncReadsBack(server: Text, share: Text, tail: Text)
    requires Segment(server) && Segment(share)
    ensures ReadsBack(Unc(server, share) + [BACKSLASH] + tail, Unc(server, share), tail)
  {
    hide RootOf;
    var path := Unc(server, share) + [BACKSLASH] + tail;
    var a := 2 + |server|;
    var end := a + 1 + |share|;
    assert path[0] == path[1] == path[a] == path[end] == BACKSLASH;
    assert path[2..a] == server;
    assert path[a + 1..end] == share;
    assert path[end..] == [BACKSLASH] + tail;
    UncLaidOut(path, a, a + 1, end);
  }

  lemma DriveReadsBack(device: Text, tail: Text)
    requires IsDrive(device)
    ensures ReadsBack(device + [BACKSLASH] + tail, device, tail)
  {
    hide UncRoot;
    var path := device + [BACKSLASH] + tail;
    assert path[3..] == tail && path[..2] == device;
  }

  lemma RootedReadsBack(tail: Text)
    requires tail != [] ==> !IsSeparator(tail[0])
    ensures ReadsBack([BACKSLASH] + tail, [], tail)
  {
    hide UncRoot;
    var path := [BACKSLASH] + tail;
    assert path[1..] == tail;
  }

  /** A device followed by a separator reads back as that device, absolute, with the rest after it. */
  lemma RootReadsBack(device: Text, tail: Text)
    requires device == [] || IsDevice(device)
    requires device == [] && tail != [] ==> !IsSeparator(tail[0])
    ensures ReadsBack(device + [BACKSLASH] + tail, device, tail)
  {
    hide ReadsBack, Unc, Segment;
    if device == [] {
      RootedReadsBack(tail);
      assert device + [BACKSLASH] == [BACKSLASH];
    } else if IsDrive(device) {
      DriveReadsBack(device, tail);
    } else {
      var k :| 2 < k < |device| && SplitsAt(device, k);
      UncReadsBack(device[2..k], device[k + 1..], tail);
    }
  }

  // ---------------------------------------------------------------------------------------------
  // The two-phase definition
  // ---------------------------------------------------------------------------------------------

  /** The host: the inherited per-drive entry, the process directory, and the library's case folding. */
  datatype Host = Host(inherited: Text -> Option<Text>, cwd: Text, lower: Text -> Text)

  datatype Read = ReadInherited(device: Text) | ReadCwd

  /** The device of the rightmost path that has one; empty when none has. */
  function DeviceOf(paths: seq<Text>): Text {
    if paths == [] then []
    else if DeviceOf(paths[1..]) != [] then DeviceOf(paths[1..])
    else RootOf(paths[0]).device
  }

  /** A path takes part unless it names another device. */
  predicate TakesPart(path: Text, device: Text, host: Host) {
    RootOf(path).device == [] || host.lower(RootOf(path).device) == host.lower(device)
  }

  datatype Gathered = Gathered(tail: Text, absolute: bool)

  // One more path on the left of those gathered: ignored once an absolute one was seen.
  function Prepend(path: Text, device: Text, host: Host, g: Gathered): Gathered {
    if g.absolute || !TakesPart(path, device, host) then g
    else Gathered(path[RootOf(path).end..] + [BACKSLASH] + g.tail, RootOf(path).absolute)
  }

  /** The text from the rightmost absolute path that takes part, to the end. */
  function Gather(paths: seq<Text>, device: Text, host: Host): Gathered {
    if paths == [] then Gathered([], false)
    else
      var g := Gather(paths[1..], device, host);
      if paths[0] == [] then g else Prepend(paths[0], device, host, g)
  }

  /** The base for a device no argument made absolute: its inherited entry if not empty, else the process
      directory; the drive root instead when that is on another device by its first two units and has a
      backslash third. */
  function DriveBase(device: Text, host: Host): Text {
    var entry := host.inherited(device);
    var path := if entry.Some? && entry.value != [] then entry.value else host.cwd;
    var firstTwo := if |path| < 2 then path else path[..2];
    if host.lower(firstTwo) != host.lower(device) && |path| > 2 && path[2] == BACKSLASH then device + [BACKSLASH]
    else path
  }

  function BaseOf(device: Text, host: Host): Text {
    if device == [] then host.cwd else DriveBase(device, host)
  }

  /** The device of the whole resolution. */
  function FinalDevice(paths: seq<Text>, host: Host): Text {
    if DeviceOf(paths) != [] then DeviceOf(paths) else RootOf(host.cwd).device
  }

  function GatherAll(paths: seq<Text>, host: Host): Gathered {
    var device := FinalDevice(paths, host);
    Prepend(BaseOf(DeviceOf(paths), host), device, host, Gather(paths, device, host))
  }

  function Written(device: Text, g: Gathered): Text {
    var tail := Normalized(g.tail, !g.absolute);
    if g.absolute then device + [BACKSLASH] + tail
    else if device + tail == [] then [DOT]
    else device + tail
  }

  /** First the device, then everything after the last absolute path on it, then normalization. */
  function Resolved(paths: seq<Text>, host: Host): Text {
    Written(FinalDevice(paths, host), GatherAll(paths, host))
  }

  /** The arguments alone fix a device and an absolute path on it. */
  predicate Fixed(paths: seq<Text>, host: Host) {
    && DeviceOf(paths) != []
    && exists k :: 0 <= k < |paths| && RootOf(paths[k]).absolute && TakesPart(paths[k], DeviceOf(paths), host)
  }

  lemma {:induction false} GatherAbsolute(paths: seq<Text>, device: Text, host: Host)
    ensures Gather(paths, device, host).absolute <==>
      exists k :: 0 <= k < |paths| && RootOf(paths[k]).absolute && TakesPart(paths[k], device, host)
  {
    hide RootOf, TakesPart;
    if paths != [] {
      GatherAbsolute(paths[1..], device, host);
      assert forall k :: 0 < k < |paths| ==> paths[k] == paths[1..][k - 1];
      assert RootOf([]) == Root([], 0, false) by { RootEmpty(); }
      assert paths == [paths[0]] + paths[1..];
    }
  }

  lemma RootEmpty()
    ensures RootOf([]) == Root([], 0, false)
  {
  }

  /** Without any device among them, all paths take part, whatever the device turns out to be. */
  lemma {:induction false} GatherNoDevice(paths: seq<Text>, device: Text, device': Text, host: Host)
    requires DeviceOf(paths) == []
    ensures Gather(paths, device, host) == Gather(paths, device', host)
  {
    hide RootOf;
    if paths != [] { GatherNoDevice(paths[1..], device, device', host); }
  }

  // Once a device and an absolute path are known, nothing further left matters.
  lemma {:induction false} GatherStops(front: seq<Text>, back: seq<Text>, host: Host)
    requires DeviceOf(back) != [] && Gather(back, DeviceOf(back), host).absolute
    ensures DeviceOf(front + back) == DeviceOf(back)
    ensures Gather(front + back, DeviceOf(back), host) == Gather(back, DeviceOf(back), host)
  {
    hide RootOf, TakesPart;
    if front == [] {
      assert front + back == back;
    } else {
      assert (front + back)[1..] == front[1..] + back;
      GatherStops(front[1..], back, host);
    }
  }

  // ---------------------------------------------------------------------------------------------
  // The scan
  // ---------------------------------------------------------------------------------------------

  predicate HasEntry(device: Text, host: Host) {
    host.inherited(device).Some? && host.inherited(device).value != []
  }

  /** The inherited entry first, and the process directory only when there is no such entry or it is empty. */
  function DriveReads(device: Text, host: Host): seq<Read> {
    if HasEntry(device, host) then [ReadInherited(device)]
    else [ReadInherited(device), ReadCwd]
  }

  /** `_select_drive_base`, with the host reads it makes. */
  method SelectDriveBase(device: Text, host: Host) returns (path: Text, consulted: seq<Read>)
    ensures path == DriveBase(device, host)
    ensures consulted == DriveReads(device, host)
  {
    var entry := host.inherited(device);
    consulted := [ReadInherited(device)];
    if entry.Some? && entry.value != [] {
      path := entry.value;
    } else {
      path := host.cwd;
      consulted := consulted + [ReadCwd];
    }
    var firstTwo := if |path| < 2 then path else path[..2];
    if host.lower(firstTwo) != host.lower(device) && |path| > 2 && path[2] == BACKSLASH {
      path := device + [BACKSLASH];
    }
  }

  /** The scan's three variables. */
  datatype Scan = Scan(device: Text, tail: Text, absolute: bool)

  // What the loop body does with one path.
  function Take(s: Scan, path: Text, host: Host): Scan {
    var root := RootOf(path);
    if root.device != [] && s.device != [] && host.lower(root.device) != host.lower(s.device) then s
    else
      var device := if root.device != [] && s.device == [] then root.device else s.device;
      if s.absolute then s.(device := device) else Scan(device, path[root.end..] + [BACKSLASH] + s.tail, root.absolute)
  }

  predicate Scanned(paths: seq<Text>, host: Host, s: Scan) {
    s.device == DeviceOf(paths) && Gathered(s.tail, s.absolute) == Gather(paths, s.device, host)
  }

  lemma ScanStart(host: Host)
    ensures Scanned([], host, Scan([], [], false))
  {
  }

  lemma ScanStep(paths: seq<Text>, host: Host, s: Scan)
    requires paths != [] && Scanned(paths[1..], host, s)
    ensures Scanned(paths, host, if paths[0] == [] then s else Take(s, paths[0], host))
  {
    hide RootOf;
    RootEmpty();
    if s.device == [] { GatherNoDevice(paths[1..], [], RootOf(paths[0]).device, host); }
  }

  predicate Final(paths: seq<Text>, host: Host, s: Scan) {
    s.device == FinalDevice(paths, host) && Gathered(s.tail, s.absolute) == GatherAll(paths, host)
  }

  function ReadsOf(paths: seq<Text>, host: Host): seq<Read> {
    if Fixed(paths, host) then []
    else if DeviceOf(paths) == [] then [ReadCwd]
    else DriveReads(DeviceOf(paths), host)
  }

  // The scan has taken every argument from `i` on.
  predicate ScannedFrom(paths: seq<Text>, i: int, host: Host, s: Scan) {
    0 <= i <= |paths| && Scanned(paths[i..], host, s)
  }

  lemma ScanFromEnd(paths: seq<Text>, host: Host)
    ensures ScannedFrom(paths, |paths|, host, Scan([], [], false))
  {
    assert paths[|paths|..] == [];
    ScanStart(host);
  }

  lemma ScanOne(paths: seq<Text>, i: nat, host: Host, s: Scan)
    requires i < |paths| && ScannedFrom(paths, i + 1, host, s)
    ensures ScannedFrom(paths, i, host, if paths[i] == [] then s else Take(s, paths[i], host))
  {
    hide Scanned, Take;
    assert paths[i..][1..] == paths[i + 1..];
    ScanStep(paths[i..], host, s);
  }

  lemma ScanStops(paths: seq<Text>, i: nat, host: Host, s: Scan)
    requires ScannedFrom(paths, i, host, s) && s.device != [] && s.absolute
    ensures Final(paths, host, s) && ReadsOf(paths, host) == []
  {
    hide RootOf, TakesPart, DeviceOf, Gather, DriveBase;
    assert paths == paths[..i] + paths[i..];
    GatherStops(paths[..i], paths[i..], host);
    GatherAbsolute(paths, s.device, host);
  }

  lemma ScanBase(paths: seq<Text>, host: Host, s: Scan)
    requires ScannedFrom(paths, 0, host, s) && !(s.device != [] && s.absolute)
    ensures Final(paths, host, Take(s, BaseOf(s.device, host), host))
    ensures !Fixed(paths, host)
    ensures ReadsOf(paths, host) == if s.device == [] then [ReadCwd] else DriveReads(s.device, host)
  {
    hide RootOf, DeviceOf, Gather, DriveBase, DriveReads;
    assert paths[0..] == paths;
    GatherAbsolute(paths, s.device, host);
    if s.device == [] { GatherNoDevice(paths, [], RootOf(host.cwd).device, host); }
  }

  // The loop body, on one path.
  method TakePath(device: Text, tail: Text, absolute: bool, path: Text, host: Host) returns (d: Text, t: Text, a: bool)
    ensures Scan(d, t, a) == Take(Scan(device, tail, absolute), path, host)
  {
    hide RootOf;
    d, t, a := device, tail, absolute;
    var root := Win32Root(path);
    if root.device != [] {
      if d != [] {
        if host.lower(root.device) != host.lower(d) { return; }
      } else {
        d := root.device;
      }
    }
    if !a {
      t := path[root.end..] + [BACKSLASH] + t;
      a := root.absolute;
    }
  }

  // The base, read from the host only when the arguments left something open.
  method ReadBase(device: Text, host: Host) returns (path: Text, consulted: seq<Read>)
    ensures path == BaseOf(device, host)
    ensures consulted == if device == [] then [ReadCwd] else DriveReads(device, host)
  {
    if device == [] {
      path, consulted := host.cwd, [ReadCwd];
    } else {
      path, consulted := SelectDriveBase(device, host);
    }
  }

  /** `node_win32_resolve`: one right-to-left pass that stops as soon as device and absoluteness are known. */
  method Resolve(paths: seq<Text>, host: Host) returns (result: Text, consulted: seq<Read>)
    ensures result == Resolved(paths, host)
    ensures consulted == ReadsOf(paths, host)
  {
    hide RootOf, TakesPart, DeviceOf, Gather, Written, BaseOf, DriveReads;
    hide ReadsOf, Normalized, ScannedFrom, Final, GatherAll, FinalDevice, Take;
    var device, tail, absolute := [], [], false;
    consulted := [];
    var i := |paths| - 1;
    ScanFromEnd(paths, host);
    while i >= -1
      invariant -2 <= i < |paths|
      invariant i >= -1 ==>
        consulted == [] && ScannedFrom(paths, i + 1, host, Scan(device, tail, absolute)) && !(device != [] && absolute)
      invariant i == -2 ==> Final(paths, host, Scan(device, tail, absolute)) && consulted == ReadsOf(paths, host)
    {
      ghost var s := Scan(device, tail, absolute);
      var path;
      if i >= 0 {
        path := paths[i];
        ScanOne(paths, i, host, s);
        if path == [] {
          i := i - 1;
          continue;
        }
      } else {
        ScanBase(paths, host, s);
        path, consulted := ReadBase(device, host);
      }
      device, tail, absolute := TakePath(device, tail, absolute, path, host);
      if absolute && device != [] {
        if i >= 0 { ScanStops(paths, i, host, Scan(device, tail, absolute)); }
        break;
      }
      i := i - 1;
    }
    FinalMeans(paths, host, Scan(device, tail, absolute));
    result := Write(device, tail, absolute);
  }

  method Write(device: Text, tail: Text, absolute: bool) returns (result: Text)
    ensures result == Written(device, Gathered(tail, absolute))
  {
    hide Normalized;
    var normal := NormalizeString(tail, !absolute);
    if absolute {
      result := device + [BACKSLASH] + normal;
    } else {
      result := if device + normal != [] then device + normal else [DOT];
    }
  }

  lemma FinalMeans(paths: seq<Text>, host: Host, s: Scan)
    requires Final(paths, host, s)
    ensures s.device == FinalDevice(paths, host) && Gathered(s.tail, s.absolute) == GatherAll(paths, host)
  {
  }

  // ---------------------------------------------------------------------------------------------
  // What resolving promises
  // ---------------------------------------------------------------------------------------------

  /** Each host value is read at most once, and neither when the arguments fix the result. */
  lemma ReadsAtMostOnce(paths: seq<Text>, host: Host)
    ensures var consulted := ReadsOf(paths, host);
      && |consulted| <= 2
      && (consulted == [] <==> Fixed(paths, host))
      && (forall i, j :: 0 <= i < j < |consulted| ==> consulted[i] != consulted[j])
      && (forall i :: 0 <= i < |consulted| && consulted[i].ReadInherited? ==>
            i == 0 && consulted[i].device == DeviceOf(paths))
      && ((exists i :: 0 <= i < |consulted| && consulted[i] == ReadCwd) <==>
          !Fixed(paths, host) && (DeviceOf(paths) == [] || !HasEntry(DeviceOf(paths), host)))
  {
    hide Fixed, DeviceOf;
    var consulted := ReadsOf(paths, host);
    if !Fixed(paths, host) {
      if DeviceOf(paths) == [] || !HasEntry(DeviceOf(paths), host) {
        assert consulted[|consulted| - 1] == ReadCwd;
      } else {
        assert consulted == [ReadInherited(DeviceOf(paths))];
      }
    }
  }

  predicate Rightmost(paths: seq<Text>, k: nat)
    requires k < |paths|
  {
    RootOf(paths[k]).device == DeviceOf(paths) && forall i :: k < i < |paths| ==> RootOf(paths[i]).device == []
  }

  /** The device is that of the rightmost argument that has one. */
  lemma {:induction false} DeviceIsRightmost(paths: seq<Text>)
    ensures DeviceOf(paths) == [] <==> forall i :: 0 <= i < |paths| ==> RootOf(paths[i]).device == []
    ensures DeviceOf(paths) != [] ==> IsDevice(DeviceOf(paths)) && exists k :: 0 <= k < |paths| && Rightmost(paths, k)
  {
    hide RootOf, IsDevice;
    if paths != [] {
      DeviceIsRightmost(paths[1..]);
      RootDevice(paths[0]);
      assert forall k :: 0 < k < |paths| ==> paths[k] == paths[1..][k - 1];
      if DeviceOf(paths[1..]) != [] {
        var k :| 0 <= k < |paths[1..]| && Rightmost(paths[1..], k);
        assert Rightmost(paths, k + 1);
      } else if RootOf(paths[0]).device != [] {
        assert Rightmost(paths, 0);
      }
    }
  }

  /** Every absolute result is a fixed point: one with a device whatever the host says then, and one without
      as long as the process directory has none. */
  lemma ResolveIdempotent(paths: seq<Text>, host: Host, later: Host)
    requires GatherAll(paths, host).absolute
    requires FinalDevice(paths, host) == [] ==> RootOf(later.cwd).device == []
    ensures Resolved([Resolved(paths, host)], later) == Resolved(paths, host)
  {
    hide GatherAll, RootOf, Normalized, IsDevice, DeviceOf, Gather, ReadsBack;
    var device, g := FinalDevice(paths, host), GatherAll(paths, host);
    var tail := Normalized(g.tail, false);
    var r := Resolved(paths, host);
    assert r == device + [BACKSLASH] + tail;
    DeviceIsRightmost(paths);
    RootDevice(host.cwd);
    NormalizedStart(g.tail);
    NormalizeIdempotent(g.tail, false);
    RootReadsBack(device, tail);
    ResolveOne(r, device, tail, later);
  }

  /** A normalized path below a root does not begin with a separator. */
  lemma NormalizedStart(s: Text)
    ensures var n := Normalized(s, false); n != [] ==> !IsSeparator(n[0])
  {
    hide Split, Folded, Join, Canonical;
    NormalizeIdempotent(s, false);
    JoinStart(Folded(Split(s), false));
  }

  lemma {:induction false} JoinStart(segs: seq<Text>)
    requires Canonical(segs, false)
    ensures Join(segs) != [] ==> !IsSeparator(Join(segs)[0])
  {
    if segs != [] {
      assert Named(segs[0]);
      if |segs| > 1 {
        JoinStart(segs[..|segs| - 1]);
        CanonicalNamed(segs, false);
        JoinNonempty(segs[..|segs| - 1]);
      }
    }
  }

  lemma ResolveOne(r: Text, device: Text, tail: Text, host: Host)
    requires ReadsBack(r, device, tail) && r != []
    requires device == [] ==> RootOf(host.cwd).device == []
    requires Normalized(tail, false) == tail
    ensures Resolved([r], host) == device + [BACKSLASH] + tail
  {
    hide RootOf, Normalized, DriveBase;
    assert [r][1..] == [];
    assert DeviceOf([]) == [] && Gather([], device, host) == Gathered([], false);
    assert DeviceOf([r]) == device;
    var rest := r[RootOf(r).end..];
    var g := Gather([r], device, host);
    assert g == Gathered(rest + [BACKSLASH] + [], true);
    assert g == Gathered(rest + [BACKSLASH], true) by { assert rest + [BACKSLASH] + [] == rest + [BACKSLASH]; }
    NormalizedTrims(rest, false);
    NormalizedTrims(tail, false);
  }

  // ---------------------------------------------------------------------------------------------
  // What the arguments contribute
  // ---------------------------------------------------------------------------------------------

  /** A path that only goes on from another: no device, no root. */
  predicate Relative(path: Text) {
    path != [] && RootOf(path).device == [] && !RootOf(path).absolute
  }

  lemma RelativeWhole(path: Text)
    requires Relative(path)
    ensures RootOf(path).end == 0
  {
  }

  lemma {:induction false} DeviceLast(paths: seq<Text>, r: Text)
    requires Relative(r)
    ensures DeviceOf(paths + [r]) == DeviceOf(paths)
  {
    hide RootOf;
    if paths == [] {
      assert (paths + [r])[1..] == [];
    } else {
      assert (paths + [r])[1..] == paths[1..] + [r];
      DeviceLast(paths[1..], r);
    }
  }

  lemma {:induction false} GatherLast(paths: seq<Text>, r: Text, device: Text, host: Host)
    requires Relative(r)
    ensures var g := Gather(paths, device, host);
      Gather(paths + [r], device, host) == Gathered(g.tail + r + [BACKSLASH], g.absolute)
  {
    hide RootOf;
    if paths == [] {
      RelativeWhole(r);
      assert (paths + [r])[1..] == [];
      assert r[0..] + [BACKSLASH] + [] == [] + r + [BACKSLASH];
    } else {
      assert (paths + [r])[1..] == paths[1..] + [r];
      GatherLast(paths[1..], r, device, host);
      PrependMore(paths[0], device, host, Gather(paths[1..], device, host), r + [BACKSLASH]);
      var g := Gather(paths[1..], device, host);
      assert g.tail + (r + [BACKSLASH]) == g.tail + r + [BACKSLASH];
      var h := Gather(paths, device, host);
      assert h.tail + (r + [BACKSLASH]) == h.tail + r + [BACKSLASH];
    }
  }

  lemma PrependMore(path: Text, device: Text, host: Host, g: Gathered, more: Text)
    ensures var h := Prepend(path, device, host, g);
      Prepend(path, device, host, Gathered(g.tail + more, g.absolute)) == Gathered(h.tail + more, h.absolute)
  {
    hide RootOf, TakesPart;
    var rest := path[RootOf(path).end..];
    assert rest + [BACKSLASH] + (g.tail + more) == rest + [BACKSLASH] + g.tail + more;
  }

  lemma {:induction false} GatherEnds(paths: seq<Text>, device: Text, host: Host)
    ensures var t := Gather(paths, device, host).tail; t == [] || t[|t| - 1] == BACKSLASH
  {
    hide RootOf, TakesPart;
    if paths != [] { GatherEnds(paths[1..], device, host); }
  }

  lemma GatherAllEnds(paths: seq<Text>, host: Host)
    ensures var t := GatherAll(paths, host).tail; t == [] || t[|t| - 1] == BACKSLASH
  {
    hide RootOf, TakesPart, Gather, DeviceOf, BaseOf;
    GatherEnds(paths, FinalDevice(paths, host), host);
  }

  /** The names of a resolved path. */
  function Segments(paths: seq<Text>, host: Host): seq<Text> {
    var g := GatherAll(paths, host);
    Folded(Split(g.tail), !g.absolute)
  }

  /** One more relative argument: the same device and root, and its pieces folded on after all the others. */
  lemma ResolvesOn(paths: seq<Text>, r: Text, host: Host)
    requires Relative(r)
    ensures FinalDevice(paths + [r], host) == FinalDevice(paths, host)
    ensures GatherAll(paths + [r], host).absolute == GatherAll(paths, host).absolute
    ensures Segments(paths + [r], host) == FoldOn(Segments(paths, host), Split(r), !GatherAll(paths, host).absolute)
  {
    hide RootOf, TakesPart, Gather, DeviceOf, BaseOf, Split, Folded, FoldOn, Prepend;
    DeviceLast(paths, r);
    var device := FinalDevice(paths, host);
    GatherLast(paths, r, device, host);
    PrependMore(BaseOf(DeviceOf(paths), host), device, host, Gather(paths, device, host), r + [BACKSLASH]);
    var g, h := Gather(paths, device, host), GatherAll(paths, host);
    assert g.tail + (r + [BACKSLASH]) == g.tail + r + [BACKSLASH];
    assert h.tail + (r + [BACKSLASH]) == h.tail + r + [BACKSLASH];
    GatherAllEnds(paths, host);
    TailOn(h.tail, r, !h.absolute);
  }

  lemma WrittenSegments(paths: seq<Text>, host: Host)
    ensures GatherAll(paths, host).absolute ==>
      Resolved(paths, host) == FinalDevice(paths, host) + [BACKSLASH] + Join(Segments(paths, host))
    ensures !GatherAll(paths, host).absolute ==>
      var text := FinalDevice(paths, host) + Join(Segments(paths, host));
      Resolved(paths, host) == if text == [] then [DOT] else text
  {
    hide GatherAll, FinalDevice, Split, Folded, Join;
  }

  /** An absolute result with a device, given back as an argument, stands for the arguments it came from. */
  lemma ResolvesInSteps(paths: seq<Text>, r: Text, host: Host, later: Host)
    requires Relative(r) && GatherAll(paths, host).absolute && FinalDevice(paths, host) != []
    ensures Resolved([Resolved(paths, host), r], later) == Resolved(paths + [r], host)
  {
    hide RootOf, TakesPart, Gather, DeviceOf, BaseOf, Split, Folded, FoldOn, Prepend, Resolved, GatherAll, Segments;
    hide FinalDevice, Join;
    var q := Resolved(paths, host);
    Standing(paths, host, later);
    ResolvesOn(paths, r, host);
    ResolvesOn([q], r, later);
    assert [q] + [r] == [q, r];
    WrittenSegments(paths + [r], host);
    WrittenSegments([q, r], later);
  }

  // A result with a device, on its own, has the device and the names it was written from.
  lemma Standing(paths: seq<Text>, host: Host, later: Host)
    requires GatherAll(paths, host).absolute && FinalDevice(paths, host) != []
    ensures var q := Resolved(paths, host);
      && FinalDevice([q], later) == FinalDevice(paths, host) && GatherAll([q], later).absolute
      && Segments([q], later) == Segments(paths, host)
  {
    hide RootOf, TakesPart, Gather, Split, Folded, Join, Prepend, Canonical, IsDevice, ReadsBack, GatherAll, DeviceOf;
    hide FinalDevice, Resolved;
    var q, device, segs := Resolved(paths, host), FinalDevice(paths, host), Segments(paths, host);
    WrittenSegments(paths, host);
    FinalIsDevice(paths, host);
    NormalizeIdempotent(GatherAll(paths, host).tail, false);
    RootReadsBack(device, Join(segs));
    AloneGathers(q, device, Join(segs), later);
    JoinFolds(segs);
  }

  lemma FinalIsDevice(paths: seq<Text>, host: Host)
    ensures FinalDevice(paths, host) == [] || IsDevice(FinalDevice(paths, host))
  {
    hide RootOf, IsDevice, DeviceOf, Rightmost;
    DeviceIsRightmost(paths);
    RootDevice(host.cwd);
  }

  lemma JoinFolds(segs: seq<Text>)
    requires Canonical(segs, false)
    ensures Folded(Split(Join(segs)), false) == segs
    ensures Folded(Split([BACKSLASH] + Join(segs)), false) == segs
    ensures Folded(Split(Join(segs) + [BACKSLASH]), false) == segs
    ensures Folded(Split([BACKSLASH] + Join(segs) + [BACKSLASH]), false) == segs
  {
    hide Split, Folded, Join;
    if segs == [] {
      JoinEmpty();
      SplitEmpty();
      FoldedBlank(false);
    } else {
      CanonicalPieces(segs);
      SplitJoin(segs);
      FoldedFixed(segs, false);
    }
    SeparatorsAround(Join(segs));
  }

  lemma CanonicalPieces(segs: seq<Text>)
    requires Canonical(segs, false)
    ensures Pieces(segs)
  {
    forall i | 0 <= i < |segs| ensures NoSeparator(segs[i]) { assert Named(segs[i]); }
  }

  lemma SeparatorsAround(s: Text)
    ensures Folded(Split([BACKSLASH] + s), false) == Folded(Split(s), false)
    ensures Folded(Split(s + [BACKSLASH]), false) == Folded(Split(s), false)
    ensures Folded(Split([BACKSLASH] + s + [BACKSLASH]), false) == Folded(Split(s), false)
  {
    hide Split, Folded;
    SplitAppends([], BACKSLASH, s);
    SplitEmpty();
    assert [] + [BACKSLASH] + s == [BACKSLASH] + s;
    FoldedBlank(false);
    FoldedAppends([[]], Split(s), false);
    SplitSeparator(s, BACKSLASH);
    BlankLast(Split(s), false);
    SplitSeparator([BACKSLASH] + s, BACKSLASH);
    BlankLast(Split([BACKSLASH] + s), false);
  }

  lemma AloneGathers(q: Text, device: Text, tail: Text, host: Host)
    requires ReadsBack(q, device, tail) && q != [] && device != []
    ensures FinalDevice([q], host) == device && GatherAll([q], host).absolute
    ensures GatherAll([q], host).tail == tail + [BACKSLASH]
      || GatherAll([q], host).tail == [BACKSLASH] + tail + [BACKSLASH]
  {
    hide RootOf, DriveBase;
    assert [q][1..] == [];
    assert DeviceOf([]) == [] && Gather([], device, host) == Gathered([], false);
    var rest := q[RootOf(q).end..];
    assert rest + [BACKSLASH] + [] == rest + [BACKSLASH];
  }

  /** An absolute last argument with its own device is all there is to the result. */
  lemma AbsoluteAlone(paths: seq<Text>, a: Text, host: Host)
    requires RootOf(a).device != [] && RootOf(a).absolute
    ensures Resolved(paths + [a], host) == RootOf(a).device + [BACKSLASH] + Normalized(a[RootOf(a).end..], false)
  {
    hide RootOf, Normalized, DriveBase;
    RootEmpty();
    assert [a][1..] == [];
    assert DeviceOf([]) == [] && Gather([], RootOf(a).device, host) == Gathered([], false);
    assert DeviceOf([a]) == RootOf(a).device;
    var rest := a[RootOf(a).end..];
    assert rest + [BACKSLASH] + [] == rest + [BACKSLASH];
    GatherStops(paths, [a], host);
    NormalizedTrims(rest, false);
  }

  /** What the arguments leave open is filled in as if the base stood before them. */
  lemma BaseStandsFirst(paths: seq<Text>, host: Host, later: Host)
    requires var base := BaseOf(DeviceOf(paths), host);
      RootOf(base).absolute && TakesPart(base, FinalDevice(paths, host), host)
    requires FinalDevice(paths, host) != [] && forall t :: later.lower(t) == host.lower(t)
    ensures Resolved(paths, host) == Resolved([BaseOf(DeviceOf(paths), host)] + paths, later)
  {
    hide RootOf, DriveBase, Written;
    RootEmpty();
    var base, device := BaseOf(DeviceOf(paths), host), FinalDevice(paths, host);
    var longer := [base] + paths;
    assert longer[1..] == paths && longer[0] == base;
    SameGather(paths, device, host, later);
    assert DeviceOf(longer) == device;
  }

  lemma {:induction false} SameGather(paths: seq<Text>, device: Text, host: Host, later: Host)
    requires forall t :: later.lower(t) == host.lower(t)
    ensures Gather(paths, device, host) == Gather(paths, device, later)
  {
    hide RootOf;
    if paths != [] { SameGather(paths[1..], device, host, later); }
  }

  /** Which base that is. Without a device among the arguments, the process directory. With one, the
      inherited entry if it is not empty, else the process directory, whenever that is on the device; and
      the root of the device when its first two units differ and its third is a backslash. */
  lemma BaseIs(device: Text, host: Host)
    requires device == [] || IsDevice(device)
    ensures device == [] ==> BaseOf(device, host) == host.cwd
    ensures var selected := if HasEntry(device, host) then host.inherited(device).value else host.cwd;
      device != [] ==>
        && (RootOf(selected).device != [] && host.lower(RootOf(selected).device) == host.lower(device) ==>
              BaseOf(device, host) == selected)
        && (|selected| > 2 && selected[2] == BACKSLASH && host.lower(selected[..2]) != host.lower(device) ==>
              BaseOf(device, host) == device + [BACKSLASH])
        && (|selected| <= 2 || selected[2] != BACKSLASH ==> BaseOf(device, host) == selected)
  {
    hide RunEnd;
    var selected := if HasEntry(device, host) then host.inherited(device).value else host.cwd;
    if RootOf(selected).device != [] {
      if IsSeparator(selected[0]) {
        assert |selected| > 2 && !IsSeparator(selected[2]);
      } else {
        assert RootOf(selected).device == selected[..2];
      }
    }
  }

  /** An argument on another device than the one a later argument names contributes nothing. */
  lemma {:induction false} OtherDeviceSkipped(front: seq<Text>, x: Text, back: seq<Text>, host: Host)
    requires RootOf(x).device != [] && DeviceOf(back) != []
    requires host.lower(RootOf(x).device) != host.lower(DeviceOf(back))
    ensures Resolved(front + [x] + back, host) == Resolved(front + back, host)
  {
    hide RootOf, DriveBase, Written;
    DeviceOfBack(front, back);
    DeviceOfBack(front + [x], back);
    SkipsOne(front, x, back, DeviceOf(back), host);
  }

  lemma {:induction false} DeviceOfBack(front: seq<Text>, back: seq<Text>)
    requires DeviceOf(back) != []
    ensures DeviceOf(front + back) == DeviceOf(back)
  {
    hide RootOf;
    if front == [] {
      assert front + back == back;
    } else {
      assert (front + back)[1..] == front[1..] + back;
      DeviceOfBack(front[1..], back);
    }
  }

  lemma {:induction false} SkipsOne(front: seq<Text>, x: Text, back: seq<Text>, device: Text, host: Host)
    requires RootOf(x).device != [] && host.lower(RootOf(x).device) != host.lower(device)
    ensures Gather(front + [x] + back, device, host) == Gather(front + back, device, host)
  {
    hide RootOf;
    if front == [] {
      assert front + [x] + back == [x] + back && front + back == back;
      assert ([x] + back)[1..] == back;
    } else {
      assert (front + [x] + back)[1..] == front[1..] + [x] + back;
      assert (front + back)[1..] == front[1..] + back;
      SkipsOne(front[1..], x, back, device, host);
    }
  }

  /** A last argument with a root and no device keeps the others' device and replaces everything after it. */
  lemma RootedLast(paths: seq<Text>, a: Text, host: Host)
    requires a != [] && RootOf(a).device == [] && RootOf(a).absolute
    ensures Resolved(paths + [a], host)
      == FinalDevice(paths, host) + [BACKSLASH] + Normalized(a[RootOf(a).end..], false)
  {
    hide RootOf, Normalized, DriveBase;
    RootedDevice(paths, a);
    RootedGathers(paths, a, FinalDevice(paths, host), host);
    NormalizedTrims(a[RootOf(a).end..], false);
  }

  lemma {:induction false} RootedDevice(paths: seq<Text>, a: Text)
    requires RootOf(a).device == []
    ensures DeviceOf(paths + [a]) == DeviceOf(paths)
  {
    hide RootOf;
    if paths == [] {
      assert (paths + [a])[1..] == [];
    } else {
      assert (paths + [a])[1..] == paths[1..] + [a];
      RootedDevice(paths[1..], a);
    }
  }

  lemma {:induction false} RootedGathers(paths: seq<Text>, a: Text, device: Text, host: Host)
    requires a != [] && RootOf(a).device == [] && RootOf(a).absolute
    ensures Gather(paths + [a], device, host) == Gathered(a[RootOf(a).end..] + [BACKSLASH], true)
  {
    hide RootOf;
    if paths == [] {
      assert (paths + [a])[1..] == [];
      assert a[RootOf(a).end..] + [BACKSLASH] + [] == a[RootOf(a).end..] + [BACKSLASH];
    } else {
      assert (paths + [a])[1..] == paths[1..] + [a];
      RootedGathers(paths[1..], a, device, host);
    }
  }
}
