/** The agent event stream rebuilt from the session log alone: `project` as a loop, the fold it computes,
    and the view of that fold with tool-execution events removed. */
module Projection {
  import opened Options
  import opened Messages
  import opened StableSort

  // ---------------------------------------------------------------------------------------------
  // Rebuilding one chunk event
  // ---------------------------------------------------------------------------------------------

  /** The chunk a log entry stands for; `None` where the source fails an index or an assertion. */
  function Rebuild(kind: ChunkKind, index: nat, partial: Assistant, delta: Option<string>): Option<Chunk> {
    if index >= |partial.content| then None
    else
      var block := partial.content[index];
      match kind
      case KTextStart => Some(TextStart(index, partial))
      case KTextDelta => if delta.None? then None else Some(TextDelta(index, delta.value, partial))
      case KTextEnd => if block.TextBlock? then Some(TextEnd(index, block.text, partial)) else None
      case KThinkingStart => Some(ThinkingStart(index, partial))
      case KThinkingDelta => if delta.None? then None else Some(ThinkingDelta(index, delta.value, partial))
      case KThinkingEnd =>
        if block.ThinkingBlock? then Some(ThinkingEnd(index, block.thinking, partial)) else None
      case KToolCallStart => Some(ToolCallStart(index, partial))
      case KToolCallDelta => if delta.None? then None else Some(ToolCallDelta(index, delta.value, partial))
      case KToolCallEnd => if block.ToolCallBlock? then Some(ToolCallEnd(index, block, partial)) else None
  }

  function LogChunk(c: Chunk): Entry {
    ChunkLogged(KindOf(c), c.index, c.partial, DeltaOf(c))
  }

  /** Logging a chunk loses nothing precisely when the chunk kept the stream contract. */
  lemma ChunkRoundTrip(c: Chunk)
    ensures Rebuild(KindOf(c), c.index, c.partial, DeltaOf(c)) == Some(c) <==> WellFormed(c)
  {
  }

  // ---------------------------------------------------------------------------------------------
  // Completion order
  // ---------------------------------------------------------------------------------------------

  function Completion(r: LoggedResult): nat {
    r.completion
  }

  /** `sorted(pending, key=completion_index)`. */
  function ByCompletion(rs: seq<LoggedResult>): seq<LoggedResult> {
    SortBy(Completion, rs)
  }

  /** Execution ends are replayed by completion index: a permutation of the logged results, in
      nondecreasing completion order, with equal indices kept in source order. */
  lemma ByCompletionSorts(rs: seq<LoggedResult>)
    ensures Ascending(Completion, ByCompletion(rs))
    ensures multiset(ByCompletion(rs)) == multiset(rs)
    ensures forall k: nat :: AtKey(Completion, ByCompletion(rs), k) == AtKey(Completion, rs, k)
  {
    Sorts(Completion, rs);
  }

  function CallId(r: LoggedResult): string {
    r.message.callId
  }

  function CallIds(rs: seq<LoggedResult>): seq<string> {
    Map(CallId, rs)
  }

  lemma CallIdsAt(rs: seq<LoggedResult>, i: nat)
    requires i < |rs|
    ensures |CallIds(rs)| == |rs| && CallIds(rs)[i] == rs[i].message.callId
  {
    assert CallId(rs[i]) == rs[i].message.callId;
  }

  /** `completion_order.index(call_id)`, the first place an id occurs. */
  function IndexIn(order: seq<string>, id: string): (k: nat)
    ensures k <= |order| && (id in order <==> k < |order|)
    ensures k < |order| ==> order[k] == id
    ensures forall i :: 0 <= i < k ==> order[i] != id
  {
    if order == [] then 0 else if order[0] == id then 0 else 1 + IndexIn(order[1..], id)
  }

  /** The occurrences of an id are not separated by another id. */
  predicate Grouped(order: seq<string>) {
    forall i, j, k :: 0 <= i < j < k < |order| && order[i] == order[k] ==> order[j] == order[i]
  }

  lemma GroupedStep(order: seq<string>, i: nat, j: nat)
    requires Grouped(order) && i < j < |order|
    ensures IndexIn(order, order[i]) <= IndexIn(order, order[j])
  {
    var f := IndexIn(order, order[j]);
    assert order[j] in order && order[f] == order[j];
    if f < i { assert order[i] == order[f]; }
  }

  // Grouped is the same as ascending by first occurrence.
  lemma GroupedAscends(order: seq<string>)
    ensures Ascending(id => IndexIn(order, id), order) <==> Grouped(order)
  {
    hide IndexIn;
    var key := id => IndexIn(order, id);
    if Grouped(order) {
      forall i, j | 0 <= i < j < |order| ensures key(order[i]) <= key(order[j]) {
        GroupedStep(order, i, j);
      }
    }
    if Ascending(key, order) {
      forall i, j, k | 0 <= i < j < k < |order| && order[i] == order[k] ensures order[j] == order[i] {
        assert key(order[i]) <= key(order[j]) <= key(order[k]);
        SamePlaceSameId(order, i, j);
      }
    }
  }

  lemma SamePlaceSameId(order: seq<string>, i: nat, j: nat)
    requires i < |order| && j < |order| && IndexIn(order, order[i]) == IndexIn(order, order[j])
    ensures order[i] == order[j]
  {
    assert order[i] in order && order[j] in order;
  }

  /** With the completion index the driver logs, replaying by it restores the batch's own completion
      order, call by call, exactly when calls that share an id finished one right after the other. */
  lemma CompletionOrderRestored(rs: seq<LoggedResult>, order: seq<string>)
    requires multiset(CallIds(rs)) == multiset(order)
    requires forall r :: r in rs ==> r.completion == IndexIn(order, r.message.callId)
    ensures CallIds(ByCompletion(rs)) == order <==> Grouped(order)
  {
    hide IndexIn, Grouped, Ascending;
    var key := id => IndexIn(order, id);
    var ids := CallIds(ByCompletion(rs));
    GroupedAscends(order);
    SortMaps(Completion, CallId, rs);
    IdsAscend(rs, order);
    if Grouped(order) {
      FirstPlaceDiffers(order);
      AscendingUnique(key, ids, order);
    }
  }

  lemma FirstPlaceDiffers(order: seq<string>)
    ensures Injective(id => IndexIn(order, id), multiset(order))
  {
    forall x, y | x in multiset(order) && y in multiset(order) && IndexIn(order, x) == IndexIn(order, y)
      ensures x == y
    {
      assert x in order && y in order;
    }
  }

  lemma IdsAscend(rs: seq<LoggedResult>, order: seq<string>)
    requires forall r :: r in rs ==> r.completion == IndexIn(order, r.message.callId)
    ensures Ascending(id => IndexIn(order, id), CallIds(ByCompletion(rs)))
  {
    hide IndexIn, SortBy;
    Sorts(Completion, rs);
    var out := ByCompletion(rs);
    forall i | 0 <= i < |out| ensures out[i] in rs { assert out[i] in multiset(out); }
    forall i, j | 0 <= i < j < |out|
      ensures IndexIn(order, CallIds(out)[i]) <= IndexIn(order, CallIds(out)[j])
    {
      assert Completion(out[i]) <= Completion(out[j]);
      CallIdsAt(out, i);
      CallIdsAt(out, j);
    }
  }

  // ---------------------------------------------------------------------------------------------
  // The fold
  // ---------------------------------------------------------------------------------------------

  /** The accumulators of `project`. `ok` is false once an entry could not be rebuilt. */
  datatype Fold = Fold(
    events: seq<Event>, pending: seq<LoggedResult>, run: seq<Message>,
    turnMessage: Option<Message>, turnResults: seq<Message>, open: bool, ok: bool)

  const START: Fold := Fold([], [], [], None, [], false, true)

  function Emit(f: Fold, m: Message, suppressStart: bool): Fold {
    f.(events := f.events + (if suppressStart then [] else [MessageStart(m)]) + [MessageEnd(m)],
       run := f.run + [m],
       turnMessage := if m.AssistantMessage? then Some(m) else f.turnMessage)
  }

  function ExecutionEnd(r: LoggedResult): Event {
    ToolExecutionEnd(r.message.callId, r.message.toolName, FromMessage(r.message, r.terminate),
                     r.message.isError)
  }

  function ExecutionEnds(rs: seq<LoggedResult>): seq<Event> {
    seq(|rs|, i requires 0 <= i < |rs| => ExecutionEnd(rs[i]))
  }

  function EmitResult(f: Fold, r: LoggedResult): Fold {
    var m := ToolResultMessage(r.message);
    Emit(f, m, false).(turnResults := f.turnResults + [m])
  }

  function EmitResults(f: Fold, rs: seq<LoggedResult>): Fold {
    if rs == [] then f else EmitResult(EmitResults(f, rs[..|rs| - 1]), rs[|rs| - 1])
  }

  /** `flush_results`: execution ends by completion, then the messages in source order. */
  function Flush(f: Fold): Fold {
    EmitResults(f.(events := f.events + ExecutionEnds(ByCompletion(f.pending))), f.pending).(pending := [])
  }

  /** One entry that is not a tool result, after the flush. */
  function Read(f: Fold, e: Entry): Fold {
    match e
    case RunOpened => f.(run := [], events := f.events + [AgentStart])
    case RunClosed(reason, over) =>
      f.(events := f.events + [AgentEnd(reason, if over.Some? then over.value else f.run)])
    case TurnOpened => f.(turnMessage := None, turnResults := [], events := f.events + [TurnStart])
    case TurnClosed(failure) =>
      f.(events := f.events + [if failure.Some? then TurnEnd(failure, []) else TurnEnd(f.turnMessage, f.turnResults)])
    case StreamOpened(partial) =>
      f.(events := f.events + [MessageStart(AssistantMessage(partial))], open := true)
    case ChunkLogged(kind, index, partial, delta) =>
      var c := Rebuild(kind, index, partial, delta);
      if c.None? then f.(ok := false)
      else f.(events := f.events + [MessageUpdate(c.value, AssistantMessage(partial))])
    case ReplyLogged(reply) => Emit(f, AssistantMessage(reply), f.open).(open := false)
    case CallLogged(id, name, arguments) => f.(events := f.events + [ToolExecutionStart(id, name, arguments)])
    case InputLogged(m) => Emit(f, m, false)
    case _ => f
  }

  function Next(f: Fold, e: Entry): Fold {
    if !f.ok then f
    else if e.ResultLogged? then f.(pending := f.pending + [e.result])
    else Read(Flush(f), e)
  }

  function FoldLog(log: seq<Entry>): Fold {
    if log == [] then START else Next(FoldLog(log[..|log| - 1]), log[|log| - 1])
  }

  /** What `project` returns: the event stream, or nothing when it raises. */
  function Projected(log: seq<Entry>): Option<seq<Event>> {
    var f := FoldLog(log);
    if f.ok then Some(Flush(f).events) else None
  }

  // ---------------------------------------------------------------------------------------------
  // `project` as the source runs it
  // ---------------------------------------------------------------------------------------------

  lemma {:induction false} EmitResultsKeeps(f: Fold, rs: seq<LoggedResult>)
    ensures EmitResults(f, rs).ok == f.ok && EmitResults(f, rs).pending == f.pending
    ensures EmitResults(f, rs).open == f.open
  {
    if rs != [] { EmitResultsKeeps(f, rs[..|rs| - 1]); }
  }

  method FlushResults(f: Fold) returns (g: Fold)
    ensures g == Flush(f)
  {
    var order := ByCompletion(f.pending);
    var events := f.events;
    for i := 0 to |order|
      invariant events == f.events + ExecutionEnds(order[..i])
    {
      events := events + [ExecutionEnd(order[i])];
      assert order[..i + 1] == order[..i] + [order[i]];
      assert ExecutionEnds(order[..i + 1]) == ExecutionEnds(order[..i]) + [ExecutionEnd(order[i])];
    }
    assert order[..|order|] == order;
    g := f.(events := events);
    ghost var base := g;
    for i := 0 to |f.pending|
      invariant g == EmitResults(base, f.pending[..i])
    {
      g := EmitResult(g, f.pending[i]);
      assert f.pending[..i + 1][..i] == f.pending[..i];
    }
    assert f.pending[..|f.pending|] == f.pending;
    g := g.(pending := []);
  }

  /** The loop over the log computes the fold; it fails where one entry cannot be rebuilt. */
  method Project(log: seq<Entry>) returns (events: Option<seq<Event>>)
    ensures events == Projected(log)
  {
    hide Flush, Read;
    var f := START;
    var i := 0;
    while i < |log|
      invariant 0 <= i <= |log|
      invariant f == FoldLog(log[..i]) && f.ok
    {
      assert log[..i + 1][..i] == log[..i];
      if log[i].ResultLogged? {
        f := f.(pending := f.pending + [log[i].result]);
      } else {
        f := FlushResults(f);
        f := Read(f, log[i]);
      }
      i := i + 1;
      if !f.ok {
        FailureSticks(log, i);
        return None;
      }
    }
    assert log[..i] == log;
    f := FlushResults(f);
    events := Some(f.events);
  }

  lemma {:induction false} FailureSticks(log: seq<Entry>, i: nat)
    requires i <= |log| && !FoldLog(log[..i]).ok
    ensures !FoldLog(log).ok
    decreases |log| - i
  {
    if i == |log| {
      assert log[..i] == log;
    } else {
      assert log[..i + 1][..i] == log[..i];
      FailureSticks(log, i + 1);
    }
  }

  // ---------------------------------------------------------------------------------------------
  // The view without tool-execution events
  // ---------------------------------------------------------------------------------------------

  predicate ToolExecution(e: Event) {
    e.ToolExecutionStart? || e.ToolExecutionUpdate? || e.ToolExecutionEnd?
  }

  /** The events left once every tool-execution event is dropped. */
  function Visible(events: seq<Event>): seq<Event> {
    if events == [] then []
    else Visible(events[..|events| - 1])
         + (if ToolExecution(events[|events| - 1]) then [] else [events[|events| - 1]])
  }

  lemma VisiblePush(xs: seq<Event>, e: Event)
    ensures Visible(xs + [e]) == Visible(xs) + (if ToolExecution(e) then [] else [e])
  {
    assert (xs + [e])[..|xs|] == xs;
  }

  lemma ShownPush(xs: seq<Event>, e: Event)
    ensures Visible(xs + [e]) == Visible(xs) + (if ToolExecution(e) then [] else [e])
    ensures PhaseOf(Visible(xs + [e])) == Follow(PhaseOf(Visible(xs)), e)
  {
    hide Visible, PhaseOf;
    VisiblePush(xs, e);
    if ToolExecution(e) {
      assert Visible(xs) + [] == Visible(xs);
    } else {
      PhasePush(Visible(xs), e);
    }
  }

  lemma {:induction false} VisibleAppend(xs: seq<Event>, ys: seq<Event>)
    ensures Visible(xs + ys) == Visible(xs) + Visible(ys)
  {
    hide PhaseOf, Visible, ToolExecution;
    if ys == [] {
      assert xs + ys == xs;
      VisibleNone();
    } else {
      var front, last := ys[..|ys| - 1], ys[|ys| - 1];
      assert ys == front + [last];
      VisibleAppend(xs, front);
      assert xs + ys == (xs + front) + [last];
      VisiblePush(xs + front, last);
      VisiblePush(front, last);
    }
  }

  lemma VisibleNone()
    ensures Visible([]) == []
  {
  }

  lemma {:induction false} ExecutionEndsHidden(rs: seq<LoggedResult>)
    ensures Visible(ExecutionEnds(rs)) == []
  {
    hide PhaseOf, FromMessage, Follow;
    if rs != [] {
      ExecutionEndsHidden(rs[..|rs| - 1]);
      assert ExecutionEnds(rs) == ExecutionEnds(rs[..|rs| - 1]) + [ExecutionEnd(rs[|rs| - 1])];
      VisiblePush(ExecutionEnds(rs[..|rs| - 1]), ExecutionEnd(rs[|rs| - 1]));
    }
  }

  /** Where a stream stands in the grammar of a run: `AgentStart`, then turns bracketed by `TurnStart`
      and `TurnEnd` with input admitted in or between them, then `AgentEnd`; only a rejected run may
      close while a turn is still open. */
  datatype Phase = Outside | RunStarted | TurnActive | TurnDone | Broken

  function Follow(p: Phase, e: Event): Phase {
    match e
    case AgentStart => RunStarted
    case TurnStart => if p == RunStarted || p == TurnDone then TurnActive else Broken
    case TurnEnd(_, _) => if p == TurnActive then TurnDone else Broken
    case AgentEnd(reason, _) =>
      if p == TurnDone || (p == TurnActive && reason == Rejected) then Outside else Broken
    case MessageUpdate(_, _) => if p == TurnActive then p else Broken
    case MessageStart(_) => if p == TurnActive || p == TurnDone then p else Broken
    case MessageEnd(_) => if p == TurnActive || p == TurnDone then p else Broken
    case _ => p
  }

  function PhaseOf(events: seq<Event>): Phase {
    if events == [] then Outside else Follow(PhaseOf(events[..|events| - 1]), events[|events| - 1])
  }

  lemma PhasePush(xs: seq<Event>, e: Event)
    ensures PhaseOf(xs + [e]) == Follow(PhaseOf(xs), e)
  {
    assert (xs + [e])[..|xs|] == xs;
  }

  /** The projection of a log as its reader sees it, with buffered results flushed. */
  datatype View = View(
    shown: seq<Event>, run: seq<Message>, turnMessage: Option<Message>, turnResults: seq<Message>,
    open: bool, ok: bool, phase: Phase)

  function Look(f: Fold): View {
    View(Visible(f.events), f.run, f.turnMessage, f.turnResults, f.open, f.ok, PhaseOf(Visible(f.events)))
  }

  function Show(v: View, e: Event): View {
    v.(shown := v.shown + [e], phase := Follow(v.phase, e))
  }

  function Say(v: View, m: Message, suppressStart: bool): View {
    Show(if suppressStart then v else Show(v, MessageStart(m)), MessageEnd(m))
      .(run := v.run + [m], turnMessage := if m.AssistantMessage? then Some(m) else v.turnMessage)
  }

  /** What appending one entry does to the view. */
  function Advance(v: View, e: Entry): View {
    match e
    case RunOpened => Show(v, AgentStart).(run := [])
    case RunClosed(reason, over) => Show(v, AgentEnd(reason, if over.Some? then over.value else v.run))
    case TurnOpened => Show(v, TurnStart).(turnMessage := None, turnResults := [])
    case TurnClosed(failure) =>
      Show(v, if failure.Some? then TurnEnd(failure, []) else TurnEnd(v.turnMessage, v.turnResults))
    case StreamOpened(partial) => Show(v, MessageStart(AssistantMessage(partial))).(open := true)
    case ChunkLogged(kind, index, partial, delta) =>
      var c := Rebuild(kind, index, partial, delta);
      if c.None? then v.(ok := false) else Show(v, MessageUpdate(c.value, AssistantMessage(partial)))
    case ReplyLogged(reply) => Say(v, AssistantMessage(reply), v.open).(open := false)
    case ResultLogged(r) =>
      var m := ToolResultMessage(r.message);
      Say(v, m, false).(turnResults := v.turnResults + [m])
    case InputLogged(m) => Say(v, m, false)
    case _ => v
  }

  /** The view of a whole log, entry by entry; a chunk that cannot be rebuilt is passed over, and noted. */
  function ViewOf(log: seq<Entry>): View {
    if log == [] then View([], [], None, [], false, true, Outside)
    else Advance(ViewOf(log[..|log| - 1]), log[|log| - 1])
  }

  lemma {:induction false} FlushWhenEmpty(f: Fold)
    requires f.pending == []
    ensures Flush(f) == f
  {
    assert ExecutionEnds(ByCompletion([])) == [];
    assert f.events + [] == f.events;
  }

  lemma EmitLooks(f: Fold, m: Message, s: bool)
    ensures Look(Emit(f, m, s)) == Say(Look(f), m, s)
  {
    hide Visible, PhaseOf;
    if s {
      assert f.events + [] + [MessageEnd(m)] == f.events + [MessageEnd(m)];
      ShownPush(f.events, MessageEnd(m));
    } else {
      ShownPush(f.events, MessageStart(m));
      ShownPush(f.events + [MessageStart(m)], MessageEnd(m));
    }
  }

  lemma ReadBoundaryLooks(f: Fold, e: Entry)
    requires e.RunOpened? || e.RunClosed? || e.TurnOpened? || e.TurnClosed?
    ensures Look(Read(f, e)) == Advance(Look(f), e)
  {
    hide Visible, PhaseOf;
    match e
    case RunOpened => ShownPush(f.events, AgentStart);
    case RunClosed(reason, over) =>
      ShownPush(f.events, AgentEnd(reason, if over.Some? then over.value else f.run));
    case TurnOpened => ShownPush(f.events, TurnStart);
    case TurnClosed(failure) =>
      ShownPush(f.events, if failure.Some? then TurnEnd(failure, []) else TurnEnd(f.turnMessage, f.turnResults));
  }

  lemma ReadStreamLooks(f: Fold, e: Entry)
    requires e.StreamOpened? || e.ChunkLogged? || e.CallLogged?
    ensures Look(Read(f, e)) == Advance(Look(f), e)
  {
    hide Visible, PhaseOf;
    match e
    case CallLogged(id, name, arguments) => ShownPush(f.events, ToolExecutionStart(id, name, arguments));
    case StreamOpened(partial) => ShownPush(f.events, MessageStart(AssistantMessage(partial)));
    case ChunkLogged(kind, index, partial, delta) =>
      var c := Rebuild(kind, index, partial, delta);
      if c.Some? { ShownPush(f.events, MessageUpdate(c.value, AssistantMessage(partial))); }
  }

  lemma ReadLooks(f: Fold, e: Entry)
    requires !e.ResultLogged?
    ensures Look(Read(f, e)) == Advance(Look(f), e)
  {
    hide Visible, PhaseOf;
    match e
    case ReplyLogged(reply) => EmitLooks(f, AssistantMessage(reply), f.open);
    case InputLogged(m) => EmitLooks(f, m, false);
    case HeaderRecorded =>
    case SessionReset =>
    case RunOpened => ReadBoundaryLooks(f, e);
    case RunClosed(_, _) => ReadBoundaryLooks(f, e);
    case TurnOpened => ReadBoundaryLooks(f, e);
    case TurnClosed(_) => ReadBoundaryLooks(f, e);
    case StreamOpened(_) => ReadStreamLooks(f, e);
    case ChunkLogged(_, _, _, _) => ReadStreamLooks(f, e);
    case CallLogged(_, _, _) => ReadStreamLooks(f, e);
  }

  // Two folds that look alike still look alike after emitting the same results.
  lemma {:induction false} EmitResultsLookAlike(f: Fold, g: Fold, rs: seq<LoggedResult>)
    requires Look(f) == Look(g)
    ensures Look(EmitResults(f, rs)) == Look(EmitResults(g, rs))
  {
    hide Visible, PhaseOf;
    if rs != [] {
      var front, last := rs[..|rs| - 1], rs[|rs| - 1];
      EmitResultsLookAlike(f, g, front);
      EmitLooks(EmitResults(f, front), ToolResultMessage(last.message), false);
      EmitLooks(EmitResults(g, front), ToolResultMessage(last.message), false);
    }
  }

  lemma FlushLooks(f: Fold)
    ensures Look(Flush(f)) == Look(EmitResults(f, f.pending))
  {
    hide Visible, PhaseOf, EmitResults, ByCompletion;
    var g := f.(events := f.events + ExecutionEnds(ByCompletion(f.pending)));
    ExecutionEndsHidden(ByCompletion(f.pending));
    VisibleAppend(f.events, ExecutionEnds(ByCompletion(f.pending)));
    assert Visible(f.events) + [] == Visible(f.events);
    EmitResultsLookAlike(f, g, f.pending);
  }

  lemma {:induction false} EmitResultsIgnoresPending(f: Fold, p: seq<LoggedResult>, rs: seq<LoggedResult>)
    ensures EmitResults(f.(pending := p), rs) == EmitResults(f, rs).(pending := p)
  {
    if rs != [] { EmitResultsIgnoresPending(f, p, rs[..|rs| - 1]); }
  }

  lemma {:induction false} NextKeepsNoPending(f: Fold, e: Entry)
    requires f.ok && !e.ResultLogged?
    ensures Next(f, e).pending == []
  {
    EmitResultsKeeps(f.(events := f.events + ExecutionEnds(ByCompletion(f.pending))), f.pending);
  }

  lemma FlushKeepsOk(f: Fold)
    ensures Flush(f).ok == f.ok
  {
    EmitResultsKeeps(f.(events := f.events + ExecutionEnds(ByCompletion(f.pending))), f.pending);
  }

  lemma NextLooks(f: Fold, e: Entry)
    requires f.ok
    ensures Look(Flush(Next(f, e))) == Advance(Look(Flush(f)), e)
  {
    hide Visible, ByCompletion;
    if e.ResultLogged? {
      var g := f.(pending := f.pending + [e.result]);
      FlushLooks(f);
      FlushLooks(g);
      EmitResultsIgnoresPending(f, g.pending, g.pending);
      assert g.pending[..|f.pending|] == f.pending;
      EmitLooks(EmitResults(f, f.pending), ToolResultMessage(e.result.message), false);
    } else {
      ReadLooks(Flush(f), e);
      NextKeepsNoPending(f, e);
      FlushWhenEmpty(Next(f, e));
    }
  }

  /** The view advances one entry at a time although the fold buffers tool results and reorders their
      execution ends: it is the returned stream with tool-execution events dropped. */
  lemma {:induction false} FoldLooks(log: seq<Entry>)
    ensures ViewOf(log).ok == FoldLog(log).ok
    ensures ViewOf(log).ok ==> ViewOf(log) == Look(Flush(FoldLog(log)))
  {
    hide ByCompletion, Advance;
    if log == [] {
      FlushWhenEmpty(START);
    } else {
      var front, last := log[..|log| - 1], log[|log| - 1];
      FoldLooks(front);
      AdvanceOk(ViewOf(front), last);
      if FoldLog(front).ok {
        NextLooks(FoldLog(front), last);
        FlushKeepsOk(Next(FoldLog(front), last));
      }
    }
  }

  /** An entry `project` can go on from. */
  predicate Rebuilds(e: Entry) {
    e.ChunkLogged? ==> Rebuild(e.kind, e.index, e.partial, e.delta).Some?
  }

  lemma AdvanceOk(v: View, e: Entry)
    ensures Advance(v, e).ok <==> v.ok && Rebuilds(e)
  {
  }

  /** `project` returns exactly on the logs whose every chunk entry can be rebuilt. */
  lemma {:induction false} ProjectsIff(log: seq<Entry>)
    ensures Projected(log).Some? <==> forall i :: 0 <= i < |log| ==> Rebuilds(log[i])
    ensures ViewOf(log).ok <==> Projected(log).Some?
  {
    hide Advance, Rebuilds, FoldLog, Flush;
    ViewIsProjection(log);
    if log != [] {
      var front, last := log[..|log| - 1], log[|log| - 1];
      assert log == front + [last];
      ProjectsIff(front);
      AdvanceOk(ViewOf(front), last);
    }
  }

  lemma ViewIsProjection(log: seq<Entry>)
    ensures ViewOf(log).ok == Projected(log).Some?
    ensures Projected(log).Some? ==> ViewOf(log).shown == Visible(Projected(log).value)
  {
    FoldLooks(log);
  }

  lemma ViewAppends(log: seq<Entry>, e: Entry)
    ensures ViewOf(log + [e]) == Advance(ViewOf(log), e)
  {
    assert (log + [e])[..|log|] == log;
  }

  // ---------------------------------------------------------------------------------------------
  // Payloads against the stream itself
  // ---------------------------------------------------------------------------------------------

  /** The messages whose `MessageEnd` appeared since the last `AgentStart`: an independent reading of
      `agent_end.messages`. */
  function EndedSinceStart(events: seq<Event>): seq<Message> {
    if events == [] then []
    else
      var e := events[|events| - 1];
      if e.AgentStart? then []
      else EndedSinceStart(events[..|events| - 1]) + (if e.MessageEnd? then [e.message] else [])
  }

  lemma EndedPush(xs: seq<Event>, e: Event)
    ensures EndedSinceStart(xs + [e])
            == if e.AgentStart? then [] else EndedSinceStart(xs) + (if e.MessageEnd? then [e.message] else [])
  {
    assert (xs + [e])[..|xs|] == xs;
  }

  lemma SayEnds(v: View, m: Message, s: bool)
    requires v.run == EndedSinceStart(v.shown)
    ensures Say(v, m, s).run == EndedSinceStart(Say(v, m, s).shown)
  {
    hide EndedSinceStart;
    if s {
      assert v.shown + [] + [MessageEnd(m)] == v.shown + [MessageEnd(m)];
      EndedPush(v.shown, MessageEnd(m));
    } else {
      EndedPush(v.shown, MessageStart(m));
      EndedPush(v.shown + [MessageStart(m)], MessageEnd(m));
    }
  }

  lemma AdvanceEnds(v: View, e: Entry)
    requires v.run == EndedSinceStart(v.shown)
    ensures Advance(v, e).run == EndedSinceStart(Advance(v, e).shown)
  {
    hide EndedSinceStart;
    match e
    case ReplyLogged(reply) => SayEnds(v, AssistantMessage(reply), v.open);
    case InputLogged(m) => SayEnds(v, m, false);
    case ResultLogged(r) => SayEnds(v, ToolResultMessage(r.message), false);
    case CallLogged(_, _, _) =>
    case HeaderRecorded =>
    case SessionReset =>
    case ChunkLogged(kind, index, partial, delta) =>
      var c := Rebuild(kind, index, partial, delta);
      if c.Some? { EndedPush(v.shown, MessageUpdate(c.value, AssistantMessage(partial))); }
    case RunOpened => EndedPush(v.shown, AgentStart);
    case RunClosed(reason, over) =>
      EndedPush(v.shown, AgentEnd(reason, if over.Some? then over.value else v.run));
    case TurnOpened => EndedPush(v.shown, TurnStart);
    case TurnClosed(failure) =>
      EndedPush(v.shown, if failure.Some? then TurnEnd(failure, []) else TurnEnd(v.turnMessage, v.turnResults));
    case StreamOpened(partial) => EndedPush(v.shown, MessageStart(AssistantMessage(partial)));
  }

  /** For every log, a closing run reports exactly the messages the stream itself ended
      since that run began. */
  lemma {:induction false} RunMessagesAreEndedMessages(log: seq<Entry>)
    ensures ViewOf(log).run == EndedSinceStart(ViewOf(log).shown)
  {
    hide Advance;
    if log != [] {
      RunMessagesAreEndedMessages(log[..|log| - 1]);
      AdvanceEnds(ViewOf(log[..|log| - 1]), log[|log| - 1]);
    }
  }

  function ResultEntries(rs: seq<LoggedResult>): seq<Entry> {
    if rs == [] then [] else ResultEntries(rs[..|rs| - 1]) + [ResultLogged(rs[|rs| - 1])]
  }

  lemma PushLast<T>(p: seq<T>, rs: seq<T>)
    requires rs != []
    ensures p + rs[..|rs| - 1] + [rs[|rs| - 1]] == p + rs
  {
  }

  lemma BufferResult(log: seq<Entry>, r: LoggedResult)
    requires FoldLog(log).ok
    ensures FoldLog(log + [ResultLogged(r)]) == FoldLog(log).(pending := FoldLog(log).pending + [r])
  {
    assert (log + [ResultLogged(r)])[..|log|] == log;
  }

  lemma {:induction false} FoldResults(log: seq<Entry>, rs: seq<LoggedResult>)
    requires FoldLog(log).ok
    ensures FoldLog(log + ResultEntries(rs)) == FoldLog(log).(pending := FoldLog(log).pending + rs)
  {
    if rs == [] {
      assert log + ResultEntries(rs) == log;
      assert FoldLog(log).pending + rs == FoldLog(log).pending;
    } else {
      var front, last := rs[..|rs| - 1], rs[|rs| - 1];
      FoldResults(log, front);
      BufferResult(log + ResultEntries(front), last);
      assert log + ResultEntries(rs) == log + ResultEntries(front) + [ResultLogged(last)];
      PushLast(FoldLog(log).pending, rs);
    }
  }

  /** One turn's batch in the rebuilt stream: first every execution end, by completion, then the
      messages in the order the model reads them. */
  lemma TurnResultsReplayed(log: seq<Entry>, rs: seq<LoggedResult>)
    requires FoldLog(log).ok && FoldLog(log).pending == []
    ensures Flush(FoldLog(log + ResultEntries(rs))).events
            == FoldLog(log).events + ExecutionEnds(ByCompletion(rs)) + MessagePairs(rs)
  {
    FoldResults(log, rs);
    var f := FoldLog(log).(pending := rs);
    assert [] + rs == rs;
    EmitResultsEvents(f.(events := f.events + ExecutionEnds(ByCompletion(rs))), rs);
  }

  function MessagePairs(rs: seq<LoggedResult>): seq<Event> {
    if rs == [] then []
    else
      var m := ToolResultMessage(rs[|rs| - 1].message);
      MessagePairs(rs[..|rs| - 1]) + [MessageStart(m), MessageEnd(m)]
  }

  lemma {:induction false} EmitResultsEvents(f: Fold, rs: seq<LoggedResult>)
    ensures EmitResults(f, rs).events == f.events + MessagePairs(rs)
  {
    if rs != [] {
      EmitResultsEvents(f, rs[..|rs| - 1]);
    }
  }

  // ---------------------------------------------------------------------------------------------
  // Tool-execution events
  // ---------------------------------------------------------------------------------------------

  /** The execution starts of a stream: call id, tool name, arguments. */
  function Starts(events: seq<Event>): seq<(string, string, string)> {
    if events == [] then []
    else
      var e := events[|events| - 1];
      Starts(events[..|events| - 1])
      + (if e.ToolExecutionStart? then [(e.callId, e.toolName, e.arguments)] else [])
  }

  /** The execution ends of a stream: call id, tool name, result, whether it is an error. */
  function Ends(events: seq<Event>): seq<(string, string, ToolResult, bool)> {
    if events == [] then []
    else
      var e := events[|events| - 1];
      Ends(events[..|events| - 1])
      + (if e.ToolExecutionEnd? then [(e.callId, e.toolName, e.result, e.isError)] else [])
  }

  /** The calls and the results a log holds. */
  function LoggedStarts(log: seq<Entry>): seq<(string, string, string)> {
    if log == [] then []
    else
      var e := log[|log| - 1];
      LoggedStarts(log[..|log| - 1]) + (if e.CallLogged? then [(e.id, e.name, e.arguments)] else [])
  }

  function LoggedEnds(log: seq<Entry>): seq<(string, string, ToolResult, bool)> {
    if log == [] then []
    else
      var e := log[|log| - 1];
      LoggedEnds(log[..|log| - 1]) + (if e.ResultLogged? then [AsEnd(e.result)] else [])
  }

  function AsEnd(r: LoggedResult): (string, string, ToolResult, bool) {
    var m := r.message;
    (m.callId, m.toolName, FromMessage(m, r.terminate), m.isError)
  }

  lemma StartsPush(xs: seq<Event>, e: Event)
    ensures Starts(xs + [e]) ==
      Starts(xs) + (if e.ToolExecutionStart? then [(e.callId, e.toolName, e.arguments)] else [])
    ensures Ends(xs + [e]) ==
      Ends(xs) + (if e.ToolExecutionEnd? then [(e.callId, e.toolName, e.result, e.isError)] else [])
  {
    assert (xs + [e])[..|xs|] == xs;
  }

  lemma {:induction false} StartsAppend(xs: seq<Event>, ys: seq<Event>)
    ensures Starts(xs + ys) == Starts(xs) + Starts(ys) && Ends(xs + ys) == Ends(xs) + Ends(ys)
  {
    hide Starts, Ends;
    if ys == [] {
      assert xs + ys == xs;
      StartsNone();
    } else {
      var front, last := ys[..|ys| - 1], ys[|ys| - 1];
      assert ys == front + [last];
      StartsAppend(xs, front);
      assert xs + ys == (xs + front) + [last];
      StartsPush(xs + front, last);
      StartsPush(front, last);
    }
  }

  lemma StartsNone()
    ensures Starts([]) == [] && Ends([]) == []
  {
  }

  lemma {:induction false} ExecutionEndsRead(rs: seq<LoggedResult>)
    ensures Starts(ExecutionEnds(rs)) == [] && Ends(ExecutionEnds(rs)) == Map(AsEnd, rs)
  {
    hide Starts, Ends, FromMessage;
    if rs == [] {
      StartsNone();
    } else {
      var front, last := rs[..|rs| - 1], rs[|rs| - 1];
      ExecutionEndsRead(front);
      assert ExecutionEnds(rs) == ExecutionEnds(front) + [ExecutionEnd(last)];
      StartsPush(ExecutionEnds(front), ExecutionEnd(last));
      assert Map(AsEnd, rs) == Map(AsEnd, front) + [AsEnd(last)];
    }
  }

  lemma EmitReads(f: Fold, m: Message, s: bool)
    ensures Starts(Emit(f, m, s).events) == Starts(f.events) && Ends(Emit(f, m, s).events) == Ends(f.events)
  {
    hide Starts, Ends;
    if s {
      assert f.events + [] + [MessageEnd(m)] == f.events + [MessageEnd(m)];
      StartsPush(f.events, MessageEnd(m));
    } else {
      StartsPush(f.events, MessageStart(m));
      StartsPush(f.events + [MessageStart(m)], MessageEnd(m));
    }
  }

  lemma {:induction false} EmitResultsRead(f: Fold, rs: seq<LoggedResult>)
    ensures Starts(EmitResults(f, rs).events) == Starts(f.events) && Ends(EmitResults(f, rs).events) == Ends(f.events)
  {
    hide Starts, Ends, Emit;
    if rs != [] {
      EmitResultsRead(f, rs[..|rs| - 1]);
      EmitReads(EmitResults(f, rs[..|rs| - 1]), ToolResultMessage(rs[|rs| - 1].message), false);
    }
  }

  lemma FlushReads(f: Fold)
    ensures Starts(Flush(f).events) == Starts(f.events)
    ensures Ends(Flush(f).events) == Ends(f.events) + Map(AsEnd, ByCompletion(f.pending))
  {
    hide Starts, Ends, EmitResults, ByCompletion, AsEnd, ExecutionEnds;
    var ends := ExecutionEnds(ByCompletion(f.pending));
    StartsAppend(f.events, ends);
    ExecutionEndsRead(ByCompletion(f.pending));
    EmitResultsRead(f.(events := f.events + ends), f.pending);
    assert Starts(f.events) + [] == Starts(f.events);
  }

  lemma ReadReads(f: Fold, e: Entry)
    requires !e.ResultLogged?
    ensures Starts(Read(f, e).events) ==
      Starts(f.events) + (if e.CallLogged? then [(e.id, e.name, e.arguments)] else [])
    ensures Ends(Read(f, e).events) == Ends(f.events)
  {
    hide Starts, Ends, Emit, Rebuild;
    match e
    case ReplyLogged(reply) => EmitReads(f, AssistantMessage(reply), f.open);
    case InputLogged(m) => EmitReads(f, m, false);
    case HeaderRecorded =>
    case SessionReset =>
    case RunOpened => StartsPush(f.events, AgentStart);
    case RunClosed(reason, over) =>
      StartsPush(f.events, AgentEnd(reason, if over.Some? then over.value else f.run));
    case TurnOpened => StartsPush(f.events, TurnStart);
    case TurnClosed(failure) =>
      StartsPush(f.events, if failure.Some? then TurnEnd(failure, []) else TurnEnd(f.turnMessage, f.turnResults));
    case StreamOpened(partial) => StartsPush(f.events, MessageStart(AssistantMessage(partial)));
    case ChunkLogged(kind, index, partial, delta) =>
      var c := Rebuild(kind, index, partial, delta);
      if c.Some? { StartsPush(f.events, MessageUpdate(c.value, AssistantMessage(partial))); }
    case CallLogged(id, name, arguments) => StartsPush(f.events, ToolExecutionStart(id, name, arguments));
  }

  /** The tool-execution events of every rebuilt stream: one start per logged call, in order, with its id,
      name and arguments; and one end per logged result, with its id, name, result and error flag. */
  lemma {:induction false} ExecutionEventsTold(log: seq<Entry>)
    requires FoldLog(log).ok
    ensures Starts(FoldLog(log).events) == LoggedStarts(log)
    ensures multiset(Ends(FoldLog(log).events)) + multiset(Map(AsEnd, FoldLog(log).pending))
      == multiset(LoggedEnds(log))
    ensures multiset(Ends(Projected(log).value)) == multiset(LoggedEnds(log))
    ensures Starts(Projected(log).value) == LoggedStarts(log)
  {
    hide Starts, Ends, Flush, Read, AsEnd, ByCompletion, Map;
    if log == [] {
      StartsNone();
      MapNone();
    } else {
      ExecutionEventsTold(log[..|log| - 1]);
      ExecutionEventsStep(log[..|log| - 1], log[|log| - 1]);
      assert log == log[..|log| - 1] + [log[|log| - 1]];
    }
    FlushReads(FoldLog(log));
    SortedEnds(FoldLog(log).pending);
  }

  lemma MapNone()
    ensures Map(AsEnd, []) == []
  {
  }

  lemma ExecutionEventsStep(front: seq<Entry>, e: Entry)
    requires FoldLog(front + [e]).ok && FoldLog(front).ok && Starts(FoldLog(front).events) == LoggedStarts(front)
    requires multiset(Ends(FoldLog(front).events)) + multiset(Map(AsEnd, FoldLog(front).pending))
      == multiset(LoggedEnds(front))
    ensures var g, log := FoldLog(front + [e]), front + [e];
      && Starts(g.events) == LoggedStarts(log)
      && multiset(Ends(g.events)) + multiset(Map(AsEnd, g.pending)) == multiset(LoggedEnds(log))
  {
    hide Starts, Ends, Flush, Read, AsEnd, ByCompletion, Map;
    var f := FoldLog(front);
    assert (front + [e])[..|front|] == front;
    if e.ResultLogged? {
      MapAppend(AsEnd, f.pending, [e.result]);
      MapOne(AsEnd, e.result);
    } else {
      FlushReads(f);
      SortedEnds(f.pending);
      ReadReads(Flush(f), e);
      NextKeepsNoPending(f, e);
      MapNone();
    }
  }

  lemma SortedEnds(rs: seq<LoggedResult>)
    ensures multiset(Map(AsEnd, ByCompletion(rs))) == multiset(Map(AsEnd, rs))
  {
    SortMaps(Completion, AsEnd, rs);
  }
}
