/** The agent driver: one instance, its runs, turns and recovery, with listeners, hooks, the model
    stream and the tool batch as adversaries that may act on the inbox, abort, or raise. */
module AgentLoop {
  import opened Options
  import opened Messages
  import opened InputQueue
  import opened RunCourse
  import opened StableSort
  import opened Projection
  import opened Agreement

  datatype Status = Idle | Running

  /** An ordinary exception, the eager unknown-model error, or a host-level task cancellation. */
  datatype Exc = Failure(text: string) | UnknownModel | HostCancel

  datatype Outcome<+T> = Done(value: T) | Raised(exc: Exc)

  datatype Step = Step(hasMore: bool, terminated: bool, terminal: Option<EndReason>)

  /** A settled tool batch: results in source order, call ids in completion order. */
  datatype ToolBatch = ToolBatch(results: seq<ToolResult>, order: seq<string>, terminate: bool)

  predicate AllTerminate(rs: seq<ToolResult>) {
    forall i :: 0 <= i < |rs| ==> rs[i].terminate
  }

  function IdsOf(rs: seq<ToolResult>): seq<string> {
    seq(|rs|, i requires 0 <= i < |rs| => rs[i].callId)
  }

  /** Every result's call is in the completion order, as often as it has results. */
  predicate BatchOk(b: ToolBatch) {
    multiset(b.order) == multiset(IdsOf(b.results))
  }

  lemma NoResultsOk(b: ToolBatch)
    ensures b.results == [] && b.order == [] ==> BatchOk(b)
  {
  }

  function Logged(r: ToolResult, order: seq<string>): LoggedResult {
    LoggedResult(ToMessage(r), IndexIn(order, r.callId), r.terminate)
  }

  function LoggedAll(rs: seq<ToolResult>, order: seq<string>): seq<LoggedResult> {
    if rs == [] then [] else LoggedAll(rs[..|rs| - 1], order) + [Logged(rs[|rs| - 1], order)]
  }

  function ToMessages(rs: seq<ToolResult>): seq<Message> {
    if rs == [] then [] else ToMessages(rs[..|rs| - 1]) + [ToolResultMessage(ToMessage(rs[|rs| - 1]))]
  }

  lemma ResultsPush(rs: seq<ToolResult>, i: nat, order: seq<string>)
    requires i < |rs|
    ensures ToMessages(rs[..i + 1]) == ToMessages(rs[..i]) + [ToolResultMessage(ToMessage(rs[i]))]
    ensures ResultEntries(LoggedAll(rs[..i + 1], order))
            == ResultEntries(LoggedAll(rs[..i], order)) + [ResultLogged(Logged(rs[i], order))]
  {
    hide ToMessage, Logged;
    assert rs[..i + 1][..i] == rs[..i];
    var front := LoggedAll(rs[..i], order);
    assert (front + [Logged(rs[i], order)])[..|front|] == front;
  }

  lemma ResultsNone(rs: seq<ToolResult>, order: seq<string>)
    ensures ToMessages(rs[..0]) == [] && ResultEntries(LoggedAll(rs[..0], order)) == []
    ensures ToMessages(rs[..|rs|]) == ToMessages(rs)
    ensures LoggedAll(rs[..|rs|], order) == LoggedAll(rs, order)
  {
    assert rs[..|rs|] == rs;
  }

  /** The tool calls of a reply, in order. */
  function Calls(content: seq<Block>): (calls: seq<Block>)
    ensures forall i :: 0 <= i < |calls| ==> calls[i].ToolCallBlock?
  {
    if content == [] then []
    else Calls(content[..|content| - 1])
         + (if content[|content| - 1].ToolCallBlock? then [content[|content| - 1]] else [])
  }

  /** The end a turn's reply decides by itself. */
  function EndOf(turnMessage: Option<Message>): Option<EndReason> {
    if turnMessage.None? || !turnMessage.value.AssistantMessage? then None
    else if turnMessage.value.reply.stop == Error then Some(Errored)
    else if turnMessage.value.reply.stop == Aborted then Some(AbortedRun)
    else None
  }

  predicate DecidedByReply(reason: EndReason) {
    reason == Errored || reason == AbortedRun
  }

  // Ends that come right after a turn, without the queues being looked at again.
  predicate EndsTurn(reason: EndReason) {
    DecidedByReply(reason) || reason == Stopped || reason == Rejected
  }

  function CallEntries(calls: seq<Block>): seq<Entry>
    requires forall i :: 0 <= i < |calls| ==> calls[i].ToolCallBlock?
  {
    seq(|calls|, i requires 0 <= i < |calls| => CallLogged(calls[i].id, calls[i].name, calls[i].arguments))
  }

  /** What one turn's tool half leaves in the log after its reply: the reply's calls in order, the batch's
      results, and the turn's end. */
  predicate TurnLogged(prior: seq<Entry>, reply: Assistant, b: ToolBatch, log: seq<Entry>) {
    && BatchOk(b) && prior != [] && prior[|prior| - 1] == ReplyLogged(reply)
    && log == prior + CallEntries(Calls(reply.content)) + ResultEntries(LoggedAll(b.results, b.order))
              + [TurnClosed(None)]
  }

  // What the entries that open and close runs and turns show.
  lemma OpensRun(v: View)
    ensures Tells(v, RunOpened, AgentStart)
    ensures var w := Advance(v, RunOpened); w.run == [] && w.phase == RunStarted && w.open == v.open
  {
  }

  lemma OpensTurn(v: View)
    ensures Tells(v, TurnOpened, TurnStart)
    ensures var w := Advance(v, TurnOpened);
      && w.run == v.run && w.turnResults == [] && w.open == v.open
      && (v.phase == RunStarted || v.phase == TurnDone ==> w.phase == TurnActive)
  {
  }

  lemma ClosesRun(v: View, reason: EndReason)
    ensures Tells(v, RunClosed(reason, None), AgentEnd(reason, v.run))
    ensures var w := Advance(v, RunClosed(reason, None));
      && w.open == v.open && w.run == v.run
      && (v.phase == TurnDone || (v.phase == TurnActive && reason == Rejected) ==> w.phase == Outside)
  {
  }

  /** An error on the instance is the error of one of these replies. */
  predicate ErrorFrom(error: Option<string>, produced: seq<Message>) {
    error.Some? ==> exists i :: 0 <= i < |produced| && produced[i].AssistantMessage? && produced[i].reply.error == error
  }

  lemma ErrorStays(error: Option<string>, produced: seq<Message>, more: seq<Message>)
    requires ErrorFrom(error, produced) && produced <= more
    ensures ErrorFrom(error, more)
  {
    if error.Some? {
      var i :| 0 <= i < |produced| && produced[i].AssistantMessage? && produced[i].reply.error == error;
      assert more[i] == produced[i];
    }
  }

  /** The instance's error once a turn with this reply has ended. */
  function ErrorAfter(reply: Assistant, before: Option<string>): Option<string> {
    if reply.error.Some? && reply.error.value != "" then reply.error else before
  }

  lemma ReplyError(reply: Assistant, before: Option<string>, earlier: seq<Message>, produced: seq<Message>)
    requires ErrorFrom(before, earlier) && earlier + [AssistantMessage(reply)] <= produced
    ensures ErrorFrom(ErrorAfter(reply, before), produced)
  {
    assert produced[|earlier|] == AssistantMessage(reply);
    ErrorStays(before, earlier, produced);
  }

  predicate HasCalls(turnMessage: Option<Message>) {
    turnMessage.Some? && turnMessage.value.AssistantMessage? && Calls(turnMessage.value.reply.content) != []
  }

  /** The log ends with the end of a run, closed for the reason its course came to. */
  predicate ClosedAt(place: Place, log: seq<Entry>) {
    place.Over? && log != [] && log[|log| - 1] == RunClosed(place.reason, None)
  }

  /** The first batch asked about since `before` was this one. */
  predicate AskedFirst(before: seq<seq<Message>>, entering: seq<Message>, now: seq<seq<Message>>) {
    before + [entering] <= now
  }

  // Phases in which input may be admitted.
  predicate Admits(p: Phase) {
    p == TurnActive || p == TurnDone
  }

  class Driver {
    const inbox: Inbox
    const turnPolicy: Policy
    const stepPolicy: Policy

    var status: Status
    var signal: Option<bool>
    var streaming: Option<Message>
    var pending: set<string>
    var error: Option<string>
    var log: seq<Entry>

    ghost var live: seq<Delivery>
    ghost var lost: nat
    /** The batches of the driver's own reservations that are still open. */
    ghost var held: multiset<Envelope>
    /** What the pre-step listeners were asked about, batch by batch. */
    ghost var asked: seq<seq<Message>>
    /** Whether the last turn's tool batch said to terminate. */
    ghost var verdict: bool
    /** Where the run stands, and where it began. */
    ghost var place: Place
    ghost var begun: Place

    /** The inbox balances, and the driver's open batches are in its reservations. */
    ghost predicate Covered()
      reads this`held, inbox
    {
      inbox.Valid() && held <= inbox.reserved
    }

    ghost predicate Consistent()
      reads this, inbox
    {
      Covered() && Agrees(live, log, lost)
    }

    /** Between calls: consistent, and an idle instance carries no run state. */
    ghost predicate Valid()
      reads this, inbox
    {
      && Consistent()
      && (status == Idle ==> signal == None && streaming == None && pending == {})
    }

    constructor (turnPolicy: Policy, stepPolicy: Policy)
      ensures Valid() && status == Idle && log == [] && live == [] && lost == 0 && held == multiset{}
      ensures !ViewOf(log).open
      ensures fresh(inbox)
    {
      inbox := new Inbox();
      this.turnPolicy, this.stepPolicy := turnPolicy, stepPolicy;
      status, signal, streaming, pending, error, log := Idle, None, None, {}, None, [];
      live, lost, held, asked, verdict, place, begun := [], 0, multiset{}, [], false, Astray, Astray;
      AgreesInitially();
    }

    /** Cancellation only flips the flag of the active run. */
    method Abort()
      modifies this`signal
      ensures signal == if old(signal).Some? then Some(true) else None
    {
      if signal.Some? {
        signal := Some(true);
      }
    }

    // Whatever other parties do while the driver waits on them.
    method OthersAct()
      requires Covered()
      modifies this`signal, inbox
      ensures Covered()
      ensures signal.Some? == old(signal.Some?) && (old(signal) == Some(true) ==> signal == Some(true))
    {
      inbox.OthersAct();
      var stop: bool := *;
      if stop { Abort(); }
    }

    // A hook, a waterfall or a provider call: arbitrary interference, then an answer or an exception.
    method Hook() returns (r: Outcome<bool>)
      requires Covered()
      modifies this`signal, inbox
      ensures Covered() && signal.Some? == old(signal.Some?)
    {
      OthersAct();
      var fails: bool := *;
      var answer: bool := *;
      var exc: Exc := *;
      r := if fails then Raised(exc) else Done(answer);
    }

    /** The single seam every lifecycle event passes through. */
    method Dispatch(event: Event) returns (r: Outcome<bool>)
      requires Covered()
      modifies this`live, this`signal, inbox
      ensures Covered() && signal.Some? == old(signal.Some?)
      ensures live == old(live) + [Delivery(event, streaming, LastMessage(log), pending)]
    {
      hide Covered, LastMessage;
      live := live + [Delivery(event, streaming, LastMessage(log), pending)];
      r := Hook();
    }

    method Append(e: Entry)
      modifies this`log
      ensures log == old(log) + [e]
    {
      log := log + [e];
    }

    /** Log an entry, then announce the one event it shows. */
    method Record(e: Entry, event: Event) returns (r: Outcome<bool>)
      requires Consistent()
      requires !ToolExecution(event) && !event.MessageEnd? && (event.MessageStart? ==> streaming == Some(event.message))
      requires Tells(ViewOf(log), e, event)
      modifies this`log, this`live, this`signal, inbox
      ensures Consistent() && signal.Some? == old(signal.Some?)
      ensures ViewOf(log) == Advance(old(ViewOf(log)), e) && log == old(log) + [e]
    {
      hide ViewOf, Missing, Replayed, Advance, LastMessage, Tells, Covered;
      ghost var d := Delivery(event, streaming, LastMessage(log + [e]), pending);
      LogAndTell(live, log, lost, e, d);
      Append(e);
      r := Dispatch(event);
    }

    /** Log an entry no event announces. */
    method Note(e: Entry)
      requires Consistent() && (e.HeaderRecorded? || e.CallLogged? || e.SessionReset?)
      modifies this`log
      ensures Consistent() && ViewOf(log) == old(ViewOf(log)) && log == old(log) + [e]
    {
      LogOnly(live, log, lost, e);
      Append(e);
    }

    /** Announce a message start that no entry shows yet. On an exception it stays unlogged: lost. */
    method Announce(m: Message) returns (r: Outcome<bool>)
      requires Consistent()
      modifies this`live, this`lost, this`signal, this`streaming, inbox
      ensures Covered() && signal.Some? == old(signal.Some?) && streaming == Some(m)
      ensures live == old(live) + [Delivery(MessageStart(m), Some(m), LastMessage(log), pending)]
      ensures r.Done? ==> lost == old(lost)
      ensures r.Raised? ==> lost == old(lost) + 1 && Consistent()
    {
      hide ViewOf, Missing, Replayed, LastMessage, Covered;
      TellUnlogged(live, log, lost, Delivery(MessageStart(m), Some(m), LastMessage(log), pending));
      streaming := Some(m);
      r := Dispatch(MessageStart(m));
      if r.Raised? {
        lost := lost + 1;
      }
    }

    /** One message's whole lifecycle: streaming, started, logged, ended. */
    method Lifecycle(m: Message, e: Entry) returns (r: Outcome<bool>)
      requires Consistent() && LogsMessage(e, m)
      modifies this`log, this`live, this`lost, this`signal, this`streaming, inbox
      ensures Consistent() && signal.Some? == old(signal.Some?)
      ensures ViewOf(log).open == old(ViewOf(log)).open
      ensures r.Done? ==> log == old(log) + [e] && lost == old(lost) && ViewOf(log) == Advance(old(ViewOf(log)), e)
    {
      hide ViewOf, Missing, Replayed, Advance, LastMessage, Covered;
      ghost var started := Delivery(MessageStart(m), Some(m), LastMessage(log), pending);
      ghost var ended := Delivery(MessageEnd(m), None, LastMessage(log + [e]), pending);
      LastPush(log, e);
      MessageEntryShows(ViewOf(log), e, m);
      LogAndTellMessage(live, log, lost, e, started, ended);
      r := Announce(m);
      if r.Raised? { return; }
      streaming := None;
      Append(e);
      r := Dispatch(MessageEnd(m));
    }

    /** Admit one batch of input, message by message. */
    method Admit(messages: seq<Message>, before: seq<Message>) returns (r: Outcome<bool>, produced: seq<Message>)
      requires Consistent() && ViewOf(log).run == before
      modifies this`log, this`live, this`lost, this`signal, this`streaming, inbox
      ensures Consistent() && signal.Some? == old(signal.Some?)
      ensures ViewOf(log).open == old(ViewOf(log)).open
      ensures r.Done? ==> lost == old(lost) && produced == before + messages && ViewOf(log).run == produced
      ensures r.Done? ==> ViewOf(log).turnResults == old(ViewOf(log)).turnResults
      ensures r.Done? && Admits(old(ViewOf(log)).phase) ==> ViewOf(log).phase == old(ViewOf(log)).phase
    {
      hide ViewOf, Missing, Replayed, Advance, Covered;
      produced := before;
      for i := 0 to |messages|
        invariant Consistent() && signal.Some? == old(signal.Some?) && lost == old(lost)
        invariant produced == before + messages[..i] && ViewOf(log).run == produced
        invariant ViewOf(log).open == old(ViewOf(log)).open
        invariant ViewOf(log).turnResults == old(ViewOf(log)).turnResults
        invariant Admits(old(ViewOf(log)).phase) ==> ViewOf(log).phase == old(ViewOf(log)).phase
      {
        MessageEntryShows(ViewOf(log), InputLogged(messages[i]), messages[i]);
        r := Lifecycle(messages[i], InputLogged(messages[i]));
        if r.Raised? { return; }
        produced := produced + [messages[i]];
      }
      r := Done(true);
    }

    // -------------------------------------------------------------------------------------------
    // One turn
    // -------------------------------------------------------------------------------------------

    /** One stream-start chunk. */
    method OpenStream(partial: Assistant) returns (r: Outcome<bool>)
      requires Consistent()
      modifies this`log, this`live, this`signal, this`streaming, inbox
      ensures Consistent() && signal.Some? == old(signal.Some?)
      ensures ViewOf(log).open && ViewOf(log).run == old(ViewOf(log)).run
      ensures ViewOf(log).turnResults == old(ViewOf(log)).turnResults
      ensures old(ViewOf(log)).phase == TurnActive ==> ViewOf(log).phase == TurnActive
    {
      hide ViewOf, Missing, Replayed, Covered;
      streaming := Some(AssistantMessage(partial));
      r := Record(StreamOpened(partial), MessageStart(AssistantMessage(partial)));
    }

    /** One update chunk, whatever it holds, logged without normalization. */
    method Update(c: Chunk) returns (r: Outcome<bool>)
      requires Consistent()
      modifies this`log, this`live, this`signal, this`streaming, inbox
      ensures Consistent() && signal.Some? == old(signal.Some?)
      ensures ViewOf(log).open == old(ViewOf(log)).open && ViewOf(log).run == old(ViewOf(log)).run
      ensures ViewOf(log).turnResults == old(ViewOf(log)).turnResults
      ensures old(ViewOf(log)).phase == TurnActive ==> ViewOf(log).phase == TurnActive
    {
      hide ViewOf, Missing, Replayed, Rebuild, Covered;
      streaming := Some(AssistantMessage(c.partial));
      r := Record(LogChunk(c), MessageUpdate(c, AssistantMessage(c.partial)));
    }

    /** Drain the model stream: any number of chunks, then the settled reply. */
    method Stream() returns (r: Outcome<Assistant>, streamed: bool)
      requires Consistent()
      modifies this`log, this`live, this`signal, this`streaming, inbox
      ensures Consistent() && signal.Some? == old(signal.Some?)
      ensures ViewOf(log).run == old(ViewOf(log)).run
      ensures ViewOf(log).turnResults == old(ViewOf(log)).turnResults
      ensures old(ViewOf(log)).phase == TurnActive ==> ViewOf(log).phase == TurnActive
      ensures streamed ==> ViewOf(log).open
      ensures !streamed ==> ViewOf(log).open == old(ViewOf(log)).open
    {
      hide ViewOf, Missing, Replayed, Covered;
      streamed := false;
      var resolved := Hook();
      if resolved.Raised? { return Raised(resolved.exc), streamed; }
      var chunks: nat := *;
      var reply: Assistant := *;
      while chunks > 0
        invariant Consistent() && signal.Some? == old(signal.Some?)
        invariant ViewOf(log).run == old(ViewOf(log)).run
        invariant ViewOf(log).turnResults == old(ViewOf(log)).turnResults
        invariant old(ViewOf(log)).phase == TurnActive ==> ViewOf(log).phase == TurnActive
        invariant streamed ==> ViewOf(log).open
        invariant !streamed ==> ViewOf(log).open == old(ViewOf(log)).open
      {
        var start: bool := *;
        var told: Outcome<bool>;
        if start {
          var partial: Assistant := *;
          streamed := true;
          told := OpenStream(partial);
        } else {
          var c: Chunk := *;
          told := Update(c);
        }
        if told.Raised? { return Raised(told.exc), streamed; }
        chunks := chunks - 1;
      }
      r := Done(reply);
    }

    // The reply's own end, once its start has been announced or streamed.
    method EndReply(reply: Assistant, ghost due: nat) returns (r: Outcome<bool>)
      requires Covered() && Agrees(live + [Ended(reply, log, pending)], log + [ReplyLogged(reply)], due)
      modifies this`log, this`live, this`lost, this`signal, this`streaming, inbox
      ensures Consistent() && signal.Some? == old(signal.Some?)
      ensures log == old(log) + [ReplyLogged(reply)] && lost == due
    {
      hide ViewOf, Missing, Replayed, Covered;
      streaming := None;
      Append(ReplyLogged(reply));
      r := Dispatch(MessageEnd(AssistantMessage(reply)));
      lost := due;
    }

    /** The reply's end: a stream that never opened gets its start announced first. */
    method FinishReply(reply: Assistant, streamed: bool) returns (r: Outcome<bool>)
      requires Consistent() && (streamed ==> ViewOf(log).open)
      modifies this`log, this`live, this`lost, this`signal, this`streaming, inbox
      ensures Consistent() && signal.Some? == old(signal.Some?)
      ensures r.Done? ==>
        ViewOf(log) == Advance(old(ViewOf(log)), ReplyLogged(reply)) && log == old(log) + [ReplyLogged(reply)]
      ensures r.Done? ==> lost == old(lost) + Unshown(old(ViewOf(log)), streamed)
    {
      hide ViewOf, Missing, Replayed, Advance, Covered;
      ghost var due := lost + Unshown(ViewOf(log), streamed);
      if streamed {
        ReplyToldOpen(live, log, lost, reply, pending);
      } else {
        if ViewOf(log).open {
          ReplyToldStale(live, log, lost, reply, pending);
        } else {
          ReplyToldWhole(live, log, lost, reply, pending);
        }
        r := Announce(AssistantMessage(reply));
        if r.Raised? { return; }
      }
      r := EndReply(reply, due);
    }

    // A turn whose reply is logged and whose tool results are not.
    ghost predicate Replied(reply: Assistant, produced: seq<Message>)
      reads this, inbox
    {
      && Consistent()
      && ViewOf(log).turnMessage == Some(AssistantMessage(reply))
      && ViewOf(log).run == produced && !ViewOf(log).open
    }

    /** Close a turn: the event repeats what the log alone lets the projection rebuild. */
    method CloseTurn(reply: Assistant, results: seq<Message>, ghost produced: seq<Message>) returns (r: Outcome<bool>)
      requires Replied(reply, produced) && ViewOf(log).turnResults == results && ViewOf(log).phase == TurnActive
      modifies this`log, this`live, this`signal, this`error, inbox
      ensures Replied(reply, produced) && signal.Some? == old(signal.Some?) && ViewOf(log).phase == TurnDone
      ensures log == old(log) + [TurnClosed(None)]
      ensures error == ErrorAfter(reply, old(error))
    {
      hide ViewOf, Missing, Replayed, Covered;
      if reply.error.Some? && reply.error.value != "" {
        error := reply.error;
      }
      r := Record(TurnClosed(None), TurnEnd(Some(AssistantMessage(reply)), results));
    }

    method LogCalls(calls: seq<Block>)
      requires Consistent() && forall i :: 0 <= i < |calls| ==> calls[i].ToolCallBlock?
      modifies this`log
      ensures Consistent() && ViewOf(log) == old(ViewOf(log)) && log == old(log) + CallEntries(calls)
    {
      hide ViewOf, Missing, Replayed, Covered;
      for i := 0 to |calls|
        invariant Consistent() && ViewOf(log) == old(ViewOf(log)) && log == old(log) + CallEntries(calls[..i])
      {
        Note(CallLogged(calls[i].id, calls[i].name, calls[i].arguments));
        assert CallEntries(calls[..i + 1])
          == CallEntries(calls[..i]) + [CallLogged(calls[i].id, calls[i].name, calls[i].arguments)];
      }
      assert calls[..|calls|] == calls;
    }

    // One tool-execution event, announced live and kept out of the comparison.
    method TellToolEvent(event: Event) returns (r: Outcome<bool>)
      requires Consistent() && ToolExecution(event) && Observed(Delivery(event, streaming, LastMessage(log), pending))
      modifies this`live, this`signal, inbox
      ensures Consistent() && signal.Some? == old(signal.Some?)
    {
      hide ViewOf, Missing, Replayed, LastMessage, Covered;
      TellTool(live, log, lost, Delivery(event, streaming, LastMessage(log), pending));
      r := Dispatch(event);
    }

    method ToolEvent(id: string, name: string) returns (r: Outcome<bool>)
      requires Consistent()
      modifies this`live, this`signal, this`pending, inbox
      ensures Consistent() && signal.Some? == old(signal.Some?)
    {
      hide ViewOf, Agrees, Covered, LastMessage;
      var which: int := *;
      var text: string := *;
      if which == 0 {
        pending := pending + {id};
        r := TellToolEvent(ToolExecutionStart(id, name, text));
      } else if which == 1 {
        r := TellToolEvent(ToolExecutionUpdate(id, name, text, text));
      } else {
        var result: ToolResult := *;
        pending := pending - {id};
        r := TellToolEvent(ToolExecutionEnd(id, name, result, result.isError));
      }
    }

    /** The tool batch: live execution events in any interleaving, then an outcome that lists every
        result's call in its completion order. A truncated reply's batch never terminates the run. */
    method ExecuteBatch(stop: StopReason) returns (r: Outcome<ToolBatch>)
      requires Consistent()
      modifies this`live, this`signal, this`pending, this`verdict, inbox
      ensures Consistent() && signal.Some? == old(signal.Some?)
      ensures r.Done? ==> BatchOk(r.value) && r.value.terminate == verdict
      ensures r.Done? ==> (verdict <==> stop != Length && r.value.results != [] && AllTerminate(r.value.results))
    {
      hide ViewOf, Agrees, Covered, BatchOk;
      var events: nat := *;
      while events > 0
        invariant Consistent() && signal.Some? == old(signal.Some?)
      {
        var id: string := *;
        var name: string := *;
        var told := ToolEvent(id, name);
        if told.Raised? { return Raised(told.exc); }
        events := events - 1;
      }
      var results: seq<ToolResult> := *;
      var order: seq<string> := *;
      var b := ToolBatch(results, order, stop != Length && results != [] && AllTerminate(results));
      if !BatchOk(b) {
        b := ToolBatch([], [], false);
        NoResultsOk(b);
      }
      verdict := b.terminate;
      r := Done(b);
    }

    // One result: its message's lifecycle, logged with its completion index.
    method LogResult(x: ToolResult, order: seq<string>, reply: Assistant, before: seq<Message>)
      returns (r: Outcome<bool>, produced: seq<Message>)
      requires Replied(reply, before) && ViewOf(log).phase == TurnActive
      modifies this`log, this`live, this`lost, this`signal, this`streaming, inbox
      ensures Consistent() && signal.Some? == old(signal.Some?) && !ViewOf(log).open
      ensures before <= produced
      ensures r.Done? ==> Replied(reply, produced) && lost == old(lost) && ViewOf(log).phase == TurnActive
      ensures r.Done? ==> ViewOf(log).turnResults == old(ViewOf(log)).turnResults + [ToolResultMessage(ToMessage(x))]
      ensures r.Done? ==> log == old(log) + [ResultLogged(Logged(x, order))]
    {
      hide ViewOf, Agrees, Covered, Advance, IndexIn, ToMessage;
      var m := ToolResultMessage(ToMessage(x));
      MessageEntryShows(ViewOf(log), ResultLogged(Logged(x, order)), m);
      r := Lifecycle(m, ResultLogged(Logged(x, order)));
      produced := before + [m];
    }

    /** Log the batch's results in source order, each with its completion index. */
    method LogResults(b: ToolBatch, reply: Assistant, before: seq<Message>)
      returns (r: Outcome<bool>, produced: seq<Message>)
      requires BatchOk(b) && Replied(reply, before) && ViewOf(log).turnResults == []
      requires ViewOf(log).phase == TurnActive
      modifies this`log, this`live, this`lost, this`signal, this`streaming, inbox
      ensures Consistent() && signal.Some? == old(signal.Some?) && !ViewOf(log).open
      ensures before <= produced
      ensures r.Done? ==> Replied(reply, produced) && lost == old(lost) && ViewOf(log).phase == TurnActive
      ensures r.Done? ==> ViewOf(log).turnResults == ToMessages(b.results)
      ensures r.Done? ==> log == old(log) + ResultEntries(LoggedAll(b.results, b.order))
    {
      hide ViewOf, Agrees, Covered, Logged, ToMessage, ToMessages, LoggedAll, ResultEntries;
      ResultsNone(b.results, b.order);
      produced := before;
      var i := 0;
      while i < |b.results|
        invariant 0 <= i <= |b.results| && before <= produced
        invariant Replied(reply, produced) && signal.Some? == old(signal.Some?) && lost == old(lost)
        invariant ViewOf(log).turnResults == ToMessages(b.results[..i]) && ViewOf(log).phase == TurnActive
        invariant log == old(log) + ResultEntries(LoggedAll(b.results[..i], b.order))
      {
        ResultsPush(b.results, i, b.order);
        r, produced := LogResult(b.results[i], b.order, reply, produced);
        if r.Raised? { return; }
        i := i + 1;
      }
      r := Done(true);
    }

    /** The tool half of a turn: calls logged, batch run, results logged, turn closed. */
    method ToolTurn(reply: Assistant, before: seq<Message>)
      returns (r: Outcome<Step>, produced: seq<Message>, ghost prior: seq<Entry>, ghost batch: ToolBatch)
      requires Replied(reply, before) && ViewOf(log).turnResults == [] && ViewOf(log).phase == TurnActive
      requires log != [] && log[|log| - 1] == ReplyLogged(reply)
      modifies this`log, this`live, this`lost, this`signal, this`streaming, this`pending, this`error, this`verdict,
        inbox
      ensures Consistent() && signal.Some? == old(signal.Some?) && !ViewOf(log).open
      ensures r.Done? ==> Replied(reply, produced) && lost == old(lost) && r.value.terminal == None
      ensures r.Done? ==> ViewOf(log).phase == TurnDone && before <= produced && error == ErrorAfter(reply, old(error))
      ensures r.Done? ==> r.value.terminated == verdict && (r.value.hasMore <==> Calls(reply.content) != [] && !verdict)
      ensures r.Done? && verdict ==> Calls(reply.content) != [] && reply.stop != Length
      ensures r.Done? ==> TurnLogged(prior, reply, batch, log)
    {
      hide ViewOf, Agrees, Calls, ToMessages, LoggedAll, ResultEntries, Covered, BatchOk, AllTerminate, CallEntries;
      produced, prior := before, log;
      var calls := ToolCalls(reply.content);
      LogCalls(calls);
      var b := ToolBatch([], [], false);
      NoResultsOk(b);
      verdict := false;
      if calls != [] {
        var ran := ExecuteBatch(reply.stop);
        batch := b;
        if ran.Raised? { return Raised(ran.exc), produced, prior, batch; }
        b := ran.value;
      }
      batch := b;
      var told;
      told, produced := LogResults(b, reply, before);
      if told.Raised? { return Raised(told.exc), produced, prior, batch; }
      told := CloseTurn(reply, ToMessages(b.results), produced);
      if told.Raised? { return Raised(told.exc), produced, prior, batch; }
      r := Done(Step(calls != [] && !b.terminate, b.terminate, None));
    }

    // The tool calls of a reply, in order.
    static method ToolCalls(content: seq<Block>) returns (calls: seq<Block>)
      ensures calls == Calls(content)
      ensures forall i :: 0 <= i < |calls| ==> calls[i].ToolCallBlock?
    {
      calls := [];
      for i := 0 to |content|
        invariant calls == Calls(content[..i])
        invariant forall k :: 0 <= k < |calls| ==> calls[k].ToolCallBlock?
      {
        assert content[..i + 1][..i] == content[..i];
        if content[i].ToolCallBlock? {
          calls := calls + [content[i]];
        }
      }
      assert content[..|content|] == content;
    }

    /** The model half of a turn: header, stream, and the reply's own lifecycle. */
    method ModelTurn(before: seq<Message>) returns (r: Outcome<Assistant>, produced: seq<Message>)
      requires Consistent() && ViewOf(log).run == before && ViewOf(log).turnResults == []
      requires ViewOf(log).phase == TurnActive
      modifies this`log, this`live, this`lost, this`signal, this`streaming, inbox
      ensures Consistent() && signal.Some? == old(signal.Some?)
      ensures r.Done? ==> Replied(r.value, produced) && ViewOf(log).turnResults == []
      ensures r.Done? ==> ViewOf(log).phase == TurnActive && log != [] && log[|log| - 1] == ReplyLogged(r.value)
      ensures r.Done? && !old(ViewOf(log)).open ==> lost == old(lost)
      ensures r.Done? ==> produced == before + [AssistantMessage(r.value)]
    {
      hide ViewOf, Agrees, Advance, Covered;
      produced := before;
      var text := Hook();
      if text.Raised? { return Raised(text.exc), produced; }
      Note(HeaderRecorded);
      text := Hook();
      if text.Raised? { return Raised(text.exc), produced; }
      var streamed;
      r, streamed := Stream();
      if r.Raised? { return; }
      ReplyShows(ViewOf(log), r.value);
      var told := FinishReply(r.value, streamed);
      if told.Raised? { return Raised(told.exc), produced; }
      produced := produced + [AssistantMessage(r.value)];
    }

    /** One turn: one model request and the tool calls it makes. */
    method RunStep(openTurn: bool, before: seq<Message>) returns (r: Outcome<Step>, produced: seq<Message>)
      requires Consistent() && ViewOf(log).run == before && (!openTurn ==> ViewOf(log).turnResults == [])
      requires ViewOf(log).phase == if openTurn then TurnDone else TurnActive
      requires place == Turning && ErrorFrom(error, before)
      modifies this`log, this`live, this`lost, this`signal, this`streaming, this`pending, this`error, this`verdict,
        this`place, inbox
      ensures Consistent() && signal.Some? == old(signal.Some?)
      ensures r.Done? ==> ViewOf(log).run == produced && !ViewOf(log).open && ViewOf(log).phase == TurnDone
      ensures r.Done? && !old(ViewOf(log)).open ==> lost == old(lost)
      ensures r.Done? ==> before <= produced && ErrorFrom(error, produced)
      ensures r.Done? ==> r.value.terminal == EndOf(ViewOf(log).turnMessage)
      ensures r.Done? && r.value.terminal.Some? ==> DecidedByReply(r.value.terminal.value)
      ensures r.Done? && r.value.terminal == None ==>
        r.value.terminated == verdict && (r.value.hasMore <==> HasCalls(ViewOf(log).turnMessage) && !verdict)
      ensures r.Done? ==> place == Onward(Turning, Turned(HasCalls(ViewOf(log).turnMessage), verdict, r.value.terminal))
    {
      hide ViewOf, Agrees, Covered, Onward, Advance, Tells, ErrorFrom, ErrorAfter, HasCalls, EndOf, DecidedByReply;
      produced := before;
      if openTurn {
        OpensTurn(ViewOf(log));
        var told := Record(TurnOpened, TurnStart);
        if told.Raised? { return Raised(told.exc), produced; }
      }
      var reply;
      reply, produced := ModelTurn(before);
      if reply.Raised? { return Raised(reply.exc), produced; }
      r, produced := SettleTurn(reply.value, produced);
      if r.Done? {
        ReplyError(reply.value, old(error), before, produced);
        place := Onward(place, Turned(HasCalls(ViewOf(log).turnMessage), verdict, r.value.terminal));
      }
    }

    // After the reply: an error or aborted one ends the turn, any other has its tool calls run.
    method SettleTurn(reply: Assistant, before: seq<Message>) returns (r: Outcome<Step>, produced: seq<Message>)
      requires Replied(reply, before) && ViewOf(log).turnResults == [] && ViewOf(log).phase == TurnActive
      requires log != [] && log[|log| - 1] == ReplyLogged(reply)
      modifies this`log, this`live, this`lost, this`signal, this`streaming, this`pending, this`error, this`verdict,
        inbox
      ensures Consistent() && signal.Some? == old(signal.Some?)
      ensures r.Done? ==> Replied(reply, produced) && lost == old(lost) && ViewOf(log).phase == TurnDone
      ensures r.Done? ==> before <= produced && error == ErrorAfter(reply, old(error))
      ensures r.Done? ==> r.value.terminal == EndOf(Some(AssistantMessage(reply)))
      ensures r.Done? && r.value.terminal.Some? ==> DecidedByReply(r.value.terminal.value)
      ensures r.Done? && r.value.terminal == None ==>
        r.value.terminated == verdict && (r.value.hasMore <==> HasCalls(Some(AssistantMessage(reply))) && !verdict)
    {
      hide ViewOf, Agrees, Calls, Covered, TurnLogged, ErrorAfter;
      produced := before;
      if reply.stop == Error || reply.stop == Aborted {
        var told := CloseTurn(reply, [], produced);
        if told.Raised? { return Raised(told.exc), produced; }
        return Done(Step(false, false, Some(if reply.stop == Error then Errored else AbortedRun))), produced;
      }
      ghost var prior, batch;
      r, produced, prior, batch := ToolTurn(reply, produced);
    }

    // -------------------------------------------------------------------------------------------
    // One run
    // -------------------------------------------------------------------------------------------

    // Take one batch of input, by the target's policy.
    method TakeInput(target: Target) returns (batch: seq<Envelope>)
      requires Covered()
      modifies this`place, inbox
      ensures place == Onward(old(place), Claimed(target, batch))
      ensures Covered() && batch == Batch(old(inbox.Queue(target)), PolicyFor(target))
      ensures batch == [] ==>
        inbox.nextTurn == old(inbox.nextTurn) && inbox.nextStep == old(inbox.nextStep) && inbox.Queue(target) == []
    {
      hide Onward;
      ClaimSplits(inbox.Queue(target), PolicyFor(target));
      batch := inbox.Claim(target, PolicyFor(target));
      place := Onward(place, Claimed(target, batch));
    }

    /** Ask the pre-step listeners what should enter. */
    method PreStep(messages: seq<Message>) returns (r: Outcome<Decision>)
      requires Covered()
      modifies this`signal, this`asked, this`place, inbox
      ensures Covered() && signal.Some? == old(signal.Some?)
      ensures asked == old(asked) + [messages]
      ensures r.Done? ==> place == Onward(old(place), Asked(messages, r.value))
    {
      hide Covered, Onward;
      asked := asked + [messages];
      var heard := Hook();
      if heard.Raised? { return Raised(heard.exc); }
      var owned: bool := *;
      var decision: Decision := *;
      r := Done(if owned then decision else Enter(messages));
      place := Onward(place, Asked(messages, r.value));
    }

    /** One boundary: ask, then admit what the decision lets in. */
    method Boundary(messages: seq<Message>, before: seq<Message>)
      returns (r: Outcome<bool>, produced: seq<Message>, ghost decision: Decision)
      requires Consistent() && ViewOf(log).run == before
      modifies this`log, this`live, this`lost, this`signal, this`streaming, this`asked, this`place, inbox
      ensures asked == old(asked) + [messages]
      ensures r.Done? ==> place == Onward(old(place), Asked(messages, decision)) && (r.value <==> decision.Enter?)
      ensures r == Done(true) ==> produced == before + decision.messages
      ensures r == Done(false) ==> produced == before
      ensures r == Done(false) ==> log == old(log) && live == old(live)
      ensures Consistent() && signal.Some? == old(signal.Some?)
      ensures ViewOf(log).open == old(ViewOf(log)).open
      ensures r.Done? ==> lost == old(lost) && ViewOf(log).run == produced
      ensures r.Done? ==> ViewOf(log).turnResults == old(ViewOf(log)).turnResults
      ensures r.Done? && Admits(old(ViewOf(log)).phase) ==> ViewOf(log).phase == old(ViewOf(log)).phase
    {
      hide ViewOf, Missing, Replayed, Covered, Onward;
      produced, decision := before, Reject;
      var decided := PreStep(messages);
      if decided.Raised? { return Raised(decided.exc), produced, decision; }
      decision := decided.value;
      if decided.value.Reject? { return Done(false), produced, decision; }
      r, produced := Admit(decided.value.messages, before);
      if r.Done? { r := Done(true); }
    }

    // After a turn: the hooks, the steering claim and the boundary. `more` tells that another turn follows;
    // otherwise `None` means nothing was left to go on with.
    method PollSteering(hasMore: bool, before: seq<Message>, ghost terminated: bool)
      returns (r: Outcome<Option<EndReason>>, produced: seq<Message>, more: bool)
      requires Consistent() && ViewOf(log).run == before && !ViewOf(log).open && ViewOf(log).phase == TurnDone
      requires place == Stopping(hasMore, terminated)
      modifies this`log, this`live, this`lost, this`signal, this`streaming, this`asked, this`place, inbox
      ensures r.Done? ==> place == GoesOn(r.value, more, terminated)
      ensures r.Done? && (more || (hasMore && r.value != Some(Stopped))) ==> |asked| > |old(asked)|
      ensures Consistent() && signal.Some? == old(signal.Some?) && old(asked) <= asked
      ensures r.Done? ==>
        ViewOf(log).run == produced && !ViewOf(log).open && ViewOf(log).phase == TurnDone && lost == old(lost)
      ensures r.Done? ==> before <= produced
      ensures r == Done(None) && !more ==> inbox.nextStep == [] && !hasMore
      ensures r.Done? && !more && r.value != Some(Rejected) ==>
        ViewOf(log) == old(ViewOf(log)) && r.value in {None, Some(Stopped)}
      ensures r.Done? && more ==> r.value == None
    {
      hide ViewOf, Agrees, Covered, Texts, Onward;
      produced, more := before, false;
      var stop := AfterTurn();
      if stop.Raised? { return Raised(stop.exc), produced, more; }
      FromStopping(hasMore, terminated, stop.value, [], Reject);
      if stop.value { return Done(Some(Stopped)), produced, more; }
      var input := TakeInput(NextStep);
      FromStopping(hasMore, terminated, false, input, Reject);
      if !hasMore && input == [] {
        return Done(None), produced, more;
      }
      var entered;
      ghost var decision;
      entered, produced, decision := Boundary(Texts(input), produced);
      FromStopping(hasMore, terminated, false, input, decision);
      if entered.Raised? { return Raised(entered.exc), produced, more; }
      if !entered.value { return Done(Some(Rejected)), produced, more; }
      more := true;
      r := Done(None);
    }

    // One turn of the inner loop and what follows it.
    method TurnAndSteer(open: bool, before: seq<Message>)
      returns (r: Outcome<Option<EndReason>>, produced: seq<Message>, terminated: bool, more: bool)
      requires Consistent() && ViewOf(log).run == before && (!open ==> ViewOf(log).turnResults == [])
      requires ViewOf(log).phase == if open then TurnDone else TurnActive
      requires place == Turning && ErrorFrom(error, before)
      modifies this`log, this`live, this`lost, this`signal, this`streaming, this`pending, this`error, this`verdict,
        this`asked, this`place, inbox
      ensures r.Done? ==> place == GoesOn(r.value, more, verdict)
      ensures r == Done(None) && !more ==> HasCalls(ViewOf(log).turnMessage) ==> verdict
      ensures r.Done? && more ==> |asked| > |old(asked)|
      ensures Consistent() && signal.Some? == old(signal.Some?) && old(asked) <= asked
      ensures r.Done? ==> ViewOf(log).run == produced && !ViewOf(log).open && ViewOf(log).phase == TurnDone
      ensures r.Done? && !old(ViewOf(log)).open ==> lost == old(lost)
      ensures r.Done? ==> before <= produced && ErrorFrom(error, produced)
      ensures r == Done(None) && !more ==> inbox.nextStep == [] && terminated == verdict
      ensures r.Done? && r.value.Some? ==> EndsTurn(r.value.value) && !more
      ensures r.Done? && !more && r.value != Some(Rejected) ==>
        EndOf(ViewOf(log).turnMessage) == if r.value == Some(Stopped) then None else r.value
    {
      hide ViewOf, Agrees, Covered, EndOf, Onward, ErrorFrom;
      terminated, more := false, false;
      var done;
      done, produced := RunStep(open, before);
      if done.Raised? { return Raised(done.exc), produced, terminated, more; }
      FromTurning(HasCalls(ViewOf(log).turnMessage), verdict, done.value.terminal);
      if done.value.terminal.Some? {
        return Done(done.value.terminal), produced, terminated, more;
      }
      terminated := done.value.terminated;
      ghost var stepped := produced;
      r, produced, more := PollSteering(done.value.hasMore, produced, terminated);
      if r.Done? { ErrorStays(error, stepped, produced); }
    }

    /** The turns of one continuation. `None` means the inner loop is exhausted: the last turn asked for
        no tool continuation and nothing was left to steer with. */
    method Continuation(openFirst: bool, before: seq<Message>, limit: nat)
      returns (r: Outcome<Option<EndReason>>, produced: seq<Message>, terminated: bool, left: nat)
      requires Consistent() && ViewOf(log).run == before && (!openFirst ==> ViewOf(log).turnResults == [])
      requires ViewOf(log).phase == if openFirst then TurnDone else TurnActive
      requires place == Turning && ErrorFrom(error, before)
      modifies this`log, this`live, this`lost, this`signal, this`streaming, this`pending, this`error, this`verdict,
        this`asked, this`place, inbox
      ensures r.Done? ==> place == GoesOn(r.value, false, verdict)
      ensures r == Done(None) ==> HasCalls(ViewOf(log).turnMessage) ==> verdict
      ensures Consistent() && signal.Some? == old(signal.Some?) && old(asked) <= asked
      ensures r.Done? ==> ViewOf(log).run == produced && !ViewOf(log).open && left < limit
      ensures r.Done? ==> ViewOf(log).phase == TurnDone
      ensures r.Done? && !old(ViewOf(log)).open ==> lost == old(lost)
      ensures r.Done? ==> before <= produced && ErrorFrom(error, produced)
      ensures r == Done(None) ==> inbox.nextStep == [] && terminated == verdict
      ensures r.Done? && r.value.Some? ==> EndsTurn(r.value.value)
      ensures r.Done? && r.value != Some(Rejected) ==>
        EndOf(ViewOf(log).turnMessage) == if r.value == Some(Stopped) then None else r.value
    {
      hide ViewOf, Agrees, Covered, EndOf, Onward, ErrorFrom;
      produced, left, terminated := before, limit, false;
      var open := openFirst;
      while left > 0
        invariant Consistent() && signal.Some? == old(signal.Some?) && left <= limit && old(asked) <= asked
        invariant place == Turning && before <= produced && ErrorFrom(error, produced)
        invariant ViewOf(log).run == produced && (!open ==> ViewOf(log).turnResults == [])
        invariant ViewOf(log).phase == if open then TurnDone else TurnActive
        invariant !old(ViewOf(log)).open ==> lost == old(lost) && !ViewOf(log).open
      {
        var more;
        r, produced, terminated, more := TurnAndSteer(open, produced);
        open, left := true, left - 1;
        if r.Raised? || !more { return; }
      }
      r := Raised(HostCancel);
    }

    // `prepare_next_turn`, then `should_stop`.
    method AfterTurn() returns (r: Outcome<bool>)
      requires Covered()
      modifies this`signal, this`place, inbox
      ensures Covered() && signal.Some? == old(signal.Some?)
      ensures r.Done? ==> place == Onward(old(place), StopAsked(r.value))
    {
      hide Covered, Onward;
      var prepared := Hook();
      if prepared.Raised? { return Raised(prepared.exc); }
      r := Hook();
      if r.Done? { place := Onward(place, StopAsked(r.value)); }
    }

    /** The first turn's opening: the entering batch, then at most one steering poll. */
    method FirstEntry(entering: seq<Message>, skipPoll: bool) returns (r: Outcome<bool>, produced: seq<Message>)
      requires Consistent() && ViewOf(log).run == [] && ViewOf(log).phase == RunStarted
      requires place == Entering(entering, skipPoll)
      modifies this`log, this`live, this`lost, this`signal, this`streaming, this`asked, this`place, inbox
      ensures r.Done? ==> place == if r.value then Turning else Over(Rejected)
      ensures r.Done? ==> AskedFirst(old(asked), entering, asked) && (skipPoll ==> asked == old(asked) + [entering])
      ensures Consistent() && signal.Some? == old(signal.Some?)
      ensures ViewOf(log).open == old(ViewOf(log)).open
      ensures r.Done? ==> lost == old(lost) && ViewOf(log).run == produced && ViewOf(log).turnResults == []
      ensures r.Done? ==> ViewOf(log).phase == TurnActive
    {
      hide ViewOf, Agrees, Covered, Texts, Onward, Advance, Tells;
      produced := [];
      OpensTurn(ViewOf(log));
      r := Record(TurnOpened, TurnStart);
      if r.Raised? { return; }
      ghost var decision;
      r, produced, decision := Boundary(entering, []);
      FromEntering(entering, skipPoll, decision);
      if r.Raised? || !r.value || skipPoll { return; }
      var steering := TakeInput(NextStep);
      FromFirstPoll(steering, decision);
      if steering != [] {
        r, produced, decision := Boundary(Texts(steering), produced);
        FromFirstPoll(steering, decision);
      }
    }

    // Poll the follow-ups: `None` if there are none, or whether they entered.
    method PollFollowUps(before: seq<Message>, ghost terminated: bool)
      returns (r: Outcome<Option<bool>>, produced: seq<Message>)
      requires Consistent() && ViewOf(log).run == before && !ViewOf(log).open && ViewOf(log).phase == TurnDone
      requires place == Following(terminated)
      modifies this`log, this`live, this`lost, this`signal, this`streaming, this`asked, this`place, inbox
      ensures r == Done(None) ==> place == Over(if terminated then Terminated else Completed)
      ensures r.Done? && r.value.Some? ==> place == if r.value.value then Turning else Over(Rejected)
      ensures Consistent() && signal.Some? == old(signal.Some?) && old(asked) <= asked
      ensures r.Done? ==> ViewOf(log).run == produced && !ViewOf(log).open && ViewOf(log).phase == TurnDone
      ensures r.Done? ==> lost == old(lost) && before <= produced
      ensures r == Done(None) ==> inbox.nextTurn == [] && inbox.nextStep == old(inbox.nextStep) && log == old(log)
    {
      hide ViewOf, Agrees, Covered, Texts, Onward;
      produced := before;
      var followups := TakeInput(NextTurn);
      FromFollowing(terminated, followups, Reject);
      if followups == [] { return Done(None), produced; }
      var entered;
      ghost var decision;
      entered, produced, decision := Boundary(Texts(followups), produced);
      FromFollowing(terminated, followups, decision);
      r := if entered.Raised? then Raised(entered.exc) else Done(Some(entered.value));
    }

    /** The outer loop: continuations opened by follow-ups. It decides that the run is complete only with both
        queues empty. */
    method RunTurns(before: seq<Message>) returns (r: Outcome<EndReason>, produced: seq<Message>)
      requires Consistent() && ViewOf(log).run == before && ViewOf(log).turnResults == []
      requires ViewOf(log).phase == TurnActive && place == Turning && ErrorFrom(error, before)
      modifies this`log, this`live, this`lost, this`signal, this`streaming, this`pending, this`error, this`verdict,
        this`asked, this`place, inbox
      ensures r.Done? ==> place == Over(r.value) && ErrorFrom(error, produced)
      ensures r == Done(Completed) ==> !HasCalls(ViewOf(log).turnMessage)
      ensures Consistent() && signal.Some? == old(signal.Some?) && old(asked) <= asked
      ensures r.Done? ==> ViewOf(log).run == produced && ViewOf(log).phase == TurnDone
      ensures r.Done? && !old(ViewOf(log)).open ==> lost == old(lost) && !ViewOf(log).open
      ensures r == Done(Completed) || r == Done(Terminated) ==> inbox.nextTurn == [] && inbox.nextStep == []
      ensures r.Done? ==> r.value != Failed
      ensures (r == Done(Completed) ==> !verdict) && (r == Done(Terminated) ==> verdict)
      ensures r.Done? && r.value != Rejected ==>
        EndOf(ViewOf(log).turnMessage) == if DecidedByReply(r.value) then Some(r.value) else None
    {
      hide ViewOf, Agrees, Covered, EndOf, Onward, ErrorFrom, HasCalls;
      produced := before;
      var turns: nat := *;
      var open := false;
      while true
        invariant Consistent() && signal.Some? == old(signal.Some?) && old(asked) <= asked && place == Turning
        invariant ErrorFrom(error, produced)
        invariant ViewOf(log).run == produced && (!open ==> ViewOf(log).turnResults == [])
        invariant ViewOf(log).phase == if open then TurnDone else TurnActive
        invariant !old(ViewOf(log)).open ==> lost == old(lost) && !ViewOf(log).open
        decreases turns
      {
        var ended, terminated;
        ended, produced, terminated, turns := Continuation(open, produced, turns);
        open := true;
        if ended.Raised? { return Raised(ended.exc), produced; }
        if ended.value.Some? { return Done(ended.value.value), produced; }
        var polled;
        ghost var turned := produced;
        polled, produced := PollFollowUps(produced, terminated);
        if polled.Done? { ErrorStays(error, turned, produced); }
        if polled.Raised? { return Raised(polled.exc), produced; }
        if polled.value.None? { return Done(if terminated then Terminated else Completed), produced; }
        if !polled.value.value { return Done(Rejected), produced; }
      }
    }

    /** A run from its first entry to its last turn. */
    method RunInner(entering: seq<Message>, skipPoll: bool)
      returns (r: Outcome<EndReason>, produced: seq<Message>)
      requires Consistent() && ViewOf(log).run == [] && ViewOf(log).phase == RunStarted
      requires place == Entering(entering, skipPoll) && error == None
      modifies this`log, this`live, this`lost, this`signal, this`streaming, this`pending, this`error, this`verdict,
        this`asked, this`place, inbox
      ensures r.Done? ==> place == Over(r.value) && ErrorFrom(error, produced)
      ensures r == Done(Completed) ==> !HasCalls(ViewOf(log).turnMessage)
      ensures Consistent() && signal.Some? == old(signal.Some?)
      ensures r.Done? ==> ViewOf(log).run == produced && AskedFirst(old(asked), entering, asked)
      ensures r.Done? ==> ViewOf(log).phase == TurnDone || (ViewOf(log).phase == TurnActive && r.value == Rejected)
      ensures r.Done? && !old(ViewOf(log)).open ==> lost == old(lost) && !ViewOf(log).open
      ensures r == Done(Completed) || r == Done(Terminated) ==> inbox.nextTurn == [] && inbox.nextStep == []
      ensures r.Done? ==> r.value != Failed
      ensures (r == Done(Completed) ==> !verdict) && (r == Done(Terminated) ==> verdict)
      ensures r.Done? && r.value != Rejected ==>
        EndOf(ViewOf(log).turnMessage) == if DecidedByReply(r.value) then Some(r.value) else None
    {
      hide ViewOf, Agrees, Covered, EndOf, Onward;
      var entered;
      entered, produced := FirstEntry(entering, skipPoll);
      if entered.Raised? { return Raised(entered.exc), produced; }
      if !entered.value { return Done(Rejected), produced; }
      r, produced := RunTurns(produced);
    }

    /** The failure turn: start, end, turn end and run end of one synthesized message, classified
        aborted exactly when the run's signal is aborted now. */
    method SettleFailure(text: string) returns (r: Outcome<bool>, failure: Assistant)
      requires Consistent()
      modifies this`log, this`live, this`lost, this`signal, this`streaming, this`error, inbox
      ensures Consistent() && signal.Some? == old(signal.Some?)
      ensures failure.stop == (if old(signal) == Some(true) then Aborted else Error)
      ensures failure.error == Some(text)
      ensures r.Done? ==> error == Some(text) && !ViewOf(log).open
      ensures r.Done? ==> lost == old(lost) + Unshown(old(ViewOf(log)), false)
    {
      hide ViewOf, Agrees, Covered;
      failure := Assistant([TextBlock("")], if signal == Some(true) then Aborted else Error, Some(text), "");
      var m := AssistantMessage(failure);
      ReplyShows(ViewOf(log), failure);
      r := FinishReply(failure, false);
      if r.Raised? { return; }
      error := Some(text);
      r := Record(TurnClosed(Some(m)), TurnEnd(Some(m), []));
      if r.Raised? { return; }
      r := Record(RunClosed(Failed, Some([m])), AgentEnd(Failed, [m]));
    }

    // The executor proper: everything the recovery boundary encloses.
    method RunBody(entering: seq<Message>, skipPoll: bool) returns (r: Outcome<EndReason>)
      requires Consistent() && error == None
      modifies this`log, this`live, this`lost, this`signal, this`streaming, this`pending, this`error, this`verdict,
        this`asked, this`place, this`begun, inbox
      ensures begun == Entering(entering, skipPoll) && (r.Done? ==> ClosedAt(place, log) && place == Over(r.value))
      ensures Consistent() && signal.Some? == old(signal.Some?)
      ensures r.Done? ==> ErrorFrom(error, ViewOf(log).run)
      ensures r.Done? ==> ViewOf(log).phase == Outside && AskedFirst(old(asked), entering, asked)
      ensures r.Done? && !old(ViewOf(log)).open ==> lost == old(lost) && !ViewOf(log).open
    {
      hide ViewOf, Agrees, Covered, EndOf, AskedFirst, Onward, Advance, Tells, HasCalls, DecidedByReply, ErrorFrom;
      var told := OpenRun(entering, skipPoll);
      if told.Raised? { return Raised(told.exc); }
      var produced;
      r, produced := RunInner(entering, skipPoll);
      if r.Raised? { return; }
      told := CloseRun(r.value, produced);
      if told.Raised? { return Raised(told.exc); }
    }

    // The start of a run, at the start of its course.
    method OpenRun(entering: seq<Message>, skipPoll: bool) returns (r: Outcome<bool>)
      requires Consistent()
      modifies this`log, this`live, this`signal, this`place, this`begun, inbox
      ensures Consistent() && signal.Some? == old(signal.Some?)
      ensures place == begun == Entering(entering, skipPoll)
      ensures ViewOf(log).run == [] && ViewOf(log).phase == RunStarted && ViewOf(log).open == old(ViewOf(log)).open
    {
      hide ViewOf, Agrees, Covered, Advance, Tells;
      place, begun := Entering(entering, skipPoll), Entering(entering, skipPoll);
      OpensRun(ViewOf(log));
      r := Record(RunOpened, AgentStart);
    }

    // The end of a run that raised nothing.
    method CloseRun(reason: EndReason, produced: seq<Message>) returns (r: Outcome<bool>)
      requires Consistent() && ViewOf(log).run == produced
      requires ViewOf(log).phase == TurnDone || (ViewOf(log).phase == TurnActive && reason == Rejected)
      modifies this`log, this`live, this`signal, this`streaming, inbox
      ensures Consistent() && signal.Some? == old(signal.Some?) && log == old(log) + [RunClosed(reason, None)]
      ensures ViewOf(log).phase == Outside && ViewOf(log).open == old(ViewOf(log)).open && ViewOf(log).run == produced
    {
      hide ViewOf, Agrees, Covered, Advance, Tells;
      streaming := None;
      ClosesRun(ViewOf(log), reason);
      r := Record(RunClosed(reason, None), AgentEnd(reason, produced));
    }

    /** One run. `failed` tells whether the executor raised; an ordinary failure is then settled, while
        an unknown model or a host cancellation propagates. */
    method ExecuteRun(entering: seq<Message>, skipPoll: bool) returns (r: Outcome<bool>, failed: bool)
      requires Consistent() && error == None
      modifies this`log, this`live, this`lost, this`signal, this`streaming, this`pending, this`error, this`verdict,
        this`asked, this`place, this`begun, inbox
      ensures begun == Entering(entering, skipPoll) && (!failed ==> ClosedAt(place, log))
      ensures Consistent()
      ensures !failed ==> ErrorFrom(error, ViewOf(log).run)
      ensures !failed ==> AskedFirst(old(asked), entering, asked)
      ensures !failed && !old(ViewOf(log)).open ==> lost == old(lost) && !ViewOf(log).open
      ensures !failed ==> r.Done? && ViewOf(log).phase == Outside
    {
      hide ViewOf, Missing, Replayed, Covered, AskedFirst, ClosedAt, ErrorFrom;
      var ran := RunBody(entering, skipPoll);
      if ran.Done? { return Done(true), false; }
      failed := true;
      if !ran.exc.Failure? { return Raised(ran.exc), failed; }
      var failure;
      r, failure := SettleFailure(ran.exc.text);
    }

    // -------------------------------------------------------------------------------------------
    // Entering and leaving a run
    // -------------------------------------------------------------------------------------------

    /** Record a status transition, then notify; a repeated status notifies nobody. */
    method SetStatus(s: Status) returns (notified: Outcome<bool>)
      requires Covered()
      modifies this`status, this`signal, inbox
      ensures status == s && Covered() && signal.Some? == old(signal.Some?)
      ensures s == old(status) ==> notified.Done? && signal == old(signal)
    {
      hide Covered;
      if status == s { return Done(true); }
      status := s;
      OthersAct();
      var fails: bool := *;
      var exc: Exc := *;
      notified := if fails then Raised(exc) else Done(true);
    }

    ghost predicate Clean()
      reads this
    {
      status == Idle && signal == None && streaming == None && pending == {}
    }

    // The unconditional exit writes, with the possibly failing notification last.
    method Leave() returns (notified: Outcome<bool>)
      requires Covered()
      modifies this`status, this`signal, this`streaming, this`pending, inbox
      ensures Covered() && Clean()
    {
      hide Covered;
      signal := None;
      streaming := None;
      pending := {};
      notified := SetStatus(Idle);
    }

    /** One run's full lifecycle. Every entry past the already-active guard leaves the instance clean,
        whoever raised, unless the RUNNING observer raised something other than an ordinary exception:
        then the instance stays running with nobody to end the run. An entry that fails leaves no trace in
        log or deliveries, and an ordinary failure returns the reserved batch to the head of its queue. */
    method RunWrapped(entering: seq<Message>, skipPoll: bool, entry: Reservation?) returns (r: RunResult)
      requires Valid()
      requires entry != null ==> entry.inbox == inbox && !entry.settled && multiset(entry.envelopes) <= held
      modifies this, inbox, entry
      ensures Valid()
      ensures r.AlreadyActive? || r.EntryFailed? || r.Finished?
      ensures r == AlreadyActive <==> old(status) == Running
      ensures r == AlreadyActive ==> log == old(log) && live == old(live) && lost == old(lost) && unchanged(inbox)
      ensures r != AlreadyActive ==> (Clean() <==> !Interrupted(r))
      ensures r == AlreadyActive || Interrupted(r) ==> status == Running
      ensures r.EntryFailed? ==> log == old(log) && live == old(live) && lost == old(lost)
      ensures r.EntryFailed? && entry != null && entry.settled ==> entry.envelopes <= inbox.Queue(entry.target)
      ensures entry != null ==> (entry.settled <==> !LeavesOpen(r))
      ensures entry == null || LeavesOpen(r) ==> held == old(held)
      ensures entry != null && !LeavesOpen(r) ==> held == old(held) - multiset(entry.envelopes)
      ensures Unfailed(r) ==> AskedFirst(old(asked), entering, asked) && ClosedAt(place, log)
      ensures Unfailed(r) ==> ErrorFrom(error, ViewOf(log).run)
      ensures r.Finished? ==> begun == Entering(entering, skipPoll)
      ensures !r.Finished? ==> asked == old(asked) && begun == old(begun)
      ensures Unfailed(r) && !old(ViewOf(log)).open ==> lost == old(lost) && !ViewOf(log).open
      ensures Unfailed(r) ==> ViewOf(log).phase == Outside
    {
      hide ViewOf, Agrees, Covered, AskedFirst, ClosedAt, ErrorFrom;
      if status != Idle { return AlreadyActive; }
      var notified := EnterRun(entry);
      if notified.Raised? { return EntryFailed(notified.exc); }
      r := RunEntered(entering, skipPoll);
    }

    // A run once entered, up to and including its exit.
    method RunEntered(entering: seq<Message>, skipPoll: bool) returns (r: RunResult)
      requires Consistent()
      modifies this`status, this`log, this`live, this`lost, this`signal, this`streaming, this`pending, this`error,
        this`verdict, this`asked, this`place, this`begun, inbox
      ensures Consistent() && Clean() && r.Finished? && begun == Entering(entering, skipPoll)
      ensures Unfailed(r) ==> AskedFirst(old(asked), entering, asked) && ClosedAt(place, log)
      ensures Unfailed(r) ==> ErrorFrom(error, ViewOf(log).run)
      ensures Unfailed(r) && !old(ViewOf(log)).open ==> lost == old(lost) && !ViewOf(log).open
      ensures Unfailed(r) ==> ViewOf(log).phase == Outside
    {
      hide ViewOf, Agrees, Covered, AskedFirst, ClosedAt, ErrorFrom;
      streaming := None;
      error := None;
      var ran, failed := ExecuteRun(entering, skipPoll);
      var notified := Leave();
      r := Finished(failed, if notified.Raised? then notified else ran);
    }

    // Publish RUNNING, then settle the reservation: kept removed, or restored exactly. Only an ordinary
    // exception of the observer is caught.
    method EnterRun(entry: Reservation?) returns (notified: Outcome<bool>)
      requires Covered() && status == Idle
      requires entry != null ==> entry.inbox == inbox && !entry.settled && multiset(entry.envelopes) <= held
      modifies this`status, this`signal, this`held, inbox, entry
      ensures Covered()
      ensures entry != null ==> (entry.settled <==> notified != Raised(HostCancel))
      ensures entry == null || !entry.settled ==> held == old(held)
      ensures entry != null && entry.settled ==> held == old(held) - multiset(entry.envelopes)
      ensures notified.Done? || notified == Raised(HostCancel) ==> status == Running && signal.Some?
      ensures notified.Raised? && notified != Raised(HostCancel) ==> status == Idle && signal == None
      ensures notified.Raised? && entry != null && entry.settled ==> entry.envelopes <= inbox.Queue(entry.target)
    {
      hide Covered;
      StartRunSignal();
      notified := SetStatus(Running);
      if notified.Raised? {
        if notified.exc == HostCancel { return; }
        signal := None;
        status := Idle;
      }
      if entry != null { SettleEntry(entry, notified.Done?); }
    }

    // A run starts with a signal of its own, not aborted.
    method StartRunSignal()
      modifies this`signal
      ensures signal == Some(false)
    {
      signal := Some(false);
    }

    // The reservation's one settlement.
    method SettleEntry(entry: Reservation, commits: bool)
      requires Covered()
      requires entry.inbox == inbox && !entry.settled && multiset(entry.envelopes) <= held
      modifies this`held, inbox, entry
      ensures Covered() && entry.settled && held == old(held) - multiset(entry.envelopes)
      ensures !commits ==> entry.envelopes <= inbox.Queue(entry.target)
    {
      hide Inbox.Valid;
      Release(held, inbox.reserved, multiset(entry.envelopes));
      if commits {
        var _ := entry.Commit();
      } else {
        var _ := entry.Rollback();
      }
      held := held - multiset(entry.envelopes);
    }

    /** Start a run with its own prompt. */
    method Prompt(entering: seq<Message>) returns (r: RunResult)
      requires Valid()
      modifies this, inbox
      ensures Valid() && held == old(held)
      ensures r == AlreadyActive <==> old(status) == Running
      ensures r != AlreadyActive ==> (Clean() <==> !Interrupted(r))
      ensures r.AlreadyActive? || r.EntryFailed? || r.Finished?
      ensures !r.Finished? ==> log == old(log) && live == old(live) && lost == old(lost)
      ensures r.Finished? ==> begun == Entering(entering, false)
      ensures Unfailed(r) ==> AskedFirst(old(asked), entering, asked) && ClosedAt(place, log)
      ensures Unfailed(r) && !old(ViewOf(log)).open ==> lost == old(lost) && !ViewOf(log).open
      ensures Unfailed(r) ==> ViewOf(log).phase == Outside
    {
      hide ViewOf, Agrees, Covered, AskedFirst, ClosedAt;
      if status != Idle { return AlreadyActive; }
      r := RunWrapped(entering, false, null);
    }

    // Reserve one batch, by the target's policy.
    method ReserveInput(target: Target) returns (entry: Reservation)
      requires Covered()
      modifies this`held, inbox
      ensures Covered() && fresh(entry) && entry.inbox == inbox && entry.target == target && !entry.settled
      ensures entry.envelopes == Batch(old(inbox.Queue(target)), PolicyFor(target))
      ensures entry.envelopes == [] <==> old(inbox.Queue(target)) == []
      ensures inbox.Queue(target) == Rest(old(inbox.Queue(target)), PolicyFor(target))
      ensures entry.envelopes == [] ==> inbox.nextTurn == old(inbox.nextTurn) && inbox.nextStep == old(inbox.nextStep)
      ensures held == old(held) + multiset(entry.envelopes) && multiset(entry.envelopes) <= held
      ensures held - multiset(entry.envelopes) == old(held)
    {
      hide Inbox.Valid;
      ClaimSplits(inbox.Queue(target), PolicyFor(target));
      entry := inbox.Reserve(target, PolicyFor(target));
      Reserving(held, old(inbox.reserved), multiset(entry.envelopes));
      held := held + multiset(entry.envelopes);
    }

    method LowerWake()
      requires Covered()
      modifies inbox`wake
      ensures Covered() && !inbox.wake && inbox.nextTurn == old(inbox.nextTurn)
    {
      var _ := inbox.TakeWake();
    }

    method ClearQueues()
      requires Covered()
      modifies inbox`nextTurn, inbox`nextStep, inbox`cleared
      ensures Covered() && inbox.nextTurn == [] && inbox.nextStep == []
    {
      inbox.ClearAll();
    }

    // Claim a batch and enter a run with it, if there was one. `open` is the reservation if it is left open.
    method EnterReserved(target: Target, skipPoll: bool) returns (r: Option<RunResult>, ghost open: Reservation?)
      requires Valid()
      modifies this, inbox
      ensures Valid()
      ensures r == None <==> old(inbox.Queue(target)) == []
      ensures r.Some? ==> r.value.AlreadyActive? || r.value.EntryFailed? || r.value.Finished?
      ensures r.Some? ==> (r.value == AlreadyActive <==> old(status) == Running)
      ensures old(status) == Idle ==> (Clean() <==> !(r.Some? && Interrupted(r.value)))
      ensures old(status) == Running ==> status == Running
      ensures r == None || !r.value.Finished? ==>
        log == old(log) && live == old(live) && lost == old(lost) && asked == old(asked)
      ensures r == None ==> inbox.nextTurn == old(inbox.nextTurn) && inbox.nextStep == old(inbox.nextStep)
      ensures r.Some? && Unfailed(r.value) ==>
        AskedFirst(old(asked), Texts(Batch(old(inbox.Queue(target)), PolicyFor(target))), asked)
      ensures r.Some? && r.value.Finished? ==>
        begun == Entering(Texts(Batch(old(inbox.Queue(target)), PolicyFor(target))), skipPoll)
      ensures r.Some? && Unfailed(r.value) ==> ClosedAt(place, log)
      ensures r.Some? && r.value.EntryFailed? && !Interrupted(r.value) ==>
        Batch(old(inbox.Queue(target)), PolicyFor(target)) <= inbox.Queue(target)
      ensures r.Some? && r.value == AlreadyActive ==>
        inbox.Queue(target) == Rest(old(inbox.Queue(target)), PolicyFor(target))
      ensures open != null <==> r.Some? && LeavesOpen(r.value)
      ensures open != null ==>
        fresh(open) && !open.settled && open.envelopes == Batch(old(inbox.Queue(target)), PolicyFor(target))
      ensures open == null ==> held == old(held)
      ensures open != null ==> held == old(held) + multiset(open.envelopes)
      ensures r.Some? && Unfailed(r.value) && !old(ViewOf(log)).open ==> lost == old(lost) && !ViewOf(log).open
    {
      hide ViewOf, Agrees, Covered, Texts, AskedFirst, ClosedAt;
      open := null;
      var reservation := ReserveInput(target);
      if reservation.envelopes == [] { return None, null; }
      var ran := RunWrapped(Texts(reservation.envelopes), skipPoll, reservation);
      if LeavesOpen(ran) { open := reservation; }
      r := Some(ran);
    }

    function PolicyFor(target: Target): Policy {
      if target == NextTurn then turnPolicy else stepPolicy
    }

    /** Continue from the transcript: with an assistant message last, drain one steering batch or else
        one follow-up batch; otherwise run on the history alone. */
    method Continue() returns (r: RunResult)
      requires Valid()
      modifies this, inbox
      ensures Valid()
      ensures r == AlreadyActive <==> old(status) == Running
      ensures !r.Finished? ==> log == old(log) && live == old(live) && lost == old(lost)
      ensures r == AlreadyActive ==> unchanged(inbox)
      ensures old(status) == Idle ==> (Clean() <==> !Interrupted(r))
      ensures !Interrupted(r) ==> held == old(held)
      ensures old(held) <= held
      ensures old(status) == Idle ==>
        (r == NothingToContinue <==>
          || old(LastMessage(log)) == None
          || (old(LastMessage(log)).value.AssistantMessage? && old(inbox.nextStep) == [] && old(inbox.nextTurn) == []))
      ensures Unfailed(r) && old(LastMessage(log)).Some? ==>
        var queue := if old(inbox.nextStep) != [] then old(inbox.nextStep) else old(inbox.nextTurn);
        var policy := if old(inbox.nextStep) != [] then stepPolicy else turnPolicy;
        var entering := if old(LastMessage(log)).value.AssistantMessage? then Texts(Batch(queue, policy)) else [];
        AskedFirst(old(asked), entering, asked) && ClosedAt(place, log)
      ensures r.Finished? && old(LastMessage(log)).Some? ==>
        var steers := old(inbox.nextStep) != [];
        var entering := Texts(Batch(if steers then old(inbox.nextStep) else old(inbox.nextTurn),
                                    if steers then stepPolicy else turnPolicy));
        var replied := old(LastMessage(log)).value.AssistantMessage?;
        begun == if replied then Entering(entering, steers) else Entering([], false)
      ensures Unfailed(r) && !old(ViewOf(log)).open ==> lost == old(lost) && !ViewOf(log).open
    {
      hide ViewOf, Agrees, LastMessage, Covered, AskedFirst, ClosedAt;
      if status != Idle { return AlreadyActive; }
      var last := LastMessage(log);
      if last == None { return NothingToContinue; }
      if last.value.AssistantMessage? {
        ghost var open;
        var ran;
        ran, open := EnterReserved(NextStep, true);
        if ran.Some? { return ran.value; }
        ran, open := EnterReserved(NextTurn, false);
        if ran.Some? { return ran.value; }
        return NothingToContinue;
      }
      r := RunWrapped([], false, null);
    }

    /** The pump: one run per reserved follow-up batch while input is pending. It never asks whether a run
        is active: then its first batch is reserved, the run refused, and the reservation left open for
        good. It returns normally only with no follow-up pending. */
    method RunUntilIdle() returns (r: RunResult, unfailed: bool, ghost open: Reservation?)
      requires Valid()
      modifies this, inbox
      ensures Valid()
      ensures r == Drained ==> inbox.nextTurn == [] && !inbox.wake
      ensures r == AlreadyActive <==> old(status) == Running && old(inbox.nextTurn) != []
      ensures old(status) == Idle ==> (Clean() <==> !Interrupted(r))
      ensures old(status) == Running ==> log == old(log) && live == old(live) && lost == old(lost) && status == Running
      ensures open != null <==> LeavesOpen(r)
      ensures open != null ==> fresh(open) && !open.settled
      ensures open == null ==> held == old(held)
      ensures open != null ==> held == old(held) + multiset(open.envelopes)
      ensures r == AlreadyActive ==>
        && open.envelopes == Batch(old(inbox.nextTurn), turnPolicy)
        && inbox.nextTurn == Rest(old(inbox.nextTurn), turnPolicy)
      ensures unfailed && !old(ViewOf(log)).open ==> lost == old(lost) && !ViewOf(log).open
    {
      hide ViewOf, Agrees, Covered, ClosedAt;
      unfailed, open := true, null;
      var rounds: nat := *;
      while inbox.nextTurn != []
        invariant Valid() && held == old(held) && open == null
        invariant old(status) == Idle ==> Clean()
        invariant old(status) == Running ==>
          && log == old(log) && live == old(live) && lost == old(lost) && status == Running
          && inbox.nextTurn == old(inbox.nextTurn)
        invariant unfailed && !old(ViewOf(log)).open ==> lost == old(lost) && !ViewOf(log).open
        decreases rounds
      {
        var ran;
        ran, open := EnterReserved(NextTurn, false);
        r := ran.value;
        unfailed := unfailed && !(r.Finished? && r.failed);
        if !r.Finished? || r.ran.Raised? { return; }
        if rounds == 0 { return CutOff, unfailed, open; }
        rounds := rounds - 1;
      }
      LowerWake();
      r := Drained;
    }

    /** Clear runtime state, both queues and the derived transcript, in place; refused while active. */
    method Reset() returns (done: bool)
      requires Valid()
      modifies this, inbox
      ensures Valid() && (done <==> old(status) == Idle)
      ensures !done ==> log == old(log) && error == old(error) && streaming == old(streaming)
                        && pending == old(pending) && unchanged(inbox)
      ensures done ==> Clean() && error == None && inbox.nextTurn == [] && inbox.nextStep == []
      ensures done ==> log == old(log) + [SessionReset] && inbox.wake == old(inbox.wake)
      ensures ViewOf(log) == old(ViewOf(log)) && lost == old(lost) && held == old(held)
    {
      hide ViewOf, Missing, Replayed, Covered;
      done := status == Idle;
      if done {
        streaming, pending, error := None, {}, None;
        ClearQueues();
        Note(SessionReset);
      }
    }
  }

  lemma Release(held: multiset<Envelope>, reserved: multiset<Envelope>, batch: multiset<Envelope>)
    requires batch <= held <= reserved
    ensures batch <= reserved && held - batch <= reserved - batch
  {
  }

  lemma Reserving(held: multiset<Envelope>, reserved: multiset<Envelope>, batch: multiset<Envelope>)
    requires held <= reserved
    ensures batch <= held + batch <= reserved + batch && held + batch - batch == held
  {
  }

  /** How one attempt to run ended: refused, never entered, entered and left, or, for the pump, with nothing
      left to run or by a host cancellation between two runs. */
  datatype RunResult =
    | AlreadyActive
    | NothingToContinue
    | Drained
    | CutOff
    | EntryFailed(exc: Exc)
    | Finished(failed: bool, ran: Outcome<bool>)

  /** The RUNNING observer raised something other than an ordinary exception. */
  predicate Interrupted(r: RunResult) {
    r == EntryFailed(HostCancel)
  }

  /** The reservation the run was to enter with is never settled. */
  predicate LeavesOpen(r: RunResult) {
    r == AlreadyActive || Interrupted(r)
  }

  /** The run was entered and its executor raised nothing. */
  predicate Unfailed(r: RunResult) {
    r.Finished? && !r.failed
  }
  // ---------------------------------------------------------------------------------------------
  // Whole sessions
  // ---------------------------------------------------------------------------------------------

  // One operation any caller may make between runs.
  method AnyOperation(d: Driver) returns (unfailed: bool)
    requires d.Valid()
    modifies d, d.inbox
    ensures d.Valid() && old(d.held) <= d.held
    ensures unfailed && !old(ViewOf(d.log)).open ==> d.lost == old(d.lost) && !ViewOf(d.log).open
  {
    hide ViewOf, Agrees, Inbox.Valid;
    unfailed := true;
    var which: int := *;
    if which == 0 {
      var entering: seq<Message> := *;
      var r := d.Prompt(entering);
      unfailed := !(r.Finished? && r.failed);
    } else if which == 1 {
      var r := d.Continue();
      unfailed := !(r.Finished? && r.failed);
    } else if which == 2 {
      var r;
      ghost var open;
      r, unfailed, open := d.RunUntilIdle();
    } else if which == 3 {
      var _ := d.Reset();
    } else if which == 4 {
      d.Abort();
    } else {
      d.inbox.OthersAct();
    }
  }

  /** Any finite sequence of prompts, continuations, pumps, resets, aborts and queue operations, against
      any listeners, hooks, chunks and tool batches: `project` returns on the log exactly when every chunk
      delivered can be rebuilt, and then nothing but message starts is missing from its stream; with no
      failed executor that stream is the delivered one exactly when every chunk kept the stream contract.
      What a pump stranded stays in its reservation. */
  method AnySession(turnPolicy: Policy, stepPolicy: Policy) returns (d: Driver, unfailed: bool)
    ensures d.Valid() && d.held <= d.inbox.reserved
    ensures Projected(d.log).Some? <==> AllRebuildable(d.live)
    ensures Projected(d.log).Some? ==> |Heard(d.live)| == |Visible(Projected(d.log).value)| + d.lost
    ensures unfailed ==>
      (Projected(d.log).Some? && Heard(d.live) == Visible(Projected(d.log).value) <==> KeepsContract(d.live))
  {
    hide ViewOf, Missing, Replayed, Heard, Inbox.Valid, Projected, Visible, AllRebuildable, KeepsContract;
    d := new Driver(turnPolicy, stepPolicy);
    unfailed := true;
    var steps: nat := *;
    while steps > 0
      invariant d.Valid() && fresh(d) && fresh(d.inbox)
      invariant unfailed ==> d.lost == 0 && !ViewOf(d.log).open
    {
      var ok := AnyOperation(d);
      unfailed := unfailed && ok;
      steps := steps - 1;
    }
    LiveEqualsProjection(d.live, d.log, d.lost);
  }

  lemma {:induction false} LoggedAt(rs: seq<ToolResult>, order: seq<string>, i: nat)
    requires i < |rs|
    ensures |LoggedAll(rs, order)| == |rs| && LoggedAll(rs, order)[i] == Logged(rs[i], order)
  {
    if |rs| > 1 {
      LoggedAt(rs[..|rs| - 1], order, if i < |rs| - 1 then i else 0);
    }
  }

  lemma LoggedCalls(rs: seq<ToolResult>, order: seq<string>)
    ensures |LoggedAll(rs, order)| == |rs|
    ensures forall i :: 0 <= i < |rs| ==> LoggedAll(rs, order)[i] == Logged(rs[i], order)
    ensures CallIds(LoggedAll(rs, order)) == IdsOf(rs)
  {
    hide LoggedAll, ToMessage, IndexIn;
    if rs == [] { LoggedNone(order); } else { LoggedAt(rs, order, 0); }
    forall i | 0 <= i < |rs| ensures |LoggedAll(rs, order)| == |rs| && LoggedAll(rs, order)[i] == Logged(rs[i], order) {
      LoggedAt(rs, order, i);
    }
    forall i | 0 <= i < |rs|
      ensures |LoggedAll(rs, order)| == |rs| && LoggedAll(rs, order)[i].message.callId == rs[i].callId
    {
      LoggedAt(rs, order, i);
      SameCall(rs[i]);
    }
    forall i | 0 <= i < |rs| ensures CallIds(LoggedAll(rs, order))[i] == IdsOf(rs)[i] {
      CallIdsAt(LoggedAll(rs, order), i);
    }
  }

  lemma LoggedNone(order: seq<string>)
    ensures LoggedAll([], order) == []
  {
  }

  // A log whose last entry is not a result has none waiting.
  lemma NonePending(log: seq<Entry>)
    requires log != [] && !log[|log| - 1].ResultLogged? && FoldLog(log).ok
    ensures FoldLog(log).pending == []
  {
    hide Read, Flush;
    NextKeepsNoPending(FoldLog(log[..|log| - 1]), log[|log| - 1]);
  }

  /** What a call's execution start tells. */
  function CallTold(call: Block): (string, string, string) {
    if call.ToolCallBlock? then (call.id, call.name, call.arguments) else ("", "", "")
  }

  /** What a result's execution end tells: its call, its tool, the result with its details filled in, and
      whether it is an error. */
  function ResultTold(x: ToolResult): (string, string, ToolResult, bool) {
    (x.callId, x.toolName, if x.details.Some? then x else x.(details := Some(EMPTY_DETAILS)), x.isError)
  }

  function FirstOf(t: (string, string, ToolResult, bool)): string {
    t.0
  }

  lemma {:induction false} CallsFolded(log: seq<Entry>, calls: seq<Block>)
    requires forall i :: 0 <= i < |calls| ==> calls[i].ToolCallBlock?
    requires FoldLog(log).ok && FoldLog(log).pending == []
    ensures var f := FoldLog(log + CallEntries(calls));
      f.ok && f.pending == [] && f.events == FoldLog(log).events + StartEvents(calls)
  {
    hide Flush;
    if calls == [] {
      assert log + CallEntries(calls) == log;
      assert FoldLog(log).events + [] == FoldLog(log).events;
    } else {
      var front, last := calls[..|calls| - 1], calls[|calls| - 1];
      CallsFolded(log, front);
      var e := CallLogged(last.id, last.name, last.arguments);
      assert log + CallEntries(calls) == log + CallEntries(front) + [e];
      assert (log + CallEntries(front) + [e])[..|log + CallEntries(front)|] == log + CallEntries(front);
      FlushWhenEmpty(FoldLog(log + CallEntries(front)));
    }
  }

  function StartEvents(calls: seq<Block>): seq<Event>
    requires forall i :: 0 <= i < |calls| ==> calls[i].ToolCallBlock?
  {
    if calls == [] then []
    else
      var last := calls[|calls| - 1];
      StartEvents(calls[..|calls| - 1]) + [ToolExecutionStart(last.id, last.name, last.arguments)]
  }

  lemma {:induction false} StartEventsRead(calls: seq<Block>)
    requires forall i :: 0 <= i < |calls| ==> calls[i].ToolCallBlock?
    ensures Starts(StartEvents(calls)) == Map(CallTold, calls) && Ends(StartEvents(calls)) == []
  {
    hide Starts, Ends;
    if calls == [] {
      StartsNone();
    } else {
      var front, last := calls[..|calls| - 1], calls[|calls| - 1];
      StartEventsRead(front);
      StartsPush(StartEvents(front), ToolExecutionStart(last.id, last.name, last.arguments));
      assert Map(CallTold, calls) == Map(CallTold, front) + [CallTold(last)];
    }
  }

  lemma {:induction false} PairsRead(rs: seq<LoggedResult>)
    ensures Starts(MessagePairs(rs)) == [] && Ends(MessagePairs(rs)) == []
  {
    hide Starts, Ends;
    if rs == [] {
      StartsNone();
    } else {
      var front, m := rs[..|rs| - 1], ToolResultMessage(rs[|rs| - 1].message);
      PairsRead(front);
      StartsPush(MessagePairs(front), MessageStart(m));
      StartsPush(MessagePairs(front) + [MessageStart(m)], MessageEnd(m));
      assert MessagePairs(rs) == MessagePairs(front) + [MessageStart(m)] + [MessageEnd(m)];
    }
  }

  lemma LoggedTold(rs: seq<ToolResult>, order: seq<string>)
    ensures Map(AsEnd, LoggedAll(rs, order)) == Map(ResultTold, rs)
  {
    hide LoggedAll, IndexIn;
    LoggedCalls(rs, order);
    forall i | 0 <= i < |rs| ensures AsEnd(Logged(rs[i], order)) == ResultTold(rs[i]) {
      ToolResultRoundTrip(rs[i]);
    }
  }

  // The events a turn's tool half adds.
  lemma TurnFolded(prior: seq<Entry>, reply: Assistant, b: ToolBatch, log: seq<Entry>) returns (added: seq<Event>)
    requires TurnLogged(prior, reply, b, log) && Projected(log).Some?
    ensures var logged := LoggedAll(b.results, b.order);
      && added == StartEvents(Calls(reply.content)) + ExecutionEnds(ByCompletion(logged)) + MessagePairs(logged)
                  + [TurnEnd(FoldLog(log).turnMessage, FoldLog(log).turnResults)]
      && FoldLog(log).events == FoldLog(prior).events + added
  {
    hide FoldLog, Flush, ByCompletion, ExecutionEnds, MessagePairs, ResultEntries, LoggedAll;
    hide Calls, CallEntries, StartEvents;
    var calls, logged := Calls(reply.content), LoggedAll(b.results, b.order);
    var called := prior + CallEntries(calls);
    assert prior + (CallEntries(calls) + ResultEntries(logged) + [TurnClosed(None)]) == log;
    FoldPrefix(prior, CallEntries(calls) + ResultEntries(logged) + [TurnClosed(None)]);
    NonePending(prior);
    CallsFolded(prior, calls);
    TurnResultsReplayed(called, logged);
    TurnCloses(called + ResultEntries(logged));
    added := StartEvents(calls) + ExecutionEnds(ByCompletion(logged)) + MessagePairs(logged)
             + [TurnEnd(FoldLog(log).turnMessage, FoldLog(log).turnResults)];
  }

  /** Every turn's part of the rebuilt stream, read off its events. The execution starts are the reply's tool
      calls in order. The execution ends are the batch's results, one each, and come in the batch's own
      completion order exactly when calls that share an id finished one right after the other. What is
      left are the messages in source order and the turn's end. */
  lemma BatchReplayed(prior: seq<Entry>, reply: Assistant, b: ToolBatch, log: seq<Entry>)
    requires TurnLogged(prior, reply, b, log) && Projected(log).Some?
    ensures exists added ::
      && FoldLog(log).events == FoldLog(prior).events + added
      && Starts(added) == Map(CallTold, Calls(reply.content))
      && multiset(Ends(added)) == multiset(Map(ResultTold, b.results))
      && (Map(FirstOf, Ends(added)) == b.order <==> Grouped(b.order))
      && Visible(added) == MessagePairs(LoggedAll(b.results, b.order))
                           + [TurnEnd(FoldLog(log).turnMessage, FoldLog(log).turnResults)]
  {
    hide FoldLog, Flush, ByCompletion, ExecutionEnds, MessagePairs, ResultEntries, LoggedAll;
    hide Calls, CallEntries, StartEvents, Starts, Ends, Visible, Grouped, IndexIn, Map, TurnLogged;
    var calls, logged := Calls(reply.content), LoggedAll(b.results, b.order);
    var added := TurnFolded(prior, reply, b, log);
    var close := [TurnEnd(FoldLog(log).turnMessage, FoldLog(log).turnResults)];
    var ends := ExecutionEnds(ByCompletion(logged));
    PairsRead(logged);
    PairsVisible(logged);
    TurnRead(calls, ByCompletion(logged), MessagePairs(logged), close[0]);
    SortedEnds(logged);
    LoggedTold(b.results, b.order);
    EndIds(ByCompletion(logged));
    TurnBatchOk(prior, reply, b, log);
    OrderRestored(b);
    assert Ends(added) == Map(AsEnd, ByCompletion(logged));
  }

  lemma TurnBatchOk(prior: seq<Entry>, reply: Assistant, b: ToolBatch, log: seq<Entry>)
    requires TurnLogged(prior, reply, b, log)
    ensures BatchOk(b)
  {
    hide BatchOk;
  }

  lemma OrderRestored(b: ToolBatch)
    requires BatchOk(b)
    ensures CallIds(ByCompletion(LoggedAll(b.results, b.order))) == b.order <==> Grouped(b.order)
  {
    hide LoggedAll, ByCompletion, ToMessage, IndexIn, Grouped;
    var logged := LoggedAll(b.results, b.order);
    LoggedCalls(b.results, b.order);
    forall r | r in logged ensures r.completion == IndexIn(b.order, r.message.callId) {
      var i :| 0 <= i < |logged| && logged[i] == r;
      SameCall(b.results[i]);
    }
    CompletionOrderRestored(logged, b.order);
  }

  lemma EndIds(rs: seq<LoggedResult>)
    ensures Map(FirstOf, Map(AsEnd, rs)) == CallIds(rs)
  {
    forall i | 0 <= i < |rs| ensures Map(FirstOf, Map(AsEnd, rs))[i] == CallIds(rs)[i] {
      CallIdsAt(rs, i);
      assert Map(AsEnd, rs)[i] == AsEnd(rs[i]);
      assert FirstOf(AsEnd(rs[i])) == rs[i].message.callId;
    }
  }

  // Reading starts, ends and the rest off a turn's events.
  lemma TurnRead(calls: seq<Block>, sorted: seq<LoggedResult>, pairs: seq<Event>, close: Event)
    requires forall i :: 0 <= i < |calls| ==> calls[i].ToolCallBlock?
    requires Starts(pairs) == [] && Ends(pairs) == [] && Visible(pairs) == pairs && close.TurnEnd?
    ensures var added := StartEvents(calls) + ExecutionEnds(sorted) + pairs + [close];
      Starts(added) == Map(CallTold, calls) && Ends(added) == Map(AsEnd, sorted) && Visible(added) == pairs + [close]
  {
    hide Starts, Ends, Visible, StartEvents, ExecutionEnds, Map;
    var a, b := StartEvents(calls), ExecutionEnds(sorted);
    StartEventsRead(calls);
    StartsHidden(calls);
    ExecutionEndsRead(sorted);
    ExecutionEndsHidden(sorted);
    StartsAppend(a, b);
    StartsAppend(a + b, pairs);
    StartsPush(a + b + pairs, close);
    VisibleAppend(a, b);
    VisibleAppend(a + b, pairs);
    VisiblePush(a + b + pairs, close);
    assert Map(CallTold, calls) + [] + [] + [] == Map(CallTold, calls);
    assert [] + Map(AsEnd, sorted) + [] + [] == Map(AsEnd, sorted);
    assert [] + [] + pairs + [close] == pairs + [close];
  }

  lemma {:induction false} StartsHidden(calls: seq<Block>)
    requires forall i :: 0 <= i < |calls| ==> calls[i].ToolCallBlock?
    ensures Visible(StartEvents(calls)) == []
  {
    hide Visible;
    if calls == [] {
      VisibleNone();
    } else {
      var last := calls[|calls| - 1];
      StartsHidden(calls[..|calls| - 1]);
      VisiblePush(StartEvents(calls[..|calls| - 1]), ToolExecutionStart(last.id, last.name, last.arguments));
    }
  }

  lemma {:induction false} PairsVisible(rs: seq<LoggedResult>)
    ensures Visible(MessagePairs(rs)) == MessagePairs(rs)
  {
    hide Visible;
    if rs == [] {
      VisibleNone();
    } else {
      var front, m := rs[..|rs| - 1], ToolResultMessage(rs[|rs| - 1].message);
      PairsVisible(front);
      VisiblePush(MessagePairs(front), MessageStart(m));
      VisiblePush(MessagePairs(front) + [MessageStart(m)], MessageEnd(m));
      assert MessagePairs(rs) == MessagePairs(front) + [MessageStart(m)] + [MessageEnd(m)];
    }
  }

  lemma TurnCloses(log: seq<Entry>)
    requires FoldLog(log + [TurnClosed(None)]).ok
    ensures var f := FoldLog(log + [TurnClosed(None)]);
      f.events == Flush(FoldLog(log)).events + [TurnEnd(f.turnMessage, f.turnResults)]
  {
    hide Flush;
    assert (log + [TurnClosed(None)])[..|log|] == log;
  }

  lemma {:induction false} FoldPrefix(log: seq<Entry>, more: seq<Entry>)
    requires FoldLog(log + more).ok
    ensures FoldLog(log).ok
  {
    hide Read, Flush;
    if more == [] {
      assert log + more == log;
    } else {
      assert (log + more)[..|log + more| - 1] == log + more[..|more| - 1];
      FoldPrefix(log, more[..|more| - 1]);
    }
  }

  lemma SameCall(r: ToolResult)
    ensures ToMessage(r).callId == r.callId
  {
  }

  /** Why failed runs are excluded: once a reply's stream has opened, the failure message that settles
      the run is announced live but never projected as starting. */
  lemma FailureAfterStreamUnshown(partial: Assistant, failure: Assistant)
    requires partial != failure
    ensures var m := AssistantMessage(failure);
            var log := [RunOpened, TurnOpened, StreamOpened(partial), ReplyLogged(failure), TurnClosed(Some(m)),
                        RunClosed(Failed, Some([m]))];
            && Projected(log).Some?
            && MessageEnd(m) in Visible(Projected(log).value)
            && MessageStart(m) !in Visible(Projected(log).value)
  {
    hide ViewOf, Visible, Projected;
    var m := AssistantMessage(failure);
    var log := [RunOpened, TurnOpened, StreamOpened(partial), ReplyLogged(failure), TurnClosed(Some(m)),
                RunClosed(Failed, Some([m]))];
    FailedView(partial, failure, log);
    ViewIsProjection(log);
    assert ViewOf(log).shown[3] == MessageEnd(m);
  }

  lemma FailedView(partial: Assistant, failure: Assistant, log: seq<Entry>)
    requires var m := AssistantMessage(failure);
      log == [RunOpened, TurnOpened, StreamOpened(partial), ReplyLogged(failure), TurnClosed(Some(m)),
              RunClosed(Failed, Some([m]))]
    ensures var m := AssistantMessage(failure);
      && ViewOf(log).ok
      && ViewOf(log).shown == [AgentStart, TurnStart, MessageStart(AssistantMessage(partial)), MessageEnd(m),
                               TurnEnd(Some(m), []), AgentEnd(Failed, [m])]
  {
    hide ViewOf, Follow;
    var m := AssistantMessage(failure);
    var opened3 := [RunOpened, TurnOpened, StreamOpened(partial)];
    ViewOfOpened(partial);
    ViewAppends(opened3, ReplyLogged(failure));
    ViewAppends(opened3 + [ReplyLogged(failure)], TurnClosed(Some(m)));
    ViewAppends(opened3 + [ReplyLogged(failure)] + [TurnClosed(Some(m))], RunClosed(Failed, Some([m])));
    assert log == opened3 + [ReplyLogged(failure)] + [TurnClosed(Some(m))] + [RunClosed(Failed, Some([m]))];
  }

  lemma ViewOfOpened(partial: Assistant)
    ensures ViewOf([RunOpened, TurnOpened, StreamOpened(partial)])
            == View([AgentStart, TurnStart, MessageStart(AssistantMessage(partial))],
                    [], None, [], true, true, TurnActive)
  {
    ViewAppends([], RunOpened);
    ViewAppends([RunOpened], TurnOpened);
    ViewAppends([RunOpened, TurnOpened], StreamOpened(partial));
    assert [] + [RunOpened] == [RunOpened];
    assert [RunOpened] + [TurnOpened] == [RunOpened, TurnOpened];
    assert [RunOpened, TurnOpened] + [StreamOpened(partial)] == [RunOpened, TurnOpened, StreamOpened(partial)];
  }
}
