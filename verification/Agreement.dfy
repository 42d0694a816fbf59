/** The bookkeeping that relates what listeners were told live to what the log will project. */
module Agreement {
  import opened Options
  import opened Messages
  import opened Projection

  /** One event handed to the listeners, with the instance state they could read at that moment. */
  datatype Delivery = Delivery(
    event: Event, streaming: Option<Message>, lastLogged: Option<Message>, pending: set<string>)

  /** The message of the last message entry of a log, since its last reset. */
  function LastMessage(log: seq<Entry>): Option<Message> {
    if log == [] then None
    else
      match log[|log| - 1]
      case ReplyLogged(reply) => Some(AssistantMessage(reply))
      case ResultLogged(r) => Some(ToolResultMessage(r.message))
      case InputLogged(m) => Some(m)
      case SessionReset => None
      case _ => LastMessage(log[..|log| - 1])
  }

  /** A message is being streamed while its start is announced, and is in the transcript, no longer
      streaming, when its end is; a tool call is pending from the announcement of its start to that of
      its end. */
  predicate Observed(d: Delivery) {
    match d.event
    case MessageStart(m) => d.streaming == Some(m)
    case MessageEnd(m) => d.streaming == None && d.lastLogged == Some(m)
    case ToolExecutionStart(id, _, _) => id in d.pending
    case ToolExecutionEnd(id, _, _, _) => id !in d.pending
    case _ => true
  }

  /** The delivered events, without tool-execution events. */
  function Heard(ds: seq<Delivery>): seq<Event> {
    if ds == [] then []
    else Heard(ds[..|ds| - 1]) + (if ToolExecution(ds[|ds| - 1].event) then [] else [ds[|ds| - 1].event])
  }

  /** The chunk a delivered update comes back as from the log, if it comes back at all. */
  function Back(c: Chunk): Option<Chunk> {
    Rebuild(KindOf(c), c.index, c.partial, DeltaOf(c))
  }

  /** What the log lets the projection tell of a delivered event. */
  function Retold(e: Event): seq<Event> {
    if ToolExecution(e) then []
    else if !e.MessageUpdate? then [e]
    else if Back(e.chunk).None? then []
    else [MessageUpdate(Back(e.chunk).value, e.partial)]
  }

  /** The delivered events as the log tells them. */
  function Replayed(ds: seq<Delivery>): seq<Event> {
    if ds == [] then [] else Replayed(ds[..|ds| - 1]) + Retold(ds[|ds| - 1].event)
  }

  lemma ReplayedPush(ds: seq<Delivery>, d: Delivery)
    ensures Replayed(ds + [d]) == Replayed(ds) + Retold(d.event)
  {
    assert (ds + [d])[..|ds|] == ds;
  }

  /** The log lets `project` go on past this event. */
  predicate Rebuildable(e: Event) {
    e.MessageUpdate? ==> Back(e.chunk).Some?
  }

  predicate AllRebuildable(ds: seq<Delivery>) {
    forall i :: 0 <= i < |ds| ==> Rebuildable(ds[i].event)
  }

  /** Every chunk delivered kept the stream contract. */
  predicate KeepsContract(ds: seq<Delivery>) {
    forall i :: 0 <= i < |ds| && ds[i].event.MessageUpdate? ==> WellFormed(ds[i].event.chunk)
  }

  lemma RebuildablePush(ds: seq<Delivery>, d: Delivery)
    ensures AllRebuildable(ds + [d]) <==> AllRebuildable(ds) && Rebuildable(d.event)
  {
    hide Rebuildable;
    assert (ds + [d])[|ds|] == d;
    assert forall i :: 0 <= i < |ds| ==> (ds + [d])[i] == ds[i];
  }

  /** What comes back is what was delivered exactly when every chunk kept the stream contract. */
  lemma {:induction false} ReplayedSame(ds: seq<Delivery>)
    requires AllRebuildable(ds)
    ensures |Replayed(ds)| == |Heard(ds)|
    ensures Replayed(ds) == Heard(ds) <==> KeepsContract(ds)
  {
    hide Rebuild, WellFormed;
    if ds != [] {
      var front, e := ds[..|ds| - 1], ds[|ds| - 1].event;
      ReplayedSame(front);
      assert Rebuildable(e);
      RetoldSame(e);
      SameParts(Replayed(front), Heard(front), Retold(e), if ToolExecution(e) then [] else [e]);
      assert KeepsContract(ds) <==> KeepsContract(front) && (e.MessageUpdate? ==> WellFormed(e.chunk));
    }
  }

  lemma RetoldSame(e: Event)
    requires Rebuildable(e)
    ensures |Retold(e)| == if ToolExecution(e) then 0 else 1
    ensures Retold(e) == (if ToolExecution(e) then [] else [e]) <==> (e.MessageUpdate? ==> WellFormed(e.chunk))
  {
    hide Rebuild, WellFormed;
    if e.MessageUpdate? {
      ChunkRoundTrip(e.chunk);
      assert Retold(e)[0] == MessageUpdate(Back(e.chunk).value, e.partial);
    }
  }

  lemma SameParts(a: seq<Event>, b: seq<Event>, x: seq<Event>, y: seq<Event>)
    requires |a| == |b| && |x| == |y|
    ensures a + x == b + y <==> a == b && x == y
  {
    if a + x == b + y {
      assert (a + x)[..|a|] == a && (b + y)[..|b|] == b;
      assert (a + x)[|a|..] == x && (b + y)[|b|..] == y;
    }
  }

  /** `shown` is `heard` with exactly `n` message starts left out. */
  ghost predicate Missing(heard: seq<Event>, shown: seq<Event>, n: nat)
    decreases |heard|
  {
    if heard == [] then shown == [] && n == 0
    else
      var front, x := heard[..|heard| - 1], heard[|heard| - 1];
      || (shown != [] && shown[|shown| - 1] == x && Missing(front, shown[..|shown| - 1], n))
      || (x.MessageStart? && n > 0 && Missing(front, shown, n - 1))
  }

  lemma MissingBoth(heard: seq<Event>, shown: seq<Event>, n: nat, x: Event)
    requires Missing(heard, shown, n)
    ensures Missing(heard + [x], shown + [x], n)
  {
    assert (heard + [x])[..|heard|] == heard && (shown + [x])[..|shown|] == shown;
  }

  lemma MissingDrop(heard: seq<Event>, shown: seq<Event>, n: nat, x: Event)
    requires Missing(heard, shown, n) && x.MessageStart?
    ensures Missing(heard + [x], shown, n + 1)
  {
    assert (heard + [x])[..|heard|] == heard;
  }

  lemma {:induction false} MissingCounts(heard: seq<Event>, shown: seq<Event>, n: nat)
    requires Missing(heard, shown, n)
    ensures |heard| == |shown| + n
    ensures n == 0 ==> heard == shown
    decreases |heard|
  {
    if heard != [] {
      var front, x := heard[..|heard| - 1], heard[|heard| - 1];
      if shown != [] && shown[|shown| - 1] == x && Missing(front, shown[..|shown| - 1], n) {
        MissingCounts(front, shown[..|shown| - 1], n);
      } else {
        MissingCounts(front, shown, n - 1);
      }
    }
  }

  /** The live deliveries, as the log tells them, and the log agree but for `lost` message starts; the
      projection can be made exactly if every delivered chunk can be rebuilt; and every delivery showed
      its listeners the state its event announces. */
  ghost predicate Agrees(live: seq<Delivery>, log: seq<Entry>, lost: nat) {
    && Missing(Replayed(live), ViewOf(log).shown, lost)
    && (ViewOf(log).ok <==> AllRebuildable(live))
    && (forall i :: 0 <= i < |live| ==> Observed(live[i]))
  }

  /** `project` returns exactly when every delivered chunk can be rebuilt, and then shows as many events as
      were delivered but for the lost starts; it returns the delivered stream itself exactly when none is
      lost and every chunk kept the stream contract. */
  lemma LiveEqualsProjection(live: seq<Delivery>, log: seq<Entry>, lost: nat)
    requires Agrees(live, log, lost)
    ensures Projected(log).Some? <==> AllRebuildable(live)
    ensures Projected(log).Some? ==> |Heard(live)| == |Visible(Projected(log).value)| + lost
    ensures Projected(log).Some? && Heard(live) == Visible(Projected(log).value) <==>
            lost == 0 && KeepsContract(live)
  {
    hide Missing, Heard, Replayed, ViewOf, Visible, Projected, Rebuildable, WellFormed;
    ViewIsProjection(log);
    MissingCounts(Replayed(live), ViewOf(log).shown, lost);
    ContractRebuilds(live);
    if AllRebuildable(live) { ReplayedSame(live); }
  }

  lemma ContractRebuilds(live: seq<Delivery>)
    ensures KeepsContract(live) ==> AllRebuildable(live)
  {
    hide Rebuild, WellFormed;
    if KeepsContract(live) {
      forall i | 0 <= i < |live| ensures Rebuildable(live[i].event) {
        if live[i].event.MessageUpdate? { ChunkRoundTrip(live[i].event.chunk); }
      }
    }
  }

  lemma AgreesInitially()
    ensures Agrees([], [], 0)
    ensures !ViewOf([]).open
  {
  }

  /** The entry shows what the log tells of the event, and can be rebuilt if the event can. */
  predicate Tells(v: View, e: Entry, event: Event) {
    && Advance(v, e).shown == v.shown + Retold(event)
    && (Rebuilds(e) <==> Rebuildable(event))
  }

  /** An entry and the delivery that announces it, in either order. */
  lemma LogAndTell(live: seq<Delivery>, log: seq<Entry>, lost: nat, e: Entry, d: Delivery)
    requires Agrees(live, log, lost) && Observed(d) && Tells(ViewOf(log), e, d.event)
    ensures Agrees(live + [d], log + [e], lost)
    ensures ViewOf(log + [e]) == Advance(ViewOf(log), e)
  {
    hide Missing, Replayed, ViewOf, Advance, Rebuilds, Rebuildable, Retold;
    ViewAppends(log, e);
    AdvanceOk(ViewOf(log), e);
    ReplayedPush(live, d);
    RebuildablePush(live, d);
    RetoldShort(d.event);
    MissingMore(Replayed(live), ViewOf(log).shown, lost, Retold(d.event));
  }

  lemma RetoldShort(e: Event)
    ensures |Retold(e)| <= 1
  {
  }

  lemma MissingMore(heard: seq<Event>, shown: seq<Event>, n: nat, xs: seq<Event>)
    requires Missing(heard, shown, n) && |xs| <= 1
    ensures Missing(heard + xs, shown + xs, n)
  {
    hide Missing;
    if xs == [] {
      assert heard + xs == heard && shown + xs == shown;
    } else {
      assert xs == [xs[0]];
      MissingBoth(heard, shown, n, xs[0]);
    }
  }

  /** An entry the stream does not show. */
  lemma LogOnly(live: seq<Delivery>, log: seq<Entry>, lost: nat, e: Entry)
    requires Agrees(live, log, lost) && !e.ChunkLogged? && Advance(ViewOf(log), e).shown == ViewOf(log).shown
    ensures Agrees(live, log + [e], lost)
    ensures ViewOf(log + [e]) == Advance(ViewOf(log), e)
  {
    hide Missing, Replayed, ViewOf, Advance, Rebuildable;
    ViewAppends(log, e);
    AdvanceOk(ViewOf(log), e);
  }

  lemma TellTool(live: seq<Delivery>, log: seq<Entry>, lost: nat, d: Delivery)
    requires Agrees(live, log, lost) && Observed(d) && ToolExecution(d.event)
    ensures Agrees(live + [d], log, lost)
  {
    hide Missing, Replayed, ViewOf;
    ReplayedPush(live, d);
    RebuildablePush(live, d);
    assert Replayed(live) + [] == Replayed(live);
  }

  /** A message start announced for a message that the log does not show starting. */
  lemma TellUnlogged(live: seq<Delivery>, log: seq<Entry>, lost: nat, d: Delivery)
    requires Agrees(live, log, lost) && Observed(d) && d.event.MessageStart?
    ensures Agrees(live + [d], log, lost + 1)
  {
    hide Missing, Replayed, ViewOf;
    ReplayedPush(live, d);
    RebuildablePush(live, d);
    MissingDrop(Replayed(live), ViewOf(log).shown, lost, d.event);
  }

  /** A message start, the entry that logs the message, and its end. */
  lemma LogAndTellMessage(live: seq<Delivery>, log: seq<Entry>, lost: nat, e: Entry, d1: Delivery, d2: Delivery)
    requires Agrees(live, log, lost) && Observed(d1) && Observed(d2)
    requires d1.event.MessageStart? && d2.event.MessageEnd? && !e.ChunkLogged?
    requires Advance(ViewOf(log), e).shown == ViewOf(log).shown + [d1.event] + [d2.event]
    ensures Agrees(live + [d1] + [d2], log + [e], lost)
    ensures ViewOf(log + [e]) == Advance(ViewOf(log), e)
  {
    hide Missing, Replayed, ViewOf, Advance, AllRebuildable;
    ViewAppends(log, e);
    AdvanceOk(ViewOf(log), e);
    ReplayedPush(live, d1);
    ReplayedPush(live + [d1], d2);
    RebuildablePush(live, d1);
    RebuildablePush(live + [d1], d2);
    MissingBoth(Replayed(live), ViewOf(log).shown, lost, d1.event);
    MissingBoth(Replayed(live) + [d1.event], ViewOf(log).shown + [d1.event], lost, d2.event);
  }

  lemma LastPush(log: seq<Entry>, e: Entry)
    ensures e.ReplyLogged? ==> LastMessage(log + [e]) == Some(AssistantMessage(e.reply))
    ensures e.ResultLogged? ==> LastMessage(log + [e]) == Some(ToolResultMessage(e.result.message))
    ensures e.InputLogged? ==> LastMessage(log + [e]) == Some(e.message)
  {
  }

  /** An entry that logs message `m` on its own: admitted input, or a tool result. */
  predicate LogsMessage(e: Entry, m: Message) {
    e == InputLogged(m) || (e.ResultLogged? && m == ToolResultMessage(e.result.message))
  }

  lemma MessageEntryShows(v: View, e: Entry, m: Message)
    requires LogsMessage(e, m)
    ensures Advance(v, e).open == v.open
    ensures Advance(v, e).shown == v.shown + [MessageStart(m)] + [MessageEnd(m)]
    ensures Advance(v, e).run == v.run + [m]
    ensures Advance(v, e).turnResults == v.turnResults + (if e.ResultLogged? then [m] else [])
    ensures e.ResultLogged? ==> Advance(v, e).turnMessage == v.turnMessage
    ensures v.phase == TurnActive || v.phase == TurnDone ==> Advance(v, e).phase == v.phase
  {
  }

  /** The message starts a reply's end will leave unprojected: one when the reply did not stream but
      the log still shows an earlier stream as open. */
  function Unshown(v: View, streamed: bool): nat {
    if !streamed && v.open then 1 else 0
  }

  lemma ReplyShows(v: View, reply: Assistant)
    ensures var m, w := AssistantMessage(reply), Advance(v, ReplyLogged(reply));
            && !w.open && w.run == v.run + [m] && w.turnMessage == Some(m)
            && w.turnResults == v.turnResults && (v.phase == TurnActive ==> w.phase == TurnActive)
            && (v.open ==> w.shown == v.shown + [MessageEnd(m)])
            && (!v.open ==> w.shown == v.shown + [MessageStart(m)] + [MessageEnd(m)])
  {
    assert v.shown + [] + [MessageEnd(AssistantMessage(reply))] == v.shown + [MessageEnd(AssistantMessage(reply))];
  }

  function Started(m: Message, log: seq<Entry>, pending: set<string>): Delivery {
    Delivery(MessageStart(m), Some(m), LastMessage(log), pending)
  }

  function Ended(reply: Assistant, log: seq<Entry>, pending: set<string>): Delivery {
    Delivery(MessageEnd(AssistantMessage(reply)), None, LastMessage(log + [ReplyLogged(reply)]), pending)
  }

  /** The log already shows the reply's stream as started. */
  lemma ReplyToldOpen(live: seq<Delivery>, log: seq<Entry>, lost: nat, reply: Assistant, pending: set<string>)
    requires Agrees(live, log, lost) && ViewOf(log).open
    ensures Agrees(live + [Ended(reply, log, pending)], log + [ReplyLogged(reply)], lost)
    ensures ViewOf(log + [ReplyLogged(reply)]) == Advance(ViewOf(log), ReplyLogged(reply))
  {
    hide Missing, Replayed, ViewOf, Advance, LastMessage;
    LastPush(log, ReplyLogged(reply));
    ReplyShows(ViewOf(log), reply);
    LogAndTell(live, log, lost, ReplyLogged(reply), Ended(reply, log, pending));
  }

  /** A start is announced, but the log shows an older stream as open and will not project it. */
  lemma ReplyToldStale(live: seq<Delivery>, log: seq<Entry>, lost: nat, reply: Assistant, pending: set<string>)
    requires Agrees(live, log, lost) && ViewOf(log).open
    ensures Agrees(live + [Started(AssistantMessage(reply), log, pending)] + [Ended(reply, log, pending)],
                   log + [ReplyLogged(reply)], lost + 1)
    ensures ViewOf(log + [ReplyLogged(reply)]) == Advance(ViewOf(log), ReplyLogged(reply))
  {
    hide Missing, Replayed, ViewOf, Advance, LastMessage;
    TellUnlogged(live, log, lost, Started(AssistantMessage(reply), log, pending));
    ReplyToldOpen(live + [Started(AssistantMessage(reply), log, pending)], log, lost + 1, reply, pending);
  }

  /** A reply that did not stream: its start is projected from its own entry. */
  lemma ReplyToldWhole(live: seq<Delivery>, log: seq<Entry>, lost: nat, reply: Assistant, pending: set<string>)
    requires Agrees(live, log, lost) && !ViewOf(log).open
    ensures Agrees(live + [Started(AssistantMessage(reply), log, pending)] + [Ended(reply, log, pending)],
                   log + [ReplyLogged(reply)], lost)
    ensures ViewOf(log + [ReplyLogged(reply)]) == Advance(ViewOf(log), ReplyLogged(reply))
  {
    hide Missing, Replayed, ViewOf, Advance, LastMessage;
    LastPush(log, ReplyLogged(reply));
    ReplyShows(ViewOf(log), reply);
    LogAndTellMessage(live, log, lost, ReplyLogged(reply),
                      Started(AssistantMessage(reply), log, pending), Ended(reply, log, pending));
  }
}
