/** RFC 8628 device-code polling against a clock that may run late, a server that may answer anything, and
    a signal that may abort at any moment. Times are in milliseconds. */
module DeviceCode {
  import opened Options
  import opened Floats

  const MINIMUM_INTERVAL := 1000.0
  const DEFAULT_INTERVAL := 5000.0
  const SLOW_DOWN_INCREMENT := 5000.0
  const MAX_DELAY := 2_147_483_647.0
  const SLICE := 50

  datatype Reply = Pending | SlowDown(interval: Option<Float>) | Refused(message: string) | Complete(value: nat)

  datatype Outcome = Returned(value: nat) | Cancelled | Failed(message: string) | TimedOut(slowedDown: bool)

  /** What the flow did: a poll from `at` to `until`, or a sleep begun at `at` under the current interval. */
  datatype Event =
    | Polled(at: real, until: real, aborted: bool, reply: Reply)
    | Slept(at: real, interval: Float, delay: nat)

  // ---------------------------------------------------------------------------------------------
  // Intervals and delays
  // ---------------------------------------------------------------------------------------------

  /** `_floor_to_whole_milliseconds`: non-finite values pass through. */
  function WholeMilliseconds(f: Float): Float {
    if f.Fin? then Fin(f.r.Floor as real) else f
  }

  /** Python's `max(minimum, f)` guarded for NaN. */
  function AtLeastMinimum(f: Float): Float {
    if f.NaN? then f else if AtLeast(Fin(MINIMUM_INTERVAL), f) then Fin(MINIMUM_INTERVAL) else f
  }

  function InitialInterval(interval: Option<Float>): Float {
    AtLeastMinimum(WholeMilliseconds(if interval.Some? then interval.value else Fin(DEFAULT_INTERVAL)))
  }

  predicate Usable(interval: Option<Float>) {
    interval.Some? && interval.value.Fin? && interval.value.r > 0.0
  }

  /** A slow_down takes the server's interval when finite and positive, and otherwise adds five seconds. */
  function NextInterval(interval: Float, reply: Reply): Float {
    if !reply.SlowDown? then interval
    else if Usable(reply.interval) then
      AtLeastMinimum(WholeMilliseconds(reply.interval.value))
    else AtLeastMinimum(Plus(interval, Fin(SLOW_DOWN_INCREMENT)))
  }

  /** The interval in force after a run of events. */
  function IntervalAfter(initial: Float, events: seq<Event>): Float {
    if events == [] then initial
    else
      var before := IntervalAfter(initial, events[..|events| - 1]);
      var e := events[|events| - 1];
      if e.Polled? then NextInterval(before, e.reply) else before
  }

  /** `min(interval, remaining)` as Python evaluates it: a NaN interval wins. */
  function Capped(interval: Float, remaining: real): Float {
    if interval.NaN? || AtLeast(Fin(remaining), interval) then interval else Fin(remaining)
  }

  predicate InTimerRange(f: Float) {
    f.Fin? && 1.0 <= f.r <= MAX_DELAY
  }

  /** The whole milliseconds a delay is scheduled for: one when it is out of the host timer's range. */
  function Delay(f: Float): (d: nat)
    ensures 1 <= d && d as real <= MAX_DELAY
    ensures InTimerRange(f) ==> f.r - 1.0 < d as real <= f.r
  {
    if InTimerRange(f) then f.r.Floor else 1
  }

  // ---------------------------------------------------------------------------------------------
  // Clock, signal and server
  // ---------------------------------------------------------------------------------------------

  class Host {
    var now: real
    var aborted: bool
    /** When the signal was aborted. */
    ghost var since: real
    /** Sleeps take exactly as long as asked. */
    const exact: bool

    ghost predicate Valid()
      reads this
    {
      aborted ==> since <= now
    }

    constructor (now: real, aborted: bool, exact: bool)
      ensures Valid() && this.now == now && this.aborted == aborted && this.exact == exact
    {
      this.now, this.aborted, this.exact, this.since := now, aborted, exact, now;
    }

    // Time passes, at least `least`; the signal may be aborted in the course of it.
    method Pass(least: real, late: real)
      requires Valid() && least >= 0.0 && late >= 0.0
      modifies this
      ensures Valid() && now == old(now) + least + late
      ensures old(aborted) ==> aborted && since == old(since)
      ensures !old(aborted) && aborted ==> old(now) <= since
    {
      var aborts: bool := *;
      ghost var moment: real := *;
      now := now + least + late;
      if aborts && !aborted {
        aborted := true;
        since := if now - least - late <= moment <= now then moment else now;
      }
    }

    method Sleep(step: nat)
      requires Valid()
      modifies this
      ensures Valid() && now >= old(now) + step as real && (exact ==> now == old(now) + step as real)
      ensures old(aborted) ==> aborted && since == old(since)
      ensures !old(aborted) && aborted ==> old(now) <= since
    {
      var late: real := *;
      Pass(step as real, if exact || late < 0.0 then 0.0 else late);
    }

    method Poll() returns (reply: Reply)
      requires Valid()
      modifies this
      ensures Valid() && now >= old(now)
      ensures old(aborted) ==> aborted && since == old(since)
      ensures !old(aborted) && aborted ==> old(now) <= since
    {
      var took: real := *;
      Pass(0.0, if took < 0.0 then 0.0 else took);
      reply := *;
    }
  }

  /** `abortable_sleep`: the delay in slices, the signal checked before the first and after each. */
  method AbortableSleep(host: Host, wanted: Float) returns (cancelled: bool)
    requires host.Valid()
    modifies host
    ensures host.Valid() && host.now >= old(host.now)
    ensures cancelled == host.aborted
    ensures old(host.aborted) ==> host.now == old(host.now) && host.since == old(host.since)
    ensures !cancelled ==> host.now >= old(host.now) + Delay(wanted) as real
    ensures host.exact && !cancelled ==> host.now == old(host.now) + Delay(wanted) as real
    ensures host.exact && cancelled ==> host.now <= old(host.now) + Delay(wanted) as real
    ensures host.exact && cancelled && !old(host.aborted) ==> host.since <= host.now <= host.since + 50.0
  {
    var remaining: nat := Delay(wanted);
    if host.aborted { return true; }
    while remaining > 0
      invariant host.Valid() && !host.aborted
      invariant host.now >= old(host.now) + Delay(wanted) as real - remaining as real
      invariant remaining <= Delay(wanted)
      invariant host.exact ==> host.now == old(host.now) + Delay(wanted) as real - remaining as real
    {
      var step := if SLICE <= remaining then SLICE else remaining;
      host.Sleep(step);
      remaining := remaining - step;
      if host.aborted { return true; }
    }
    return false;
  }

  // ---------------------------------------------------------------------------------------------
  // What a run did
  // ---------------------------------------------------------------------------------------------

  /** Every poll starts before the deadline with the signal not aborted; every sleep runs under the
      interval the replies so far call for, capped by the time left, and is due less than one millisecond
      past the deadline. */
  predicate Lawful(events: seq<Event>, initial: Float, deadline: real) {
    forall i :: 0 <= i < |events| ==> LawfulEvent(events[..i], events[i], initial, deadline)
  }

  predicate LawfulEvent(before: seq<Event>, e: Event, initial: Float, deadline: real) {
    match e
    case Polled(at, until, aborted, reply) => at < deadline && at <= until && !aborted
    case Slept(at, interval, delay) =>
      && at < deadline
      && interval == IntervalAfter(initial, before)
      && delay == Delay(Capped(interval, deadline - at))
      && at + delay as real < deadline + 1.0
  }

  /** Polls and sleeps alternate, a sleep first only when asked for; a sleep begins when the poll before it
      ends, and a poll no earlier than the sleep before it is due, exactly then if sleeps are exact. */
  predicate Alternates(events: seq<Event>, waitFirst: bool, exact: bool) {
    forall i :: 0 <= i < |events| ==> Turn(events[..i], events[i], waitFirst, exact)
  }

  predicate Turn(before: seq<Event>, e: Event, waitFirst: bool, exact: bool) {
    if before == [] then e.Slept? == waitFirst
    else
      var last := before[|before| - 1];
      if last.Polled? then e.Slept? && e.at == last.until
      else e.Polled? && e.at >= last.at + last.delay as real && (exact ==> e.at == last.at + last.delay as real)
  }

  function Polls(events: seq<Event>): nat {
    if events == [] then 0
    else Polls(events[..|events| - 1]) + if events[|events| - 1].Polled? then 1 else 0
  }

  function SlowDowns(events: seq<Event>): nat {
    if events == [] then 0
    else SlowDowns(events[..|events| - 1]) + if IsSlowDown(events[|events| - 1]) then 1 else 0
  }

  predicate IsSlowDown(e: Event) {
    e.Polled? && e.reply.SlowDown?
  }

  /** No sleep asked the host timer for more than it can hold. */
  predicate Ranged(events: seq<Event>, deadline: real) {
    forall i :: 0 <= i < |events| && events[i].Slept? ==> RangedSleep(events[i].interval, deadline - events[i].at)
  }

  predicate RangedSleep(interval: Float, remaining: real) {
    !interval.NaN? && (AtLeast(Fin(2147483647.0), interval) || remaining <= 2147483647.0)
  }

  /** When the last poll ended, or the flow began. */
  function LastEnd(events: seq<Event>, start: real): real {
    if events == [] then start
    else if events[|events| - 1].Polled? then events[|events| - 1].until
    else LastEnd(events[..|events| - 1], start)
  }

  // Events that decide: a reply that ends the flow is the last event.
  predicate Undecided(events: seq<Event>) {
    forall i :: 0 <= i < |events| && events[i].Polled? ==> !events[i].reply.Complete? && !events[i].reply.Refused?
  }

  /** What each outcome says about the run. With exact sleeps a time-out comes less than a millisecond past
      the deadline and a cancellation within one slice of the abort, unless a poll was in progress. */
  ghost predicate Ends(events: seq<Event>, outcome: Outcome, start: real, deadline: real, host: Host)
    reads host
  {
    match outcome
    case Returned(v) => events != [] && DecidedBy(events, Complete(v))
    case Failed(m) => events != [] && DecidedBy(events, Refused(m))
    case TimedOut(slow) =>
      && Undecided(events) && (slow <==> SlowDowns(events) > 0) && host.now >= deadline
      && (host.exact && host.now > LastEnd(events, start) ==> host.now < deadline + 1.0)
    case Cancelled =>
      && Undecided(events) && host.aborted
      && (host.exact && host.now > LastEnd(events, start) ==> host.now <= host.since + 50.0)
  }

  predicate DecidedBy(events: seq<Event>, reply: Reply)
    requires events != []
  {
    var last := events[|events| - 1];
    Undecided(events[..|events| - 1]) && last.Polled? && last.reply == reply
  }

  /** At most one poll a millisecond, whatever the intervals; at most one a second, and two more, when every
      delay fits the host timer. */
  predicate FewPolls(events: seq<Event>, expires: real, deadline: real) {
    && (expires <= 0.0 ==> events == [])
    && (expires > 0.0 ==> Polls(events) <= expires.Floor + 1)
    && (expires > 0.0 && Ranged(events, deadline) ==> Polls(events) <= (expires / 1000.0).Floor + 2)
  }

  // ---------------------------------------------------------------------------------------------
  // Steps
  // ---------------------------------------------------------------------------------------------

  lemma LawfulMore(events: seq<Event>, e: Event, initial: Float, deadline: real)
    requires Lawful(events, initial, deadline) && LawfulEvent(events, e, initial, deadline)
    ensures Lawful(events + [e], initial, deadline)
  {
    hide LawfulEvent;
    var more := events + [e];
    assert forall i :: 0 <= i < |events| ==> more[..i] == events[..i] && more[i] == events[i];
    assert more[..|events|] == events;
  }

  lemma AlternatesMore(events: seq<Event>, e: Event, waitFirst: bool, exact: bool)
    requires Alternates(events, waitFirst, exact) && Turn(events, e, waitFirst, exact)
    ensures Alternates(events + [e], waitFirst, exact)
  {
    hide Turn;
    var more := events + [e];
    assert forall i :: 0 <= i < |events| ==> more[..i] == events[..i] && more[i] == events[i];
    assert more[..|events|] == events;
  }

  lemma Grows(events: seq<Event>, e: Event, initial: Float, start: real, deadline: real)
    ensures var more := events + [e];
      && Polls(more) == Polls(events) + (if e.Polled? then 1 else 0)
      && SlowDowns(more) == SlowDowns(events) + (if IsSlowDown(e) then 1 else 0)
      && (e.Polled? ==> IntervalAfter(initial, more) == NextInterval(IntervalAfter(initial, events), e.reply))
      && (!e.Polled? ==> IntervalAfter(initial, more) == IntervalAfter(initial, events))
      && LastEnd(more, start) == (if e.Polled? then e.until else LastEnd(events, start))
  {
    assert (events + [e])[..|events|] == events;
  }

  lemma RangedMore(events: seq<Event>, e: Event, deadline: real)
    ensures Ranged(events + [e], deadline) <==>
      Ranged(events, deadline) && (e.Slept? ==> RangedSleep(e.interval, deadline - e.at))
  {
    hide RangedSleep;
    var more := events + [e];
    assert more[|events|] == e;
    assert forall i :: 0 <= i < |events| ==> more[i] == events[i];
  }

  lemma UndecidedMore(events: seq<Event>, e: Event)
    requires Undecided(events) && (e.Polled? ==> !e.reply.Complete? && !e.reply.Refused?)
    ensures Undecided(events + [e])
  {
  }

  predicate Minimal(interval: Float) {
    interval.NaN? || AtLeast(interval, Fin(MINIMUM_INTERVAL))
  }

  /** No interval in force is below the minimum. */
  lemma {:induction false} IntervalsMinimal(interval: Option<Float>, events: seq<Event>)
    ensures Minimal(IntervalAfter(InitialInterval(interval), events))
  {
    hide AtLeastMinimum, Minimal;
    MinimumApplied(WholeMilliseconds(if interval.Some? then interval.value else Fin(DEFAULT_INTERVAL)));
    if events != [] {
      var front := events[..|events| - 1];
      IntervalsMinimal(interval, front);
      var e := events[|events| - 1];
      if e.Polled? && e.reply.SlowDown? {
        if e.reply.interval.Some? { MinimumApplied(WholeMilliseconds(e.reply.interval.value)); }
        MinimumApplied(Plus(IntervalAfter(InitialInterval(interval), front), Fin(SLOW_DOWN_INCREMENT)));
      }
    }
  }

  lemma MinimumApplied(f: Float)
    ensures Minimal(AtLeastMinimum(f))
  {
  }

  /** The interval a flow starts with: the caller's, in whole milliseconds and never below one second, or five
      seconds; an infinite or undefined one is kept as it is, except that nothing is below one second. */
  lemma StartsWith(interval: Option<Float>)
    ensures interval == None ==> InitialInterval(interval) == Fin(5000.0)
    ensures interval.Some? && interval.value.Fin? ==>
      var start, asked := InitialInterval(interval), interval.value.r;
      && start.Fin? && start.r >= 1000.0 && start.r.Floor as real == start.r
      && (asked >= 1000.0 ==> asked - 1.0 < start.r <= asked) && (asked < 1000.0 ==> start.r == 1000.0)
    ensures interval == Some(NaN) ==> InitialInterval(interval) == NaN
    ensures interval == Some(PosInf) ==> InitialInterval(interval) == PosInf
    ensures interval == Some(NegInf) ==> InitialInterval(interval) == Fin(1000.0)
  {
  }

  /** A sleep is for the interval or the time left, whichever is less. */
  lemma CappedIsLess(interval: Float, remaining: real)
    ensures interval.Fin? ==>
      Capped(interval, remaining) == Fin(if interval.r <= remaining then interval.r else remaining)
    ensures interval == PosInf ==> Capped(interval, remaining) == Fin(remaining)
    ensures interval == NaN ==> Capped(interval, remaining) == NaN
  {
  }

  /** Without a usable interval from the server, each slow_down adds five seconds. */
  lemma {:induction false} SlowDownsAdd(interval: Option<Float>, events: seq<Event>)
    requires InitialInterval(interval).Fin?
    requires forall i :: 0 <= i < |events| && IsSlowDown(events[i]) ==> !Usable(events[i].reply.interval)
    ensures IntervalAfter(InitialInterval(interval), events)
      == Fin(InitialInterval(interval).r + 5000.0 * SlowDowns(events) as real)
  {
    IntervalsMinimal(interval, []);
    if events != [] { SlowDownsAdd(interval, events[..|events| - 1]); }
  }

  /** After a slow_down that names a usable interval, that one is in force, in whole milliseconds and never
      below one second. */
  lemma SlowDownNames(interval: Float, reply: Reply)
    requires reply.SlowDown? && Usable(reply.interval)
    ensures var next, named := NextInterval(interval, reply), reply.interval.value.r;
      next.Fin? && next.r >= 1000.0 && (named >= 1000.0 ==> named - 1.0 < next.r <= named)
  {
  }

  /** A delay collapses to one millisecond exactly when it is out of the host timer's range. */
  lemma CollapsesIff(interval: Float, remaining: real)
    requires Minimal(interval) && remaining >= 2.0
    ensures Delay(Capped(interval, remaining)) == 1 <==> !RangedSleep(interval, remaining)
  {
  }

  // The pace of polling at a loop head: one second each, or the deadline less than a millisecond away.
  predicate Paced(polls: nat, now: real, start: real, expires: real) {
    var left := start + expires - now;
    && polls <= (expires / 1000.0).Floor + 2
    && (left > 0.0 ==> 1000.0 * (polls as real) <= now - start || (left < 1.0 && polls <= (expires / 1000.0).Floor + 1))
  }

  lemma PacedSleep(polls: nat, at: real, until: real, now: real, start: real, expires: real, interval: Float)
    requires Paced(polls, at, start, expires) && at < start + expires && at <= until < start + expires
    requires Minimal(interval) && RangedSleep(interval, start + expires - until)
    requires now >= until + Delay(Capped(interval, start + expires - until)) as real
    ensures Paced(polls + 1, now, start, expires)
  {
  }

  lemma PacedLater(polls: nat, at: real, now: real, start: real, expires: real)
    requires Paced(polls, at, start, expires) && at <= now && 1000.0 * polls as real <= at - start
    ensures Paced(polls, now, start, expires)
  {
  }

  lemma PacedPoll(polls: nat, at: real, start: real, expires: real)
    requires Paced(polls, at, start, expires) && at < start + expires
    ensures polls + 1 <= (expires / 1000.0).Floor + 2
  {
  }

  lemma FewAtFirst(expires: real, deadline: real)
    ensures FewPolls([], expires, deadline)
  {
    assert Polls([]) == 0;
  }

  lemma FewAfterPoll(events: seq<Event>, e: Event, start: real, expires: real)
    requires FewPolls(events, expires, start + expires) && e.Polled? && e.at < start + expires && expires > 0.0
    requires Polls(events) as real <= e.at - start
    requires Ranged(events, start + expires) ==> Paced(Polls(events), e.at, start, expires)
    ensures FewPolls(events + [e], expires, start + expires)
  {
    hide Ranged, Paced, Polls;
    Grows(events, e, NaN, start, start + expires);
    RangedMore(events, e, start + expires);
    if Ranged(events, start + expires) { PacedPoll(Polls(events), e.at, start, expires); }
  }

  lemma FewAfterSleep(events: seq<Event>, e: Event, expires: real, deadline: real)
    requires FewPolls(events, expires, deadline) && e.Slept? && expires > 0.0
    ensures FewPolls(events + [e], expires, deadline)
    ensures Ranged(events + [e], deadline) <==> Ranged(events, deadline) && RangedSleep(e.interval, deadline - e.at)
  {
    hide Ranged, Polls, RangedSleep;
    Grows(events, e, NaN, 0.0, deadline);
    RangedMore(events, e, deadline);
  }

  /** What holds of the events of a flow at every moment. */
  predicate Recorded(events: seq<Event>, initial: Float, start: real, expires: real, waitFirst: bool, exact: bool) {
    && Lawful(events, initial, start + expires)
    && Alternates(events, waitFirst, exact)
    && FewPolls(events, expires, start + expires)
  }

  lemma RecordedPoll(events: seq<Event>, e: Event, initial: Float, start: real, expires: real, waitFirst: bool,
      exact: bool)
    requires Recorded(events, initial, start, expires, waitFirst, exact) && expires > 0.0
    requires e.Polled? && LawfulEvent(events, e, initial, start + expires) && Turn(events, e, waitFirst, exact)
    requires Polls(events) as real <= e.at - start
    requires Ranged(events, start + expires) ==> Paced(Polls(events), e.at, start, expires)
    ensures Recorded(events + [e], initial, start, expires, waitFirst, exact)
    ensures Ranged(events + [e], start + expires) <==> Ranged(events, start + expires)
  {
    hide Lawful, Alternates, FewPolls, Ranged, Polls, Paced;
    LawfulMore(events, e, initial, start + expires);
    AlternatesMore(events, e, waitFirst, exact);
    FewAfterPoll(events, e, start, expires);
    RangedMore(events, e, start + expires);
  }

  lemma RecordedSleep(events: seq<Event>, e: Event, initial: Float, start: real, expires: real, waitFirst: bool,
      exact: bool)
    requires Recorded(events, initial, start, expires, waitFirst, exact) && expires > 0.0
    requires e.Slept? && LawfulEvent(events, e, initial, start + expires) && Turn(events, e, waitFirst, exact)
    ensures Recorded(events + [e], initial, start, expires, waitFirst, exact)
    ensures Ranged(events + [e], start + expires) <==>
      Ranged(events, start + expires) && RangedSleep(e.interval, start + expires - e.at)
  {
    hide Lawful, Alternates, FewPolls, Ranged, RangedSleep;
    LawfulMore(events, e, initial, start + expires);
    AlternatesMore(events, e, waitFirst, exact);
    FewAfterSleep(events, e, expires, start + expires);
  }

  // ---------------------------------------------------------------------------------------------
  // The flow
  // ---------------------------------------------------------------------------------------------

  // One sleep of the flow, recorded.
  method Wait(host: Host, interval: Float, deadline: real, events: seq<Event>, ghost initial: Float, ghost start: real,
    ghost expires: real, ghost waitFirst: bool) returns (cancelled: bool, more: seq<Event>)
    requires interval == IntervalAfter(initial, events) && deadline == start + expires && expires > 0.0
    requires host.Valid() && host.now < deadline && Undecided(events)
    requires Recorded(events, initial, start, expires, waitFirst, host.exact)
    requires var e := Slept(host.now, interval, Delay(Capped(interval, deadline - host.now)));
      Turn(events, e, waitFirst, host.exact)
    requires host.aborted ==> host.now <= LastEnd(events, start)
    modifies host
    ensures host.Valid() && Undecided(more) && Recorded(more, initial, start, expires, waitFirst, host.exact)
    ensures more == events + [Slept(old(host.now), interval, Delay(Capped(interval, deadline - old(host.now))))]
    ensures !cancelled ==> host.now >= old(host.now) + Delay(Capped(interval, deadline - old(host.now))) as real
    ensures LastEnd(more, start) == LastEnd(events, start) && Polls(more) == Polls(events)
      && SlowDowns(more) == SlowDowns(events) && IntervalAfter(initial, more) == IntervalAfter(initial, events)
    ensures Ranged(more, deadline) <==> Ranged(events, deadline) && RangedSleep(interval, deadline - old(host.now))
    ensures host.exact && !cancelled ==>
      host.now == old(host.now) + Delay(Capped(interval, deadline - old(host.now))) as real
    ensures host.exact && !cancelled ==> host.now < deadline + 1.0
    ensures cancelled == host.aborted
    ensures cancelled ==> Ends(more, Cancelled, start, deadline, host)
  {
    hide IntervalAfter, Recorded, LastEnd, Polls, SlowDowns, Undecided, Ranged, RangedSleep, Turn;
    var wanted := Capped(interval, deadline - host.now);
    var e := Slept(host.now, interval, Delay(wanted));
    CappedDelay(interval, deadline - host.now);
    more := events + [e];
    RecordedSleep(events, e, initial, start, expires, waitFirst, host.exact);
    UndecidedMore(events, e);
    Grows(events, e, initial, start, deadline);
    cancelled := AbortableSleep(host, wanted);
  }

  lemma CappedDelay(interval: Float, remaining: real)
    requires remaining > 0.0
    ensures Delay(Capped(interval, remaining)) as real < remaining + 1.0
  {
  }

  /** `poll_device_code_flow` with a finite deadline. */
  method PollFlow(host: Host, interval: Option<Float>, expires: real, waitBeforeFirstPoll: bool)
    returns (outcome: Outcome, events: seq<Event>)
    requires host.Valid()
    modifies host
    ensures host.Valid()
    ensures Recorded(events, InitialInterval(interval), old(host.now), expires, waitBeforeFirstPoll, host.exact)
    ensures Ends(events, outcome, old(host.now), old(host.now) + expires, host)
  {
    hide IntervalAfter, InitialInterval, Recorded, LastEnd, Polls, SlowDowns, Undecided, Ranged, RangedSleep, Paced;
    hide NextInterval, Capped, Delay, Minimal, AtLeast, Turn, LawfulEvent, PollsAt;
    ghost var start := host.now;
    var deadline := host.now + expires;
    var initial := InitialInterval(interval);
    var current := initial;
    var slowDowns := 0;
    events := [];
    Nothing(initial, start, expires, waitBeforeFirstPoll, host.exact);
    ghost var nap := Slept(start, current, Delay(Capped(current, deadline - start)));
    TurnsAtFirst(nap, waitBeforeFirstPoll, host.exact);
    FirstPoll(start, host.exact);
    if waitBeforeFirstPoll && deadline - host.now > 0.0 {
      var cancelled;
      cancelled, events := Wait(host, current, deadline, events, initial, start, expires, waitBeforeFirstPoll);
      if cancelled { return Cancelled, events; }
      PollsNext([], nap, host.now, waitBeforeFirstPoll, host.exact);
      PacedLater(0, start, host.now, start, expires);
    }
    while host.now < deadline
      invariant host.Valid() && host.now >= start
      invariant Recorded(events, initial, start, expires, waitBeforeFirstPoll, host.exact) && Undecided(events)
      invariant host.now < deadline ==> PollsAt(events, host.now, waitBeforeFirstPoll, host.exact)
      invariant current == IntervalAfter(initial, events) && slowDowns == SlowDowns(events)
      invariant host.aborted ==> events == [] && host.now == start
      invariant host.exact ==> host.now < deadline + 1.0 || host.now <= LastEnd(events, start)
      invariant Polls(events) as real <= host.now - start
      invariant expires > 0.0 && Ranged(events, deadline) ==> Paced(Polls(events), host.now, start, expires)
      decreases (deadline - host.now).Floor
    {
      if host.aborted { return Cancelled, events; }
      var at := host.now;
      var reply := host.Poll();
      var e := Polled(at, host.now, false, reply);
      Grows(events, e, initial, start, deadline);
      PollTurn(events, e, waitBeforeFirstPoll, host.exact, initial, deadline);
      RecordedPoll(events, e, initial, start, expires, waitBeforeFirstPoll, host.exact);
      events := events + [e];
      if reply.Complete? { return Returned(reply.value), events; }
      if reply.Refused? { return Failed(reply.message), events; }
      UndecidedMore(events[..|events| - 1], e);
      current := NextInterval(current, reply);
      if reply.SlowDown? { slowDowns := slowDowns + 1; }
      if deadline - host.now <= 0.0 {
        break;
      }
      ghost var until := host.now;
      IntervalsMinimal(interval, events);
      ghost var polled := events;
      nap := Slept(until, current, Delay(Capped(current, deadline - until)));
      SleepsNext(polled[..|polled| - 1], e, nap, waitBeforeFirstPoll, host.exact);
      var cancelled;
      cancelled, events := Wait(host, current, deadline, events, initial, start, expires, waitBeforeFirstPoll);
      if cancelled { return Cancelled, events; }
      PollsNext(polled, nap, host.now, waitBeforeFirstPoll, host.exact);
      if Ranged(events, deadline) { PacedSleep(Polls(events) - 1, at, until, host.now, start, expires, current); }
    }
    outcome := TimedOut(slowDowns > 0);
  }

  // Whose turn it is: a poll first unless asked to wait, a sleep after a poll, a poll after a due sleep.
  lemma TurnsAtFirst(e: Event, waitFirst: bool, exact: bool)
    ensures Turn([], e, waitFirst, exact) <==> e.Slept? == waitFirst
  {
  }

  lemma FirstPoll(now: real, exact: bool)
    ensures PollsAt([], now, false, exact)
  {
  }

  lemma SleepsNext(events: seq<Event>, polled: Event, slept: Event, waitFirst: bool, exact: bool)
    requires polled.Polled? && slept.Slept? && slept.at == polled.until
    ensures Turn(events + [polled], slept, waitFirst, exact)
  {
  }

  lemma PollsNext(events: seq<Event>, slept: Event, now: real, waitFirst: bool, exact: bool)
    requires slept.Slept? && now >= slept.at + slept.delay as real && (exact ==> now == slept.at + slept.delay as real)
    ensures PollsAt(events + [slept], now, waitFirst, exact)
  {
  }

  /** A poll may begin now, whatever it will answer. */
  predicate PollsAt(events: seq<Event>, now: real, waitFirst: bool, exact: bool) {
    Turn(events, Polled(now, now, false, Pending), waitFirst, exact)
  }

  lemma PollTurn(events: seq<Event>, e: Event, waitFirst: bool, exact: bool, initial: Float, deadline: real)
    requires PollsAt(events, e.at, waitFirst, exact) && e.Polled? && e.at < deadline && e.at <= e.until && !e.aborted
    ensures Turn(events, e, waitFirst, exact) && LawfulEvent(events, e, initial, deadline)
  {
  }

  lemma Nothing(initial: Float, start: real, expires: real, waitFirst: bool, exact: bool)
    ensures Recorded([], initial, start, expires, waitFirst, exact) && Undecided([]) && Polls([]) == SlowDowns([]) == 0
    ensures LastEnd([], start) == start && IntervalAfter(initial, []) == initial && Ranged([], start + expires)
    ensures expires > 0.0 ==> Paced(0, start, start, expires)
  {
    FewAtFirst(expires, start + expires);
  }
}
