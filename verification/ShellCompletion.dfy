/** When a shell command counts as finished: its process exited, and then both its streams ended or nothing
    more arrived for the grace period. Times are in milliseconds. */
module ShellCompletion {
  import opened Options

  const GRACE := 100

  /** What the event loop delivers; `Fires` is the idle timer. */
  datatype What = Exit | Data | StdoutEnd | StderrEnd | Fires

  datatype Happening = Happening(time: int, what: What)

  type Run = seq<Happening>

  // ---------------------------------------------------------------------------------------------
  // What a run says
  // ---------------------------------------------------------------------------------------------

  predicate Seen(run: Run, what: What) {
    exists i :: 0 <= i < |run| && run[i].what == what
  }

  /** Exited and both streams ended. */
  predicate Complete(run: Run) {
    Seen(run, Exit) && Seen(run, StdoutEnd) && Seen(run, StderrEnd)
  }

  /** The latest of exit and data after exit. */
  function Latest(run: Run): Option<int> {
    if run == [] then None
    else
      var front, last := run[..|run| - 1], run[|run| - 1];
      if last.what.Exit? || (last.what.Data? && Seen(front, Exit)) then Some(last.time) else Latest(front)
  }

  /** Settled at some point of the run. */
  predicate Settled(run: Run) {
    exists k :: 0 <= k < |run| && SettlesHere(run, k)
  }

  predicate SettlesHere(run: Run, k: nat)
    requires k < |run|
  {
    Complete(run[..k + 1]) || run[k].what.Fires?
  }

  // The pending timer's due time.
  function Timer(run: Run): Option<int> {
    if run == [] then None
    else
      var front, last := run[..|run| - 1], run[|run| - 1];
      if last.what.Fires? then None
      else if (last.what.Exit? && !Settled(run)) || (last.what.Data? && Seen(front, Exit)) then Some(last.time + GRACE)
      else Timer(front)
  }

  /** Time does not run backwards, and the timer fires at its due time, before anything later. Whether it
      fires before or after another happening at the same moment is open. */
  predicate Timely(run: Run) {
    forall i :: 0 <= i < |run| ==> TimelyNext(run[..i], run[i])
  }

  predicate TimelyNext(run: Run, h: Happening) {
    && (run != [] ==> run[|run| - 1].time <= h.time)
    && (h.what.Fires? ==> Timer(run) == Some(h.time))
    && (Timer(run).Some? ==> h.time <= Timer(run).value)
  }

  // ---------------------------------------------------------------------------------------------
  // The state machine
  // ---------------------------------------------------------------------------------------------

  lemma Appended(run: Run, h: Happening)
    ensures forall w :: Seen(run + [h], w) <==> Seen(run, w) || h.what == w
    ensures Settled(run + [h]) <==> Settled(run) || Complete(run + [h]) || h.what.Fires?
    ensures (run + [h])[..|run|] == run
  {
    var more := run + [h];
    assert more[..|run|] == run && more[..|run| + 1] == more;
    forall w ensures Seen(more, w) <==> Seen(run, w) || h.what == w {
      if Seen(run, w) {
        var i :| 0 <= i < |run| && run[i].what == w;
        assert more[i].what == w;
      }
      if h.what == w { assert more[|run|].what == w; }
    }
    assert forall k :: 0 <= k < |run| ==> more[..k + 1] == run[..k + 1] && more[k] == run[k];
    assert more[|run|] == h;
    assert forall k :: 0 <= k < |run| ==> SettlesHere(more, k) == SettlesHere(run, k);
    assert SettlesHere(more, |run|) == (Complete(more) || h.what.Fires?);
    if Settled(run) {
      var k :| 0 <= k < |run| && SettlesHere(run, k);
      assert SettlesHere(more, k);
    }
  }

  class Completion {
    var exited: bool
    var stdoutEnded: bool
    var stderrEnded: bool
    var settled: bool
    /** Due time of the timer, while it is pending. */
    var idleTimer: Option<int>
    /** Everything delivered so far. */
    ghost var run: Run

    /** The fields say of the run what they should. */
    ghost predicate Valid()
      reads this
    {
      && (exited <==> Seen(run, Exit))
      && (stdoutEnded <==> Seen(run, StdoutEnd))
      && (stderrEnded <==> Seen(run, StderrEnd))
      && (settled <==> Settled(run))
      && idleTimer == Timer(run)
    }

    constructor ()
      ensures Valid() && run == []
    {
      exited, stdoutEnded, stderrEnded, settled, idleTimer, run := false, false, false, false, None, [];
    }

    method MaybeFinalizeAfterExit()
      modifies this`settled
      ensures settled == (old(settled) || (exited && stdoutEnded && stderrEnded))
    {
      if exited && stdoutEnded && stderrEnded { settled := true; }
    }

    method ArmIdleTimer(now: int)
      modifies this`idleTimer
      ensures idleTimer == Some(now + GRACE)
    {
      idleTimer := Some(now + GRACE);
    }

    method OnData(now: int)
      requires Valid()
      modifies this
      ensures Valid() && run == old(run) + [Happening(now, Data)]
    {
      hide Settled, Seen;
      Appended(run, Happening(now, Data));
      if exited { ArmIdleTimer(now); }
      AlreadyComplete(run);
      run := run + [Happening(now, Data)];
    }

    method OnExit(now: int)
      requires Valid()
      modifies this
      ensures Valid() && run == old(run) + [Happening(now, Exit)]
    {
      hide Settled, Seen;
      Appended(run, Happening(now, Exit));
      exited := true;
      MaybeFinalizeAfterExit();
      if !settled { ArmIdleTimer(now); }
      run := run + [Happening(now, Exit)];
    }

    method OnStdoutEnd(now: int)
      requires Valid()
      modifies this
      ensures Valid() && run == old(run) + [Happening(now, StdoutEnd)]
    {
      hide Settled, Seen;
      Appended(run, Happening(now, StdoutEnd));
      stdoutEnded := true;
      MaybeFinalizeAfterExit();
      run := run + [Happening(now, StdoutEnd)];
    }

    method OnStderrEnd(now: int)
      requires Valid()
      modifies this
      ensures Valid() && run == old(run) + [Happening(now, StderrEnd)]
    {
      hide Settled, Seen;
      Appended(run, Happening(now, StderrEnd));
      stderrEnded := true;
      MaybeFinalizeAfterExit();
      run := run + [Happening(now, StderrEnd)];
    }

    // The event loop calls the timer back.
    method Fire(now: int)
      requires Valid() && idleTimer == Some(now)
      modifies this
      ensures Valid() && run == old(run) + [Happening(now, Fires)]
    {
      hide Settled, Seen;
      Appended(run, Happening(now, Fires));
      settled := true;
      idleTimer := None;
      run := run + [Happening(now, Fires)];
    }
  }

  lemma AlreadyComplete(run: Run)
    ensures Complete(run) ==> Settled(run)
  {
    if Complete(run) {
      var k := |run| - 1;
      assert run[..k + 1] == run;
      assert SettlesHere(run, k);
    }
  }

  // ---------------------------------------------------------------------------------------------
  // When it settles
  // ---------------------------------------------------------------------------------------------

  lemma {:induction false} LatestIsActivity(run: Run)
    ensures Latest(run).Some? <==> Seen(run, Exit)
  {
    if run != [] {
      var front, last := run[..|run| - 1], run[|run| - 1];
      LatestIsActivity(front);
      assert run == front + [last];
      Appended(front, last);
    }
  }

  /** A timer only ever pends after exit; unsettled after exit, it pends for the latest activity. */
  lemma {:induction false} TimerPends(run: Run)
    ensures Timer(run).Some? ==> Seen(run, Exit)
    ensures Seen(run, Exit) && !Settled(run) ==> Latest(run).Some? && Timer(run) == Some(Latest(run).value + 100)
  {
    hide Seen, Settled, Complete;
    if run == [] {
      NothingSeen();
    } else {
      var front, last := run[..|run| - 1], run[|run| - 1];
      TimerPends(front);
      LatestIsActivity(front);
      assert run == front + [last];
      Appended(front, last);
    }
  }

  /** It never settles before exit. */
  lemma {:induction false} SettledAfterExit(run: Run)
    requires Timely(run)
    ensures Settled(run) ==> Seen(run, Exit)
  {
    hide Seen, Settled, TimelyNext, Timer;
    if run == [] {
      NothingSeen();
    } else {
      var front, last := run[..|run| - 1], run[|run| - 1];
      TimelyFront(run);
      SettledAfterExit(front);
      assert run == front + [last];
      Appended(front, last);
      TimerPends(front);
      assert TimelyNext(front, last);
      FiresWhenPending(front, last);
    }
  }

  lemma NothingSeen()
    ensures !Seen([], Exit) && !Settled([])
  {
  }

  lemma FiresWhenPending(run: Run, h: Happening)
    requires TimelyNext(run, h)
    ensures h.what.Fires? ==> Timer(run) == Some(h.time)
    ensures Timer(run).Some? ==> h.time <= Timer(run).value
  {
  }

  lemma TimelyFront(run: Run)
    requires Timely(run) && run != []
    ensures Timely(run[..|run| - 1])
  {
    hide TimelyNext;
    var front := run[..|run| - 1];
    assert forall i :: 0 <= i < |front| ==> front[..i] == run[..i] && front[i] == run[i];
  }

  /** The happening that settles it is the first of the two: both streams ended after exit, no later than
      the grace period after the latest activity; or the end of exactly that grace period. */
  lemma SettlesAtTheEarlier(run: Run, h: Happening)
    requires Timely(run + [h]) && !Settled(run) && Settled(run + [h])
    ensures Seen(run + [h], Exit)
    ensures Complete(run + [h]) != h.what.Fires?
    ensures Complete(run + [h]) && Seen(run, Exit) ==> Latest(run).Some? && h.time <= Latest(run).value + 100
    ensures h.what.Fires? ==> Latest(run).Some? && h.time == Latest(run).value + 100
  {
    hide Seen, Settled, Timer, TimelyNext, Latest;
    Appended(run, h);
    AlreadyComplete(run);
    assert TimelyNext((run + [h])[..|run|], (run + [h])[|run|]);
    FiresWhenPending(run, h);
    TimerPends(run);
    SettledAfterExit(run + [h]);
  }

  /** Never before exit; and while it is open after exit, no more than the grace period has gone by since
      the latest activity. */
  lemma OpenWithinGrace(run: Run)
    requires Timely(run) && run != []
    ensures Settled(run) ==> Seen(run, Exit)
    ensures Seen(run, Exit) && !Settled(run) ==>
      !Complete(run) && Latest(run).Some? && run[|run| - 1].time <= Latest(run).value + 100
  {
    hide Seen, Settled, Timer, TimelyNext;
    SettledAfterExit(run);
    TimerPends(run);
    AlreadyComplete(run);
    var front, last := run[..|run| - 1], run[|run| - 1];
    assert run == front + [last];
    Appended(front, last);
    TimerPends(front);
    LatestIsActivity(run);
    LatestIsActivity(front);
    assert TimelyNext(front, last);
    FiresWhenPending(front, last);
  }
}
