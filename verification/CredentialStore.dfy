/** The in-memory credential store as interleaved steps: per-provider chains of read-modify-write
    calls whose callers may stop waiting, and the refresh bodies that run inside them. */
module CredentialStore {
  import opened Options
  import opened Floats

  // ---------------------------------------------------------------------------------------------
  // Time and thresholds
  // ---------------------------------------------------------------------------------------------

  const FIVE_MINUTES: Float := Fin(300000.0)

  /** The effective trigger: the caller's minimum, absent or zero counting as zero, but never less than
      the five-minute default. */
  function Trigger(minimum: Option<Float>): Float {
    JsMax(FIVE_MINUTES, if minimum.Some? then minimum.value else Fin(0.0))
  }

  datatype Credential = OAuth(token: nat, expires: Float) | ApiKey(key: nat)

  predicate ExpiresSoon(c: Credential, trigger: Float, now: Float)
    requires c.OAuth?
  {
    AtLeast(Plus(now, trigger), c.expires)
  }

  /** A credential counts as expiring exactly from its expiry less the trigger on. */
  lemma ExpiresFrom(c: Credential, trigger: Float, now: Float)
    requires c.OAuth? && c.expires.Fin? && trigger.Fin? && now.Fin?
    ensures ExpiresSoon(c, trigger, now) <==> now.r >= c.expires.r - trigger.r
    ensures Refreshes(Some(c), trigger, now) <==> now.r >= c.expires.r - trigger.r
  {
  }

  /** The trigger is five minutes, or the caller's minimum if that is longer. */
  lemma TriggerIs(minimum: Option<Float>)
    ensures minimum.None? ==> Trigger(minimum) == Fin(300000.0)
    ensures minimum.Some? && minimum.value.Fin? ==>
      Trigger(minimum) == Fin(if minimum.value.r > 300000.0 then minimum.value.r else 300000.0)
    ensures minimum == Some(PosInf) ==> Trigger(minimum) == PosInf
    ensures minimum == Some(NegInf) ==> Trigger(minimum) == Fin(300000.0)
  {
  }

  /** A NaN minimum suppresses refresh for every credential and clock; any other minimum triggers
      whenever the default would, at any finite clock. */
  lemma TriggerRange(minimum: Option<Float>, c: Credential, now: Float)
    requires c.OAuth?
    ensures minimum == Some(NaN) ==> !ExpiresSoon(c, Trigger(minimum), now)
    ensures minimum != Some(NaN) && now.Fin? && ExpiresSoon(c, FIVE_MINUTES, now) ==>
              ExpiresSoon(c, Trigger(minimum), now)
  {
  }

  // ---------------------------------------------------------------------------------------------
  // Calls
  // ---------------------------------------------------------------------------------------------

  /** What a queued call runs: an arbitrary callback, a removal, or a refresh attempt. */
  datatype Body = Write | Delete | Refresh(trigger: Float)

  datatype Effect = Keep | Put(c: Credential) | Remove

  datatype Outcome = Committed(result: Option<Credential>, effect: Effect) | Raised | Cancelled

  datatype Phase = Queued | Running(current: Option<Credential>) | Settled(outcome: Outcome)

  /** The caller is still waiting, was given the queued call's own outcome, or stopped waiting on abort. */
  datatype Caller = Waiting | Told(outcome: Outcome) | Gone

  datatype Call = Call(
    provider: string, body: Body, signal: Option<nat>, previous: Option<nat>,
    phase: Phase, finished: bool, caller: Caller, bodies: nat)

  /** `init` is what was stored before the first call; `replaced` holds what committed refreshes replaced. */
  datatype State = State(
    creds: map<string, Credential>, chains: map<string, nat>, calls: seq<Call>, aborted: set<nat>,
    now: Float, init: map<string, Credential>, replaced: set<(string, Credential)>)

  datatype Reply = Value(c: Option<Credential>) | Throw

  datatype Action =
    | Invoke(provider: string, body: Body, signal: Option<nat>)
    | Start(i: nat)
    | Return(i: nat, reply: Reply)
    | Finish(i: nat)
    | Prune(i: nat)
    | Wake(i: nat)
    | Abort(sig: nat)
    | Tick(now: Float)

  function Lookup(m: map<string, Credential>, p: string): Option<Credential> {
    if p in m then Some(m[p]) else None
  }

  predicate IsAborted(s: State, signal: Option<nat>) {
    signal.Some? && signal.value in s.aborted
  }

  /** Whether a refresh body given `current` now would call the provider. */
  predicate Refreshes(current: Option<Credential>, trigger: Float, now: Float) {
    current.Some? && current.value.OAuth? && ExpiresSoon(current.value, trigger, now)
  }

  /** The previous chain entry, if any, has finished. */
  predicate Ready(s: State, i: nat)
    requires i < |s.calls|
  {
    var prev := s.calls[i].previous;
    prev.Some? ==> prev.value < |s.calls| && s.calls[prev.value].finished
  }

  predicate Enabled(s: State, a: Action) {
    match a
    case Invoke(_, _, _) => true
    case Start(i) => i < |s.calls| && s.calls[i].phase.Queued? && Ready(s, i)
    case Return(i, reply) =>
      && i < |s.calls| && s.calls[i].phase.Running?
      && (s.calls[i].body.Refresh? && reply.Value? ==> reply.c.Some? && reply.c.value.OAuth?)
    case Finish(i) => i < |s.calls| && s.calls[i].phase.Settled? && !s.calls[i].finished
    case Prune(i) => i < |s.calls| && s.calls[i].finished
    case Wake(i) => i < |s.calls| && s.calls[i].caller.Waiting?
    case Abort(_) => true
    case Tick(_) => true
  }

  /** `_enqueue`: queue behind whatever chain entry is published, publish this one, and start waiting
      unless already aborted. */
  function Enqueue(s: State, p: string, body: Body, signal: Option<nat>): State {
    var prev := if p in s.chains then Some(s.chains[p]) else None;
    var caller := if IsAborted(s, signal) then Gone else Waiting;
    s.(calls := s.calls + [Call(p, body, signal, prev, Queued, false, caller, 0)],
       chains := s.chains[p := |s.calls|])
  }

  function Settle(s: State, i: nat, outcome: Outcome): State
    requires i < |s.calls|
  {
    s.(calls := s.calls[i := s.calls[i].(phase := Settled(outcome))])
  }

  /** A queued call's turn: the abort checkpoint, then its body up to the first wait. */
  function Begin(s: State, i: nat): State
    requires i < |s.calls|
  {
    var call := s.calls[i];
    var current := Lookup(s.creds, call.provider);
    if IsAborted(s, call.signal) then Settle(s, i, Cancelled)
    else if call.body.Delete? then
      s.(creds := s.creds - {call.provider},
         calls := s.calls[i := call.(phase := Settled(Committed(None, Remove)), bodies := call.bodies + 1)])
    else if call.body.Refresh? && !Refreshes(current, call.body.trigger, s.now) then
      s.(calls := s.calls[i := call.(phase := Settled(Committed(current, Keep)), bodies := call.bodies + 1)])
    else s.(calls := s.calls[i := call.(phase := Running(current), bodies := call.bodies + 1)])
  }

  /** The callback answers: a failure changes nothing, and an aborted caller's answer is discarded. */
  function Commit(s: State, i: nat, reply: Reply): State
    requires i < |s.calls| && s.calls[i].phase.Running?
  {
    var call := s.calls[i];
    if reply.Throw? then Settle(s, i, Raised)
    else if IsAborted(s, call.signal) then Settle(s, i, Cancelled)
    else if reply.c.None? then Settle(s, i, Committed(call.phase.current, Keep))
    else
      var c := reply.c.value;
      Settle(s, i, Committed(Some(c), Put(c)))
        .(creds := s.creds[call.provider := c],
          replaced := if call.body.Refresh? && call.phase.current.Some?
                      then s.replaced + {(call.provider, call.phase.current.value)} else s.replaced)
  }

  /** The caller's wait returns: with the queued call's outcome, or with a cancellation of its own. */
  function Notice(s: State, i: nat): State
    requires i < |s.calls|
  {
    var call := s.calls[i];
    if call.phase.Settled? then s.(calls := s.calls[i := call.(caller := Told(call.phase.outcome))])
    else if IsAborted(s, call.signal) then s.(calls := s.calls[i := call.(caller := Gone)])
    else s
  }

  function Apply(s: State, a: Action): State
    requires Enabled(s, a)
  {
    match a
    case Invoke(p, body, signal) => Enqueue(s, p, body, signal)
    case Start(i) => Begin(s, i)
    case Return(i, reply) => Commit(s, i, reply)
    case Finish(i) => s.(calls := s.calls[i := s.calls[i].(finished := true)])
    case Prune(i) =>
      var p := s.calls[i].provider;
      if p in s.chains && s.chains[p] == i then s.(chains := s.chains - {p}) else s
    case Wake(i) => Notice(s, i)
    case Abort(sig) => s.(aborted := s.aborted + {sig})
    case Tick(now) => s.(now := now)
  }

  /** Actions that could be taken one after the other. */
  predicate Runs(s: State, acts: seq<Action>)
    decreases |acts|
  {
    acts == [] || (Enabled(s, acts[0]) && Runs(Apply(s, acts[0]), acts[1..]))
  }

  function After(s: State, acts: seq<Action>): State
    requires Runs(s, acts)
    decreases |acts|
  {
    if acts == [] then s else After(Apply(s, acts[0]), acts[1..])
  }

  function Initial(stored: map<string, Credential>, now: Float): State {
    State(stored, map[], [], {}, now, stored, {})
  }

  // ---------------------------------------------------------------------------------------------
  // The serial reading
  // ---------------------------------------------------------------------------------------------

  function EffectOf(call: Call): Effect {
    if call.phase.Settled? && call.phase.outcome.Committed? then call.phase.outcome.effect else Keep
  }

  function Affect(v: Option<Credential>, e: Effect): Option<Credential> {
    match e
    case Keep => v
    case Put(c) => Some(c)
    case Remove => None
  }

  /** The value of `p` had the first `n` calls run one after the other, in call order. */
  function Serial(init: map<string, Credential>, calls: seq<Call>, p: string, n: nat): Option<Credential>
    requires n <= |calls|
  {
    if n == 0 then Lookup(init, p)
    else if calls[n - 1].provider == p then Affect(Serial(init, calls, p, n - 1), EffectOf(calls[n - 1]))
    else Serial(init, calls, p, n - 1)
  }

  // ---------------------------------------------------------------------------------------------
  // The invariant
  // ---------------------------------------------------------------------------------------------

  /** A call past its queue has every earlier call of its provider finished. */
  ghost predicate InOrder(calls: seq<Call>) {
    forall i, j :: 0 <= i < j < |calls| && calls[i].provider == calls[j].provider && !calls[j].phase.Queued? ==>
      calls[i].finished
  }

  ghost predicate Linked(calls: seq<Call>) {
    forall j :: 0 <= j < |calls| ==> LinkOk(calls, j)
  }

  ghost predicate LinkOk(calls: seq<Call>, j: nat)
    requires j < |calls|
  {
    match calls[j].previous
    case None => forall i :: 0 <= i < j && calls[i].provider == calls[j].provider ==> calls[i].finished
    case Some(k) =>
      && k < j && calls[k].provider == calls[j].provider
      && forall i :: k < i < j ==> calls[i].provider != calls[j].provider
  }

  /** A published chain entry is its provider's last call; an unpublished provider has nothing pending. */
  ghost predicate Chained(s: State) {
    && (forall p :: p in s.chains ==>
          && s.chains[p] < |s.calls| && s.calls[s.chains[p]].provider == p
          && forall i :: s.chains[p] < i < |s.calls| ==> s.calls[i].provider != p)
    && (forall i :: 0 <= i < |s.calls| && s.calls[i].provider !in s.chains ==> s.calls[i].finished)
  }

  /** What one call's own fields may say. */
  predicate CallOk(s: State, call: Call) {
    && (call.finished ==> call.phase.Settled?)
    && (call.caller.Gone? ==> IsAborted(s, call.signal) && EffectOf(call) == Keep && !HasResult(call.phase))
    && (call.caller.Told? ==> call.phase == Settled(call.caller.outcome))
    && call.bodies == BodiesRun(call)
    && (call.phase == Settled(Cancelled) ==> IsAborted(s, call.signal))
    && (call.phase.Running? ==> !call.body.Delete? && (call.body.Refresh? ==> IsOAuth(call.phase.current)))
    && (HasResult(call.phase) ==> (call.body.Delete? <==> call.phase.outcome.effect.Remove?))
  }

  predicate IsOAuth(c: Option<Credential>) {
    c.Some? && c.value.OAuth?
  }

  predicate HasResult(ph: Phase) {
    ph.Settled? && ph.outcome.Committed?
  }

  function BodiesRun(call: Call): nat {
    if call.phase.Queued? then 0
    else if call.phase == Settled(Cancelled) then (if call.bodies == 0 then 0 else 1)
    else 1
  }

  ghost predicate CallsOk(s: State) {
    forall i :: 0 <= i < |s.calls| ==> CallOk(s, s.calls[i])
  }

  /** A running body was given the value its turn finds in the serial order, and a committed call's
      result is the value its turn leaves there. */
  predicate SeesSerial(init: map<string, Credential>, calls: seq<Call>, i: nat)
    requires i < |calls|
  {
    var before := Serial(init, calls, calls[i].provider, i);
    match calls[i].phase
    case Queued => true
    case Running(current) => current == before
    case Settled(outcome) => outcome.Committed? ==> outcome.result == Affect(before, outcome.effect)
  }

  ghost predicate Stored(s: State) {
    forall p :: Lookup(s.creds, p) == Serial(s.init, s.calls, p, |s.calls|)
  }

  ghost predicate Seen(s: State) {
    forall i :: 0 <= i < |s.calls| ==> SeesSerial(s.init, s.calls, i)
  }

  ghost predicate Inv(s: State) {
    InOrder(s.calls) && Linked(s.calls) && Chained(s) && CallsOk(s) && Stored(s) && Seen(s)
  }

  // ---------------------------------------------------------------------------------------------
  // Updating one call
  // ---------------------------------------------------------------------------------------------

  /** A call keeps its place in the chain: same provider and predecessor, and finishing is final. */
  predicate SamePlace(old_: Call, new_: Call) {
    && new_.provider == old_.provider && new_.previous == old_.previous
    && (old_.finished ==> new_.finished)
  }

  // Every earlier call of `i`'s provider has finished.
  ghost predicate Cleared(calls: seq<Call>, i: nat)
    requires i < |calls|
  {
    forall k :: 0 <= k < i && calls[k].provider == calls[i].provider ==> calls[k].finished
  }

  lemma UpdateShape(calls: seq<Call>, i: nat, c: Call)
    requires i < |calls| && SamePlace(calls[i], c) && InOrder(calls) && Linked(calls)
    requires c.phase.Queued? || Cleared(calls, i)
    ensures InOrder(calls[i := c]) && Linked(calls[i := c])
  {
    var next := calls[i := c];
    forall j | 0 <= j < |next| ensures LinkOk(next, j) {
      assert LinkOk(calls, j);
    }
    forall a, b | 0 <= a < b < |next| && next[a].provider == next[b].provider && !next[b].phase.Queued?
      ensures next[a].finished
    {
      if b == i { assert calls[a].finished; }
    }
  }

  lemma UpdateChained(s: State, i: nat, c: Call)
    requires i < |s.calls| && SamePlace(s.calls[i], c) && Chained(s)
    ensures Chained(s.(calls := s.calls[i := c]))
  {
    var t := s.(calls := s.calls[i := c]);
    forall p | p in t.chains
      ensures t.chains[p] < |t.calls| && t.calls[t.chains[p]].provider == p
      ensures forall k :: t.chains[p] < k < |t.calls| ==> t.calls[k].provider != p
    {
      assert s.calls[s.chains[p]].provider == p;
    }
    forall k | 0 <= k < |t.calls| && t.calls[k].provider !in t.chains ensures t.calls[k].finished {
      assert s.calls[k].provider !in s.chains;
    }
  }

  /** A call that starts is the first unfinished one of its provider. */
  lemma ReadyIsCleared(s: State, i: nat)
    requires Inv(s) && i < |s.calls| && Ready(s, i)
    ensures Cleared(s.calls, i)
  {
    assert LinkOk(s.calls, i);
    if s.calls[i].previous.Some? {
      var k := s.calls[i].previous.value;
      assert CallOk(s, s.calls[k]);
      forall j | 0 <= j < i && s.calls[j].provider == s.calls[i].provider ensures s.calls[j].finished {
        if j < k { assert !s.calls[k].phase.Queued?; }
      }
    }
  }

  /** While a call is unsettled, everything queued behind it is still waiting its turn. */
  lemma LaterAreQueued(s: State, i: nat, j: nat)
    requires InOrder(s.calls) && CallsOk(s) && i < j < |s.calls|
    requires s.calls[i].provider == s.calls[j].provider && !s.calls[i].phase.Settled?
    ensures s.calls[j].phase.Queued?
  {
    assert CallOk(s, s.calls[i]);
  }

  lemma {:induction false} SerialPrefix(init: map<string, Credential>, xs: seq<Call>, ys: seq<Call>, p: string, n: nat)
    requires n <= |xs| && n <= |ys|
    requires forall k :: 0 <= k < n ==> xs[k].provider == ys[k].provider && EffectOf(xs[k]) == EffectOf(ys[k])
    ensures Serial(init, xs, p, n) == Serial(init, ys, p, n)
  {
    if n > 0 { SerialPrefix(init, xs, ys, p, n - 1); }
  }

  // A stretch of calls without effect on `p` changes nothing.
  lemma {:induction false} SerialIdle(init: map<string, Credential>, calls: seq<Call>, p: string, m: nat, n: nat)
    requires m <= n <= |calls|
    requires forall k :: m <= k < n && calls[k].provider == p ==> EffectOf(calls[k]) == Keep
    ensures Serial(init, calls, p, n) == Serial(init, calls, p, m)
    decreases n
  {
    if m < n { SerialIdle(init, calls, p, m, n - 1); }
  }

  /** An unsettled call finds the stored value to be the serial value at its own turn. */
  lemma TurnValue(s: State, i: nat)
    requires Inv(s) && i < |s.calls| && !s.calls[i].phase.Settled?
    ensures Lookup(s.creds, s.calls[i].provider) == Serial(s.init, s.calls, s.calls[i].provider, i)
  {
    hide LinkOk;
    var p := s.calls[i].provider;
    forall k | i <= k < |s.calls| && s.calls[k].provider == p ensures EffectOf(s.calls[k]) == Keep {
      if k > i { LaterAreQueued(s, i, k); }
    }
    SerialIdle(s.init, s.calls, p, i, |s.calls|);
  }

  /** Replacing a call by one with the same effect leaves the serial reading alone. */
  lemma UpdateSerialSame(s: State, i: nat, c: Call)
    requires i < |s.calls| && c.provider == s.calls[i].provider && EffectOf(c) == EffectOf(s.calls[i])
    requires Stored(s) && Seen(s)
    requires c.phase == s.calls[i].phase || SeesSerialAs(s, i, c)
    ensures var t := s.(calls := s.calls[i := c]); Stored(t) && Seen(t)
  {
    var t := s.(calls := s.calls[i := c]);
    forall p ensures Lookup(t.creds, p) == Serial(t.init, t.calls, p, |t.calls|) {
      SerialPrefix(s.init, s.calls, t.calls, p, |s.calls|);
    }
    forall j | 0 <= j < |t.calls| ensures SeesSerial(t.init, t.calls, j) {
      assert SeesSerial(s.init, s.calls, j);
      SerialPrefix(s.init, s.calls, t.calls, s.calls[j].provider, j);
    }
  }

  // What `SeesSerial` would say of call `c` at place `i`.
  predicate SeesSerialAs(s: State, i: nat, c: Call)
    requires i < |s.calls|
  {
    var before := Serial(s.init, s.calls, s.calls[i].provider, i);
    match c.phase
    case Queued => true
    case Running(current) => current == before
    case Settled(outcome) => outcome.Committed? ==> outcome.result == Affect(before, outcome.effect)
  }

  /** Committing an effect at the unsettled call whose turn it is. */
  lemma UpdateSerialCommit(s: State, i: nat, c: Call, creds: map<string, Credential>)
    requires Inv(s) && i < |s.calls| && !s.calls[i].phase.Settled? && c.provider == s.calls[i].provider
    requires SeesSerialAs(s, i, c)
    requires forall p :: p != c.provider ==> Lookup(creds, p) == Lookup(s.creds, p)
    requires Lookup(creds, c.provider) == Affect(Lookup(s.creds, c.provider), EffectOf(c))
    ensures var t := s.(calls := s.calls[i := c], creds := creds); Stored(t) && Seen(t)
  {
    hide LinkOk, CallOk, SeesSerial, SeesSerialAs, Chained;
    var t := s.(calls := s.calls[i := c], creds := creds);
    TurnValue(s, i);
    forall p ensures Lookup(t.creds, p) == Serial(t.init, t.calls, p, |t.calls|) {
      if p == c.provider {
        SerialPrefix(s.init, s.calls, t.calls, p, i);
        forall k | i < k < |t.calls| && t.calls[k].provider == p ensures EffectOf(t.calls[k]) == Keep {
          LaterAreQueued(s, i, k);
        }
        SerialIdle(t.init, t.calls, p, i + 1, |t.calls|);
      } else {
        SerialOther(s.init, s.calls, t.calls, p, i, |s.calls|);
      }
    }
    forall j | 0 <= j < |t.calls| ensures SeesSerial(t.init, t.calls, j) {
      SeesAfterCommit(s, i, c, j);
    }
  }

  lemma {:induction false} SerialOther(init: map<string, Credential>, xs: seq<Call>, ys: seq<Call>, p: string,
      i: nat, n: nat)
    requires n <= |xs| == |ys| && i < |xs| && ys == xs[i := ys[i]]
    requires xs[i].provider == ys[i].provider != p
    ensures Serial(init, xs, p, n) == Serial(init, ys, p, n)
  {
    if n > 0 { SerialOther(init, xs, ys, p, i, n - 1); }
  }

  lemma SeesAfterCommit(s: State, i: nat, c: Call, j: nat)
    requires Inv(s) && i < |s.calls| && !s.calls[i].phase.Settled? && c.provider == s.calls[i].provider
    requires SeesSerialAs(s, i, c) && j < |s.calls|
    ensures SeesSerial(s.init, s.calls[i := c], j)
  {
    hide LinkOk;
    var next := s.calls[i := c];
    assert SeesSerial(s.init, s.calls, j);
    if j <= i {
      SerialPrefix(s.init, s.calls, next, s.calls[j].provider, j);
    } else if s.calls[j].provider == c.provider {
      LaterAreQueued(s, i, j);
    } else {
      SerialOther(s.init, s.calls, next, s.calls[j].provider, i, j);
    }
  }

  // ---------------------------------------------------------------------------------------------
  // Every step keeps the invariant
  // ---------------------------------------------------------------------------------------------

  lemma CallsOkUpdate(s: State, i: nat, c: Call)
    requires CallsOk(s) && i < |s.calls| && CallOk(s, c)
    ensures CallsOk(s.(calls := s.calls[i := c]))
  {
    var t := s.(calls := s.calls[i := c]);
    forall k | 0 <= k < |t.calls| ensures CallOk(t, t.calls[k]) {
      assert k != i ==> CallOk(s, s.calls[k]);
    }
  }

  /** One call's phase or caller changes without an effect on the store. */
  lemma QuietUpdate(s: State, i: nat, c: Call)
    requires Inv(s) && i < |s.calls| && SamePlace(s.calls[i], c) && CallOk(s, c)
    requires EffectOf(c) == EffectOf(s.calls[i])
    requires c.phase.Queued? || Cleared(s.calls, i)
    requires c.phase == s.calls[i].phase || SeesSerialAs(s, i, c)
    ensures Inv(s.(calls := s.calls[i := c]))
  {
    hide LinkOk, InOrder, Cleared, SeesSerial, SeesSerialAs, CallOk, Serial;
    UpdateShape(s.calls, i, c);
    UpdateChained(s, i, c);
    CallsOkUpdate(s, i, c);
    UpdateSerialSame(s, i, c);
  }

  lemma CommitUpdate(s: State, i: nat, c: Call, creds: map<string, Credential>)
    requires Inv(s) && i < |s.calls| && SamePlace(s.calls[i], c) && CallOk(s, c)
    requires !s.calls[i].phase.Settled? && Cleared(s.calls, i) && SeesSerialAs(s, i, c)
    requires forall p :: p != c.provider ==> Lookup(creds, p) == Lookup(s.creds, p)
    requires Lookup(creds, c.provider) == Affect(Lookup(s.creds, c.provider), EffectOf(c))
    ensures Inv(s.(calls := s.calls[i := c], creds := creds))
  {
    hide LinkOk, InOrder, Cleared, SeesSerial, SeesSerialAs, CallOk, Serial;
    UpdateShape(s.calls, i, c);
    UpdateChained(s, i, c);
    CallsOkUpdate(s, i, c);
    UpdateSerialCommit(s, i, c, creds);
    var t := s.(calls := s.calls[i := c]);
    assert CallsOk(t) && Chained(t);
    SameButCreds(t, creds);
  }

  lemma SameButCreds(t: State, creds: map<string, Credential>)
    requires CallsOk(t) && Chained(t)
    ensures CallsOk(t.(creds := creds)) && Chained(t.(creds := creds))
  {
    var u := t.(creds := creds);
    forall k | 0 <= k < |u.calls| ensures CallOk(u, u.calls[k]) {
      assert CallOk(t, t.calls[k]);
    }
  }

  lemma StartKeeps(s: State, i: nat)
    requires Inv(s) && Enabled(s, Start(i))
    ensures Inv(Begin(s, i))
  {
    hide LinkOk, InOrder, Serial, SeesSerial, ExpiresSoon, Chained;
    ReadyIsCleared(s, i);
    TurnValue(s, i);
    var call := s.calls[i];
    assert CallOk(s, call);
    if IsAborted(s, call.signal) {
      QuietUpdate(s, i, call.(phase := Settled(Cancelled)));
    } else if call.body.Delete? {
      CommitUpdate(s, i, call.(phase := Settled(Committed(None, Remove)), bodies := call.bodies + 1),
                   s.creds - {call.provider});
    } else {
      var current := Lookup(s.creds, call.provider);
      if call.body.Refresh? && !Refreshes(current, call.body.trigger, s.now) {
        QuietUpdate(s, i, call.(phase := Settled(Committed(current, Keep)), bodies := call.bodies + 1));
      } else {
        QuietUpdate(s, i, call.(phase := Running(current), bodies := call.bodies + 1));
      }
    }
  }

  // A running call has its predecessors finished.
  lemma RunningIsCleared(s: State, i: nat)
    requires InOrder(s.calls) && i < |s.calls| && !s.calls[i].phase.Queued?
    ensures Cleared(s.calls, i)
  {
  }

  lemma ReturnKeeps(s: State, i: nat, reply: Reply)
    requires Inv(s) && Enabled(s, Return(i, reply))
    ensures Inv(Commit(s, i, reply))
  {
    hide LinkOk, InOrder, Serial;
    RunningIsCleared(s, i);
    var call := s.calls[i];
    assert CallOk(s, call) && SeesSerial(s.init, s.calls, i);
    if reply.Throw? {
      QuietUpdate(s, i, call.(phase := Settled(Raised)));
    } else if IsAborted(s, call.signal) {
      QuietUpdate(s, i, call.(phase := Settled(Cancelled)));
    } else if reply.c.None? {
      QuietUpdate(s, i, call.(phase := Settled(Committed(call.phase.current, Keep))));
    } else {
      var c := reply.c.value;
      var done := call.(phase := Settled(Committed(Some(c), Put(c))));
      CommitUpdate(s, i, done, s.creds[call.provider := c]);
      HistoryFree(s.(calls := s.calls[i := done], creds := s.creds[call.provider := c]), Commit(s, i, reply));
    }
  }

  // The invariant does not look at the history fields or the clock.
  lemma HistoryFree(s: State, t: State)
    requires Inv(s)
    requires t == s.(now := t.now, replaced := t.replaced)
    ensures Inv(t)
  {
    hide LinkOk, InOrder, Serial;
    forall k | 0 <= k < |t.calls| ensures CallOk(t, t.calls[k]) && SeesSerial(t.init, t.calls, k) {
      assert CallOk(s, s.calls[k]) && SeesSerial(s.init, s.calls, k);
    }
    assert Chained(t);
  }

  lemma AbortKeeps(s: State, sig: nat)
    requires Inv(s)
    ensures Inv(s.(aborted := s.aborted + {sig}))
  {
    hide LinkOk, InOrder, Serial;
    var t := s.(aborted := s.aborted + {sig});
    forall k | 0 <= k < |t.calls| ensures CallOk(t, t.calls[k]) && SeesSerial(t.init, t.calls, k) {
      assert CallOk(s, s.calls[k]) && SeesSerial(s.init, s.calls, k);
    }
    assert Chained(t);
  }

  lemma FinishKeeps(s: State, i: nat)
    requires Inv(s) && Enabled(s, Finish(i))
    ensures Inv(Apply(s, Finish(i)))
  {
    hide LinkOk, InOrder, Serial;
    RunningIsCleared(s, i);
    assert CallOk(s, s.calls[i]);
    QuietUpdate(s, i, s.calls[i].(finished := true));
  }

  lemma WakeKeeps(s: State, i: nat)
    requires Inv(s) && Enabled(s, Wake(i))
    ensures Inv(Notice(s, i))
  {
    hide LinkOk, InOrder, Serial;
    var call := s.calls[i];
    assert CallOk(s, call);
    if call.phase.Settled? {
      RunningIsCleared(s, i);
      QuietUpdate(s, i, call.(caller := Told(call.phase.outcome)));
    } else if IsAborted(s, call.signal) {
      if !call.phase.Queued? { RunningIsCleared(s, i); }
      QuietUpdate(s, i, call.(caller := Gone));
    }
  }

  /** Pruning drops a chain only once every call of its provider has finished. */
  lemma PruneKeeps(s: State, i: nat)
    requires Inv(s) && Enabled(s, Prune(i))
    ensures Inv(Apply(s, Prune(i)))
    ensures forall p :: p in s.chains && s.chains[p] == i ==> p !in Apply(s, Prune(i)).chains
    ensures forall p :: p in s.chains && p !in Apply(s, Prune(i)).chains ==>
              forall k :: 0 <= k < |s.calls| && s.calls[k].provider == p ==> s.calls[k].finished
  {
    hide LinkOk, Serial, SeesSerial, InOrder, CallOk, Chained;
    PruneChained(s, i);
    OtherChains(s, Apply(s, Prune(i)));
  }

  lemma PruneChained(s: State, i: nat)
    requires InOrder(s.calls) && Chained(s) && CallsOk(s) && Enabled(s, Prune(i))
    ensures Chained(Apply(s, Prune(i)))
    ensures forall p :: p in s.chains && s.chains[p] == i ==> p !in Apply(s, Prune(i)).chains
    ensures forall p :: p in s.chains && p !in Apply(s, Prune(i)).chains ==>
              forall k :: 0 <= k < |s.calls| && s.calls[k].provider == p ==> s.calls[k].finished
    ensures Apply(s, Prune(i)) == s.(chains := Apply(s, Prune(i)).chains)
  {
    var p := s.calls[i].provider;
    if p in s.chains && s.chains[p] == i {
      forall k | 0 <= k < |s.calls| && s.calls[k].provider == p ensures s.calls[k].finished {
        FinishedBefore(s, i, k);
      }
    }
  }

  // The last published call has finished, so every call of its provider has.
  lemma FinishedBefore(s: State, i: nat, k: nat)
    requires InOrder(s.calls) && Chained(s) && i < |s.calls| && s.calls[i].finished && CallsOk(s)
    requires s.calls[i].provider in s.chains && s.chains[s.calls[i].provider] == i
    requires k < |s.calls| && s.calls[k].provider == s.calls[i].provider
    ensures s.calls[k].finished
  {
    assert k <= i;
    assert CallOk(s, s.calls[i]);
  }

  // What a call says of itself does not depend on the published chains.
  lemma OtherChains(s: State, t: State)
    requires CallsOk(s) && Seen(s) && Stored(s) && t == s.(chains := t.chains)
    ensures CallsOk(t) && Seen(t) && Stored(t)
  {
    hide Serial;
    forall k | 0 <= k < |t.calls| ensures CallOk(t, t.calls[k]) && SeesSerial(t.init, t.calls, k) {
      assert CallOk(s, s.calls[k]) && SeesSerial(s.init, s.calls, k);
    }
  }

  lemma InvokeLinked(s: State, p: string, body: Body, signal: Option<nat>)
    requires InOrder(s.calls) && Linked(s.calls) && Chained(s)
    ensures var t := Enqueue(s, p, body, signal); InOrder(t.calls) && Linked(t.calls)
  {
    var n := |s.calls|;
    var t := Enqueue(s, p, body, signal);
    forall j | 0 <= j < |t.calls| ensures LinkOk(t.calls, j) {
      if j < n {
        assert LinkOk(s.calls, j);
      } else if p !in s.chains {
        forall i | 0 <= i < n && t.calls[i].provider == p ensures t.calls[i].finished {
          assert s.calls[i].provider !in s.chains;
        }
      }
    }
  }

  lemma InvokeChained(s: State, p: string, body: Body, signal: Option<nat>)
    requires Chained(s)
    ensures Chained(Enqueue(s, p, body, signal))
  {
    var t := Enqueue(s, p, body, signal);
    forall i | 0 <= i < |t.calls| && t.calls[i].provider !in t.chains ensures t.calls[i].finished {
      assert s.calls[i].provider !in s.chains;
    }
    forall q | q in t.chains
      ensures t.chains[q] < |t.calls| && t.calls[t.chains[q]].provider == q
      ensures forall k :: t.chains[q] < k < |t.calls| ==> t.calls[k].provider != q
    {
      assert q != p ==> q in s.chains;
    }
  }

  lemma InvokeKeeps(s: State, p: string, body: Body, signal: Option<nat>)
    requires Inv(s)
    ensures Inv(Enqueue(s, p, body, signal))
  {
    hide LinkOk, InOrder, Chained, CallOk, SeesSerial, Serial;
    InvokeLinked(s, p, body, signal);
    InvokeChained(s, p, body, signal);
    InvokeCalls(s, p, body, signal);
    InvokeStored(s, p, body, signal);
  }

  lemma InvokeCalls(s: State, p: string, body: Body, signal: Option<nat>)
    requires CallsOk(s) && Seen(s)
    ensures CallsOk(Enqueue(s, p, body, signal)) && Seen(Enqueue(s, p, body, signal))
  {
    hide Serial;
    var t := Enqueue(s, p, body, signal);
    forall k | 0 <= k < |t.calls| ensures CallOk(t, t.calls[k]) && SeesSerial(t.init, t.calls, k) {
      if k < |s.calls| {
        assert CallOk(s, s.calls[k]) && SeesSerial(s.init, s.calls, k);
        SerialPrefix(s.init, s.calls, t.calls, s.calls[k].provider, k);
      }
    }
  }

  lemma InvokeStored(s: State, p: string, body: Body, signal: Option<nat>)
    requires Stored(s)
    ensures Stored(Enqueue(s, p, body, signal))
  {
    var t := Enqueue(s, p, body, signal);
    forall q ensures Lookup(t.creds, q) == Serial(t.init, t.calls, q, |t.calls|) {
      SerialPrefix(s.init, s.calls, t.calls, q, |s.calls|);
    }
  }

  lemma StepKeeps(s: State, a: Action)
    requires Inv(s) && Enabled(s, a)
    ensures Inv(Apply(s, a))
  {
    hide Inv, Enqueue, Begin, Commit, Notice;
    match a
    case Invoke(p, body, signal) => InvokeKeeps(s, p, body, signal);
    case Start(i) => StartKeeps(s, i);
    case Return(i, reply) => ReturnKeeps(s, i, reply);
    case Finish(i) => FinishKeeps(s, i);
    case Prune(i) => PruneKeeps(s, i);
    case Wake(i) => WakeKeeps(s, i);
    case Abort(sig) => AbortKeeps(s, sig);
    case Tick(now) => HistoryFree(s, s.(now := now));
  }

  lemma InitialInv(stored: map<string, Credential>, now: Float)
    ensures Inv(Initial(stored, now))
  {
  }

  lemma {:induction false} RunKeeps(s: State, acts: seq<Action>)
    requires Inv(s) && Runs(s, acts)
    ensures Inv(After(s, acts))
    decreases |acts|
  {
    hide Inv, Apply;
    if acts != [] {
      StepKeeps(s, acts[0]);
      RunKeeps(Apply(s, acts[0]), acts[1..]);
    }
  }

  // ---------------------------------------------------------------------------------------------
  // What every run promises
  // ---------------------------------------------------------------------------------------------

  /** In every interleaving: at most one body per provider is in progress, bodies run in call order,
      what is stored is the serial execution of the committed bodies in call order, each body and each
      result agrees with that execution, and no unfinished chain is unpublished. */
  lemma Serializable(stored: map<string, Credential>, now: Float, acts: seq<Action>)
    requires Runs(Initial(stored, now), acts)
    ensures var s := After(Initial(stored, now), acts);
      && (forall i, j :: 0 <= i < j < |s.calls| && s.calls[i].provider == s.calls[j].provider ==>
            !(s.calls[i].phase.Running? && s.calls[j].phase.Running?)
            && (!s.calls[j].phase.Queued? ==> s.calls[i].phase.Settled?))
      && (forall p :: Lookup(s.creds, p) == Serial(stored, s.calls, p, |s.calls|))
      && (forall i :: 0 <= i < |s.calls| ==> SeesSerial(stored, s.calls, i))
      && (forall i :: 0 <= i < |s.calls| && !s.calls[i].finished ==> s.calls[i].provider in s.chains)
  {
    hide Serial, SeesSerial, LinkOk, Apply;
    var s := After(Initial(stored, now), acts);
    InitialInv(stored, now);
    RunKeeps(Initial(stored, now), acts);
    InitKept(Initial(stored, now), acts);
    forall i, j | 0 <= i < j < |s.calls| && s.calls[i].provider == s.calls[j].provider
      ensures !(s.calls[i].phase.Running? && s.calls[j].phase.Running?)
      ensures !s.calls[j].phase.Queued? ==> s.calls[i].phase.Settled?
    {
      assert CallOk(s, s.calls[i]);
    }
  }

  lemma {:induction false} InitKept(s: State, acts: seq<Action>)
    requires Runs(s, acts)
    ensures After(s, acts).init == s.init
    decreases |acts|
  {
    if acts != [] { InitKept(Apply(s, acts[0]), acts[1..]); }
  }

  /** What a step may do to one call: it keeps its identity, a caller is answered once, a settled task
      stays settled. */
  predicate Evolves(c: Call, d: Call) {
    && d.provider == c.provider && d.body == c.body && d.signal == c.signal && d.previous == c.previous
    && (!c.caller.Waiting? ==> d.caller == c.caller)
    && (c.phase.Settled? ==> d.phase == c.phase && d.bodies == c.bodies)
  }

  lemma BeginEvolves(s: State, k: nat, i: nat)
    requires Enabled(s, Start(k)) && i < |s.calls|
    ensures i < |Begin(s, k).calls| && Evolves(s.calls[i], Begin(s, k).calls[i])
  {
    hide Refreshes, Ready, Evolves;
    SettlesEvolves(s.calls[k]);
    SameEvolves(s.calls[i]);
  }

  // A call that is not settled may settle, start, or take any answer.
  lemma SettlesEvolves(c: Call)
    ensures !c.phase.Settled? ==> forall ph, n :: Evolves(c, c.(phase := ph, bodies := n))
    ensures !c.phase.Settled? ==> forall ph :: Evolves(c, c.(phase := ph))
  {
  }

  lemma SameEvolves(c: Call)
    ensures Evolves(c, c)
  {
  }

  lemma CommitEvolves(s: State, k: nat, reply: Reply, i: nat)
    requires Enabled(s, Return(k, reply)) && i < |s.calls|
    ensures i < |Commit(s, k, reply).calls| && Evolves(s.calls[i], Commit(s, k, reply).calls[i])
  {
    hide Evolves;
    SettlesEvolves(s.calls[k]);
    SameEvolves(s.calls[i]);
  }

  lemma NoticeEvolves(s: State, k: nat, i: nat)
    requires Enabled(s, Wake(k)) && i < |s.calls|
    ensures i < |Notice(s, k).calls| && Evolves(s.calls[i], Notice(s, k).calls[i])
  {
  }

  lemma StepEvolves(s: State, a: Action, i: nat)
    requires Enabled(s, a) && i < |s.calls|
    ensures i < |Apply(s, a).calls| && Evolves(s.calls[i], Apply(s, a).calls[i])
  {
    hide Begin, Commit, Notice, Ready;
    match a
    case Start(k) => BeginEvolves(s, k, i);
    case Return(k, reply) => CommitEvolves(s, k, reply, i);
    case Wake(k) => NoticeEvolves(s, k, i);
    case Invoke(_, _, _) =>
    case Finish(_) =>
    case Prune(_) =>
    case Abort(_) =>
    case Tick(_) =>
  }

  lemma {:induction false} RunEvolves(s: State, acts: seq<Action>, i: nat)
    requires Runs(s, acts) && i < |s.calls|
    ensures i < |After(s, acts).calls| && Evolves(s.calls[i], After(s, acts).calls[i])
    decreases |acts|
  {
    hide Apply, Enabled;
    if acts != [] {
      StepEvolves(s, acts[0], i);
      RunEvolves(Apply(s, acts[0]), acts[1..], i);
    }
  }

  /** The caller was told its operation is cancelled: by its own race, or by the queued call's checkpoints. */
  predicate ToldCancelled(call: Call) {
    call.caller == Gone || call.caller == Told(Cancelled)
  }

  // A call without effect leaves the store what it would be had that call never left the queue.
  lemma EffectlessIsAbsent(t: State, i: nat)
    requires Stored(t) && i < |t.calls| && EffectOf(t.calls[i]) == Keep
    ensures forall p :: Lookup(t.creds, p) == Serial(t.init, t.calls[i := t.calls[i].(phase := Queued)], p, |t.calls|)
  {
    hide Serial;
    var without := t.calls[i := t.calls[i].(phase := Queued)];
    forall p ensures Lookup(t.creds, p) == Serial(t.init, without, p, |t.calls|) {
      SerialPrefix(t.init, t.calls, without, p, |t.calls|);
    }
  }

  /** Once a caller has been told `Cancelled`, its call has had and will have no effect: however the run
      goes on, the store is what it would be had that call never left the queue. */
  lemma CancelledHasNoEffect(s: State, more: seq<Action>, i: nat)
    requires Inv(s) && Runs(s, more) && i < |s.calls| && ToldCancelled(s.calls[i])
    ensures var t := After(s, more);
      && i < |t.calls| && ToldCancelled(t.calls[i]) && EffectOf(t.calls[i]) == Keep
      && forall p :: Lookup(t.creds, p)
                     == Serial(t.init, t.calls[i := t.calls[i].(phase := Queued)], p, |t.calls|)
  {
    hide Serial, SeesSerial, LinkOk, Apply, InOrder;
    var t := After(s, more);
    RunKeeps(s, more);
    RunEvolves(s, more, i);
    assert CallOk(t, t.calls[i]);
    EffectlessIsAbsent(t, i);
  }

  /** A body that raised, or whose answer was discarded, stays so and has no effect at any later time: the
      store is what it would be had that call never left the queue. */
  lemma FailedBodyChangesNothing(s: State, more: seq<Action>, i: nat)
    requires Inv(s) && Runs(s, more) && i < |s.calls|
    requires s.calls[i].phase == Settled(Raised) || s.calls[i].phase == Settled(Cancelled)
    ensures var t := After(s, more);
      && i < |t.calls| && t.calls[i].phase == s.calls[i].phase
      && forall p :: Lookup(t.creds, p)
                     == Serial(t.init, t.calls[i := t.calls[i].(phase := Queued)], p, |t.calls|)
  {
    hide Serial, SeesSerial, LinkOk, Apply, InOrder;
    RunKeeps(s, more);
    RunEvolves(s, more, i);
    EffectlessIsAbsent(After(s, more), i);
  }

  /** A call's turn: cancelled if its signal is aborted; otherwise a deletion removes what is stored for its
      provider and nothing else, and a write is given what is stored. */
  lemma TurnComes(s: State, i: nat)
    requires Enabled(s, Start(i))
    ensures var call, t := s.calls[i], Apply(s, Start(i));
      && (IsAborted(s, call.signal) ==> t.calls[i].phase == Settled(Cancelled) && t.creds == s.creds)
      && (!IsAborted(s, call.signal) && call.body.Delete? ==>
            && t.calls[i].phase == Settled(Committed(None, Remove))
            && forall p :: Lookup(t.creds, p) == if p == call.provider then None else Lookup(s.creds, p))
      && (!IsAborted(s, call.signal) && call.body.Write? ==>
            t.calls[i].phase == Running(Lookup(s.creds, call.provider)) && t.creds == s.creds)
  {
    hide Refreshes, Ready;
  }

  /** What a callback answers decides its call for good: a failure, an answer discarded because the caller
      aborted, exactly the credential it returned stored for its provider, or nothing changed. */
  lemma ReturnIsFinal(s: State, i: nat, reply: Reply, more: seq<Action>)
    requires Inv(s) && Enabled(s, Return(i, reply)) && Runs(Apply(s, Return(i, reply)), more)
    ensures var call, t := s.calls[i], Apply(s, Return(i, reply));
      var later := After(t, more);
      var outcome :=
        if reply.Throw? then Raised
        else if IsAborted(s, call.signal) then Cancelled
        else if reply.c.Some? then Committed(reply.c, Put(reply.c.value))
        else Committed(Lookup(s.creds, call.provider), Keep);
      && i < |later.calls| && later.calls[i].phase == Settled(outcome)
      && (later.calls[i].caller.Told? ==> later.calls[i].caller.outcome == outcome)
      && (forall p :: Lookup(t.creds, p) ==
            if p == call.provider && outcome.Committed? && reply.c.Some? then reply.c else Lookup(s.creds, p))
  {
    hide Serial, SeesSerial, LinkOk, InOrder;
    var t := Apply(s, Return(i, reply));
    RunningHoldsStored(s, i);
    StepKeeps(s, Return(i, reply));
    RunKeeps(t, more);
    RunEvolves(t, more, i);
    assert CallOk(After(t, more), After(t, more).calls[i]);
  }

  /** A deletion told its result removed, and nothing else ever removes. */
  lemma RemovalMeansDelete(stored: map<string, Credential>, now: Float, acts: seq<Action>, i: nat)
    requires Runs(Initial(stored, now), acts) && i < |After(Initial(stored, now), acts).calls|
    ensures var call := After(Initial(stored, now), acts).calls[i];
      call.caller.Told? && call.caller.outcome.Committed? ==>
        && (call.body.Delete? <==> call.caller.outcome.effect.Remove?)
        && (call.body.Delete? ==> call.caller.outcome.result == None)
  {
    hide Serial, LinkOk, InOrder, Apply;
    var s := After(Initial(stored, now), acts);
    InitialInv(stored, now);
    RunKeeps(Initial(stored, now), acts);
    assert CallOk(s, s.calls[i]) && SeesSerial(s.init, s.calls, i);
  }

  /** A call goes to the end of the line as it was made, nothing stored changes, and its caller waits unless its
      signal is aborted already. */
  lemma InvokeQueues(s: State, p: string, body: Body, signal: Option<nat>)
    ensures var t := Apply(s, Invoke(p, body, signal));
      && |t.calls| == |s.calls| + 1 && t.calls[..|s.calls|] == s.calls && t.creds == s.creds
      && var call := t.calls[|s.calls|];
        && call.provider == p && call.body == body && call.signal == signal && call.phase.Queued? && call.bodies == 0
        && (if IsAborted(s, signal) then call.caller.Gone? else call.caller.Waiting?)
  {
  }

  /** A waiting caller whose wait returns is told its call's outcome if there is one, stops waiting if its
      signal is aborted, and otherwise waits on. */
  lemma WakeAnswers(s: State, i: nat)
    requires Enabled(s, Wake(i))
    ensures var call, after := s.calls[i], Apply(s, Wake(i)).calls[i].caller;
      && (call.phase.Settled? ==> after == Told(call.phase.outcome))
      && (after.Gone? <==> !call.phase.Settled? && IsAborted(s, call.signal))
      && (after.Waiting? <==> !call.phase.Settled? && !IsAborted(s, call.signal))
  {
  }

  /** A caller given a result, or its body's own exception, had its body run exactly once, and keeps
      exactly that answer; no body ever runs twice. */
  lemma ResultMeansOneBody(s: State, more: seq<Action>, i: nat)
    requires Inv(s) && Runs(s, more) && i < |s.calls|
    ensures var t := After(s, more); i < |t.calls| && t.calls[i].bodies <= 1
    ensures s.calls[i].caller.Told? && s.calls[i].caller.outcome != Cancelled ==>
              After(s, more).calls[i].bodies == 1 && After(s, more).calls[i].caller == s.calls[i].caller
  {
    hide Serial, SeesSerial, LinkOk, Apply, InOrder;
    RunKeeps(s, more);
    RunEvolves(s, more, i);
    assert CallOk(s, s.calls[i]);
    assert CallOk(After(s, more), After(s, more).calls[i]);
  }

  /** How many steps a call still has before it. */
  function Left(call: Call): nat {
    if call.finished then 0 else match call.phase case Queued => 3 case Running(_) => 2 case Settled(_) => 1
  }

  /** No chain stalls: as long as a call has not finished, some call of its provider at or before it can
      take a step, whatever the callers and their signals do. */
  lemma {:induction false} ChainNeverStalls(s: State, i: nat) returns (k: nat, a: Action)
    requires Inv(s) && i < |s.calls| && !s.calls[i].finished
    ensures k <= i && s.calls[k].provider == s.calls[i].provider && !s.calls[k].finished
    ensures Enabled(s, a) && a in {Start(k), Return(k, Throw), Finish(k)}
    ensures k < |Apply(s, a).calls| && Left(Apply(s, a).calls[k]) < Left(s.calls[k])
  {
    hide Serial, SeesSerial, Chained, CallOk;
    if j :| 0 <= j < i && s.calls[j].provider == s.calls[i].provider && !s.calls[j].finished {
      k, a := ChainNeverStalls(s, j);
    } else {
      assert LinkOk(s.calls, i);
      k := i;
      a := match s.calls[i].phase
        case Queued => Start(i)
        case Running(_) => Return(i, Throw)
        case Settled(_) => Finish(i);
    }
  }

  // ---------------------------------------------------------------------------------------------
  // Refresh
  // ---------------------------------------------------------------------------------------------

  /** In every state, a refresh whose turn comes calls the provider iff it is not cancelled and the stored
      credential is still expiring, and then it hands over exactly that credential. */
  lemma RefreshGetsCurrent(s: State, i: nat)
    requires Enabled(s, Start(i)) && s.calls[i].body.Refresh?
    ensures var call, given := s.calls[i], Apply(s, Start(i)).calls[i].phase;
      && (given.Running? <==>
            !IsAborted(s, call.signal) && Refreshes(Lookup(s.creds, call.provider), call.body.trigger, s.now))
      && (given.Running? ==> given.current == Lookup(s.creds, call.provider))
  {
  }

  /** What is stored for `p` is not a credential that a committed refresh of `p` replaced. */
  predicate Unreplaced(s: State, p: string) {
    p in s.creds ==> (p, s.creds[p]) !in s.replaced
  }

  /** A body of `p` that commits does not return a credential refreshed away earlier, and a refresh does not
      return the credential it was given. */
  predicate ReturnsNew(s: State, a: Action, p: string)
    requires Enabled(s, a)
  {
    var commits := a.Return? && s.calls[a.i].provider == p && a.reply.Value? && a.reply.c.Some?
      && !IsAborted(s, s.calls[a.i].signal);
    commits ==>
      && (p, a.reply.c.value) !in s.replaced
      && !(s.calls[a.i].body.Refresh? && s.calls[a.i].phase.current == a.reply.c)
  }

  /** One step keeps the stored credential unreplaced exactly when what it commits is new. */
  lemma UnreplacedStep(s: State, a: Action, p: string)
    requires Enabled(s, a) && Unreplaced(s, p)
    ensures Unreplaced(Apply(s, a), p) <==> ReturnsNew(s, a, p)
  {
    hide Ready, Refreshes;
  }

  predicate NewRun(s: State, acts: seq<Action>, p: string)
    requires Runs(s, acts)
    decreases |acts|
  {
    acts == [] || (ReturnsNew(s, acts[0], p) && NewRun(Apply(s, acts[0]), acts[1..], p))
  }

  predicate AlwaysUnreplaced(s: State, acts: seq<Action>, p: string)
    requires Runs(s, acts)
    decreases |acts|
  {
    Unreplaced(s, p) && (acts == [] || AlwaysUnreplaced(Apply(s, acts[0]), acts[1..], p))
  }

  /** Over a whole run: no credential a refresh of `p` replaced is ever stored for `p` again, exactly when no
      body of `p` commits one. */
  lemma {:induction false} UnreplacedRun(s: State, acts: seq<Action>, p: string)
    requires Runs(s, acts) && Unreplaced(s, p)
    ensures AlwaysUnreplaced(s, acts, p) <==> NewRun(s, acts, p)
    ensures AlwaysUnreplaced(s, acts, p) ==> Unreplaced(After(s, acts), p)
    decreases |acts|
  {
    hide Apply, Enabled, ReturnsNew, Unreplaced;
    if acts != [] {
      var t := Apply(s, acts[0]);
      UnreplacedStep(s, acts[0], p);
      if Unreplaced(t, p) { UnreplacedRun(t, acts[1..], p); }
    }
  }

  /** In every interleaving in which the bodies of its provider return new credentials, refresh is never
      given one that a committed refresh replaced. */
  lemma ReplacedIsNotRefreshedAgain(stored: map<string, Credential>, now: Float, acts: seq<Action>, s: State, i: nat)
    requires Runs(Initial(stored, now), acts) && s == After(Initial(stored, now), acts)
    requires Enabled(s, Start(i)) && s.calls[i].body.Refresh?
    requires NewRun(Initial(stored, now), acts, s.calls[i].provider)
    ensures var given := Apply(s, Start(i)).calls[i].phase;
      given.Running? ==> given.current.Some? && (s.calls[i].provider, given.current.value) !in s.replaced
  {
    hide After, Runs, NewRun, Apply, Ready, AlwaysUnreplaced;
    UnreplacedRun(Initial(stored, now), acts, s.calls[i].provider);
    RefreshGetsCurrent(s, i);
  }

  /** Without that condition it happens: a refresh that returns the expiring credential it was given commits,
      and the next refresh is given the same one. */
  lemma SameCredentialRefreshedAgain(p: string, c: Credential, trigger: Float, now: Float)
    requires Refreshes(Some(c), trigger, now)
    ensures var again := Invoke(p, Refresh(trigger), None);
      var acts := [again, Start(0), Return(0, Value(Some(c))), Finish(0), again];
      && Runs(Initial(map[p := c], now), acts)
      && var s := After(Initial(map[p := c], now), acts);
        && Enabled(s, Start(1)) && (p, c) in s.replaced
        && Apply(s, Start(1)).calls[1].phase == Running(Some(c))
  {
    hide ExpiresSoon;
    var again := Invoke(p, Refresh(trigger), None);
    var s0 := Initial(map[p := c], now);
    var first := Call(p, Refresh(trigger), None, None, Queued, false, Waiting, 0);
    var second := first.(previous := Some(0));
    var done := first.(phase := Settled(Committed(Some(c), Put(c))), bodies := 1);
    var s1 := s0.(calls := [first], chains := map[p := 0]);
    assert Apply(s0, again) == s1;
    var s2 := s1.(calls := [first.(phase := Running(Some(c)), bodies := 1)]);
    assert Apply(s1, Start(0)) == s2;
    var s3 := s2.(calls := [done], replaced := {(p, c)});
    assert Apply(s2, Return(0, Value(Some(c)))) == s3;
    var s4 := s3.(calls := [done.(finished := true)]);
    assert Apply(s3, Finish(0)) == s4;
    var s5 := s4.(calls := s4.calls + [second], chains := map[p := 1]);
    assert Apply(s4, again) == s5;
    assert Apply(s5, Start(1)).calls[1].phase == Running(Some(c));
    RunsAll(s0, s1, s2, s3, s4, s5, p, c, trigger);
  }

  lemma RunsAll(s0: State, s1: State, s2: State, s3: State, s4: State, s5: State, p: string, c: Credential,
      trigger: Float)
    requires var again := Invoke(p, Refresh(trigger), None);
      && Apply(s0, again) == s1 && Enabled(s1, Start(0)) && Apply(s1, Start(0)) == s2
      && Enabled(s2, Return(0, Value(Some(c)))) && Apply(s2, Return(0, Value(Some(c)))) == s3
      && Enabled(s3, Finish(0)) && Apply(s3, Finish(0)) == s4 && Apply(s4, again) == s5
    ensures var again := Invoke(p, Refresh(trigger), None);
      var acts := [again, Start(0), Return(0, Value(Some(c))), Finish(0), again];
      Runs(s0, acts) && After(s0, acts) == s5
  {
    hide Apply;
    var again := Invoke(p, Refresh(trigger), None);
    RunsNone(s5);
    RunsOne(s4, again, []);
    RunsOne(s3, Finish(0), [again]);
    RunsOne(s2, Return(0, Value(Some(c))), [Finish(0), again]);
    RunsOne(s1, Start(0), [Return(0, Value(Some(c))), Finish(0), again]);
    RunsOne(s0, again, [Start(0), Return(0, Value(Some(c))), Finish(0), again]);
  }

  lemma RunsNone(s: State)
    ensures Runs(s, []) && After(s, []) == s
  {
  }

  lemma RunsOne(s: State, a: Action, rest: seq<Action>)
    requires Enabled(s, a) && Runs(Apply(s, a), rest)
    ensures Runs(s, [a] + rest) && After(s, [a] + rest) == After(Apply(s, a), rest)
  {
    hide Apply, Enabled;
    assert ([a] + rest)[1..] == rest;
  }

  /** While a refresh is in flight the credential it was given stays the stored one. */
  lemma RunningHoldsStored(s: State, i: nat)
    requires Inv(s) && i < |s.calls| && s.calls[i].phase.Running?
    ensures Lookup(s.creds, s.calls[i].provider) == s.calls[i].phase.current
  {
    hide LinkOk, InOrder, Serial, CallOk;
    TurnValue(s, i);
    assert SeesSerial(s.init, s.calls, i);
  }

  /** No arbitrary write is queued on `p`. */
  ghost predicate NoWrites(s: State, p: string) {
    forall i :: 0 <= i < |s.calls| && s.calls[i].provider == p ==> !s.calls[i].body.Write?
  }

  predicate InvokesNoWrite(acts: seq<Action>, p: string) {
    forall k :: 0 <= k < |acts| && acts[k].Invoke? && acts[k].provider == p ==> !acts[k].body.Write?
  }

  lemma AbsentStep(s: State, a: Action, p: string)
    requires Inv(s) && Enabled(s, a) && NoWrites(s, p) && Lookup(s.creds, p) == None
    requires a.Invoke? && a.provider == p ==> !a.body.Write?
    ensures NoWrites(Apply(s, a), p) && Lookup(Apply(s, a).creds, p) == None
  {
    hide Serial, LinkOk, InOrder, SeesSerial, Chained, Ready, Refreshes;
    if a.Return? && s.calls[a.i].provider == p {
      assert CallOk(s, s.calls[a.i]);
      RunningHoldsStored(s, a.i);
    }
    forall i | 0 <= i < |Apply(s, a).calls| && Apply(s, a).calls[i].provider == p
      ensures !Apply(s, a).calls[i].body.Write?
    {
      hide Apply, Enabled;
      if i < |s.calls| { StepEvolves(s, a, i); } else { NewCall(s, a, i); }
    }
  }

  lemma NewCall(s: State, a: Action, i: nat)
    requires Enabled(s, a) && |s.calls| <= i < |Apply(s, a).calls|
    ensures a.Invoke? && Apply(s, a).calls[i].body == a.body && Apply(s, a).calls[i].provider == a.provider
  {
    hide Ready, Refreshes;
  }

  /** A committed delete is never undone by refreshes: with only refreshes and deletes on a provider, an
      absent credential stays absent in every continuation. */
  lemma {:induction false} AbsentStays(s: State, acts: seq<Action>, p: string)
    requires Inv(s) && Runs(s, acts) && NoWrites(s, p) && InvokesNoWrite(acts, p)
    requires Lookup(s.creds, p) == None
    ensures Lookup(After(s, acts).creds, p) == None
    decreases |acts|
  {
    hide Inv, Apply, Enabled, NoWrites, Lookup;
    if acts != [] {
      AbsentStep(s, acts[0], p);
      StepKeeps(s, acts[0]);
      AbsentStays(Apply(s, acts[0]), acts[1..], p);
    }
  }

  // One threshold, a still clock, and refreshes that return credentials not yet expiring.
  predicate SteadyStep(s: State, a: Action, p: string, trigger: Float) {
    && !a.Tick?
    && (a.Invoke? && a.provider == p ==> a.body == Delete || a.body == Refresh(trigger))
    && (a.Return? && a.i < |s.calls| && s.calls[a.i].provider == p && a.reply.Value? && a.reply.c.Some? ==>
          !Refreshes(a.reply.c, trigger, s.now))
  }

  predicate SteadyRun(s: State, acts: seq<Action>, p: string, trigger: Float)
    requires Runs(s, acts)
    decreases |acts|
  {
    acts == [] || (SteadyStep(s, acts[0], p, trigger) && SteadyRun(Apply(s, acts[0]), acts[1..], p, trigger))
  }

  /** A refresh of `p` that committed a new credential. */
  predicate Refreshed(call: Call, p: string) {
    call.provider == p && call.body.Refresh? && EffectOf(call).Put?
  }

  predicate SteadyCall(s: State, call: Call, p: string, trigger: Float) {
    call.provider == p ==>
      && (call.body == Delete || call.body == Refresh(trigger))
      && (call.phase.Running? ==> Refreshes(call.phase.current, trigger, s.now))
      && (Refreshed(call, p) ==> !Refreshes(Lookup(s.creds, p), trigger, s.now))
  }

  ghost predicate Steady(s: State, p: string, trigger: Float) {
    && (forall i :: 0 <= i < |s.calls| ==> SteadyCall(s, s.calls[i], p, trigger))
    && (forall i, j :: 0 <= i < j < |s.calls| ==> !(Refreshed(s.calls[i], p) && Refreshed(s.calls[j], p)))
  }

  /** One call changes and the stored value may: the others' refreshes must still be current. */
  lemma SteadyUpdate(s: State, i: nat, call: Call, creds: map<string, Credential>, p: string, trigger: Float)
    requires Steady(s, p, trigger) && i < |s.calls| && call.provider == s.calls[i].provider
    requires SteadyCall(s.(creds := creds), call, p, trigger)
    requires Lookup(creds, p) == Lookup(s.creds, p) || !Refreshes(Lookup(creds, p), trigger, s.now)
    requires Refreshed(call, p) ==> Refreshed(s.calls[i], p) || Refreshes(Lookup(s.creds, p), trigger, s.now)
    ensures Steady(s.(calls := s.calls[i := call], creds := creds), p, trigger)
  {
    hide Refreshes, Lookup;
    var t := s.(calls := s.calls[i := call], creds := creds);
    forall k | 0 <= k < |t.calls| ensures SteadyCall(t, t.calls[k], p, trigger) {
      if k != i { assert SteadyCall(s, s.calls[k], p, trigger); }
    }
    forall k | 0 <= k < |s.calls| && k != i && Refreshed(s.calls[k], p) ensures !Refreshed(call, p) {
      assert SteadyCall(s, s.calls[k], p, trigger);
    }
  }

  // The same with nothing stored changed and no refresh committed by it.
  lemma SteadyQuiet(s: State, i: nat, call: Call, p: string, trigger: Float)
    requires Steady(s, p, trigger) && i < |s.calls|
    requires call.provider == s.calls[i].provider && call.body == s.calls[i].body
    requires EffectOf(call) == EffectOf(s.calls[i])
    requires call.phase.Running? && call.provider == p && call.phase != s.calls[i].phase ==>
      Refreshes(call.phase.current, trigger, s.now)
    ensures Steady(s.(calls := s.calls[i := call]), p, trigger)
  {
    hide Refreshes, Lookup, EffectOf;
    assert SteadyCall(s, s.calls[i], p, trigger);
    assert s.(creds := s.creds) == s;
    SteadyUpdate(s, i, call, s.creds, p, trigger);
  }

  lemma SteadyAt(s: State, i: nat, p: string, trigger: Float)
    requires Steady(s, p, trigger) && i < |s.calls|
    ensures SteadyCall(s, s.calls[i], p, trigger)
  {
  }

  lemma SteadyInvoke(s: State, q: string, body: Body, signal: Option<nat>, p: string, trigger: Float)
    requires Steady(s, p, trigger) && (q == p ==> body == Delete || body == Refresh(trigger))
    ensures Steady(Enqueue(s, q, body, signal), p, trigger)
  {
    hide Refreshes, Lookup;
    var t := Enqueue(s, q, body, signal);
    forall k | 0 <= k < |t.calls| ensures SteadyCall(t, t.calls[k], p, trigger) {
      if k < |s.calls| { assert SteadyCall(s, s.calls[k], p, trigger); }
    }
  }

  lemma SteadyStart(s: State, i: nat, p: string, trigger: Float)
    requires Enabled(s, Start(i)) && Steady(s, p, trigger)
    ensures Steady(Begin(s, i), p, trigger)
  {
    hide Refreshes, Ready, Steady;
    SteadyAt(s, i, p, trigger);
    var call := s.calls[i];
    var current := Lookup(s.creds, call.provider);
    if IsAborted(s, call.signal) {
      SteadyQuiet(s, i, call.(phase := Settled(Cancelled)), p, trigger);
    } else if call.body.Delete? {
      var done := call.(phase := Settled(Committed(None, Remove)), bodies := call.bodies + 1);
      NothingRefreshes(trigger, s.now);
      SteadyUpdate(s, i, done, s.creds - {call.provider}, p, trigger);
    } else if call.body.Refresh? && !Refreshes(current, call.body.trigger, s.now) {
      SteadyQuiet(s, i, call.(phase := Settled(Committed(current, Keep)), bodies := call.bodies + 1), p, trigger);
    } else {
      SteadyQuiet(s, i, call.(phase := Running(current), bodies := call.bodies + 1), p, trigger);
    }
  }

  lemma NothingRefreshes(trigger: Float, now: Float)
    ensures !Refreshes(None, trigger, now)
  {
  }

  lemma SteadyReturn(s: State, i: nat, reply: Reply, p: string, trigger: Float)
    requires Inv(s) && Enabled(s, Return(i, reply)) && Steady(s, p, trigger)
    requires SteadyStep(s, Return(i, reply), p, trigger)
    ensures Steady(Commit(s, i, reply), p, trigger)
  {
    hide Inv, Refreshes, Steady;
    RunningHoldsStored(s, i);
    SteadyAt(s, i, p, trigger);
    var call := s.calls[i];
    if reply.Throw? {
      SteadyQuiet(s, i, call.(phase := Settled(Raised)), p, trigger);
    } else if IsAborted(s, call.signal) {
      SteadyQuiet(s, i, call.(phase := Settled(Cancelled)), p, trigger);
    } else if reply.c.None? {
      SteadyQuiet(s, i, call.(phase := Settled(Committed(call.phase.current, Keep))), p, trigger);
    } else {
      var c := reply.c.value;
      var done := call.(phase := Settled(Committed(Some(c), Put(c))));
      var creds := s.creds[call.provider := c];
      SteadyUpdate(s, i, done, creds, p, trigger);
      SteadySame(s.(calls := s.calls[i := done], creds := creds), Commit(s, i, reply), p, trigger);
    }
  }

  lemma SteadyWake(s: State, i: nat, p: string, trigger: Float)
    requires Enabled(s, Wake(i)) && Steady(s, p, trigger)
    ensures Steady(Notice(s, i), p, trigger)
  {
    hide Refreshes, Steady;
    var call := s.calls[i];
    if call.phase.Settled? {
      SteadyQuiet(s, i, call.(caller := Told(call.phase.outcome)), p, trigger);
    } else if IsAborted(s, call.signal) {
      SteadyQuiet(s, i, call.(caller := Gone), p, trigger);
    }
  }

  // The stored value, the clock and the calls are what steadiness depends on.
  lemma SteadySame(s: State, t: State, p: string, trigger: Float)
    requires Steady(s, p, trigger) && t.calls == s.calls && t.creds == s.creds && t.now == s.now
    ensures Steady(t, p, trigger)
  {
    hide ExpiresSoon;
    forall k | 0 <= k < |t.calls| ensures SteadyCall(t, t.calls[k], p, trigger) {
      assert SteadyCall(s, s.calls[k], p, trigger);
    }
  }

  lemma SteadyKeeps(s: State, a: Action, p: string, trigger: Float)
    requires Inv(s) && Enabled(s, a) && Steady(s, p, trigger) && SteadyStep(s, a, p, trigger)
    ensures Steady(Apply(s, a), p, trigger)
  {
    hide Inv, Steady, Enqueue, Begin, Commit, Notice, Ready, Refreshes;
    match a
    case Invoke(q, body, signal) => SteadyInvoke(s, q, body, signal, p, trigger);
    case Start(i) => SteadyStart(s, i, p, trigger);
    case Return(i, reply) => SteadyReturn(s, i, reply, p, trigger);
    case Wake(i) => SteadyWake(s, i, p, trigger);
    case Finish(i) => SteadyFinish(s, i, p, trigger);
    case Prune(i) => SteadySame(s, Apply(s, a), p, trigger);
    case Abort(_) => SteadySame(s, Apply(s, a), p, trigger);
  }

  lemma SteadyFinish(s: State, i: nat, p: string, trigger: Float)
    requires Enabled(s, Finish(i)) && Steady(s, p, trigger)
    ensures Steady(Apply(s, Finish(i)), p, trigger)
  {
    hide Refreshes, Steady;
    SteadyQuiet(s, i, s.calls[i].(finished := true), p, trigger);
  }

  lemma {:induction false} SteadyRunKeeps(s: State, acts: seq<Action>, p: string, trigger: Float)
    requires Inv(s) && Runs(s, acts) && Steady(s, p, trigger) && SteadyRun(s, acts, p, trigger)
    ensures Steady(After(s, acts), p, trigger)
    decreases |acts|
  {
    hide Inv, Apply, Enabled, Steady, SteadyStep;
    if acts != [] {
      SteadyKeeps(s, acts[0], p, trigger);
      StepKeeps(s, acts[0]);
      SteadyRunKeeps(Apply(s, acts[0]), acts[1..], p, trigger);
    }
  }

  /** With one threshold, a still clock and refreshes that return unexpired credentials, any number of
      interleaved callers commit at most one refresh. */
  lemma AtMostOneRefresh(stored: map<string, Credential>, now: Float, acts: seq<Action>, p: string, trigger: Float)
    requires Runs(Initial(stored, now), acts) && SteadyRun(Initial(stored, now), acts, p, trigger)
    ensures var s := After(Initial(stored, now), acts);
      forall i, j :: 0 <= i < j < |s.calls| ==> !(Refreshed(s.calls[i], p) && Refreshed(s.calls[j], p))
  {
    hide Inv, Apply, Refreshed;
    InitialInv(stored, now);
    assert Steady(Initial(stored, now), p, trigger);
    SteadyRunKeeps(Initial(stored, now), acts, p, trigger);
  }

  // ---------------------------------------------------------------------------------------------
  // The store object, one method per stretch of code between two waits
  // ---------------------------------------------------------------------------------------------

  class InMemoryStore {
    var credentials: map<string, Credential>
    var chains: map<string, nat>
    var tasks: seq<Call>
    var aborted: set<nat>
    var clock: Float
    ghost var init: map<string, Credential>
    ghost var replaced: set<(string, Credential)>

    ghost function View(): State
      reads this
    {
      State(credentials, chains, tasks, aborted, clock, init, replaced)
    }

    ghost predicate Valid()
      reads this
    {
      Inv(View())
    }

    constructor (now: Float)
      ensures Valid() && View() == Initial(map[], now)
    {
      credentials, chains, tasks, aborted, clock := map[], map[], [], {}, now;
      init, replaced := map[], {};
      InitialInv(map[], now);
    }

    method Read(p: string, signal: Option<nat>) returns (r: Option<Option<Credential>>)
      ensures r == if IsAborted(View(), signal) then None else Some(Lookup(View().creds, p))
    {
      if signal.Some? && signal.value in aborted { return None; }
      r := Some(if p in credentials then Some(credentials[p]) else None);
    }

    /** Queue a modification or a removal and begin to wait for it. */
    method Submit(p: string, body: Body, signal: Option<nat>) returns (id: nat)
      requires Valid()
      modifies this
      ensures Valid() && View() == Apply(old(View()), Invoke(p, body, signal)) && id == |old(tasks)|
    {
      hide Inv;
      InvokeKeeps(View(), p, body, signal);
      id := |tasks|;
      var previous := if p in chains then Some(chains[p]) else None;
      var gone := signal.Some? && signal.value in aborted;
      tasks := tasks + [Call(p, body, signal, previous, Queued, false, if gone then Gone else Waiting, 0)];
      chains := chains[p := id];
    }

    /** The queued task's turn. */
    method RunQueued(i: nat)
      requires Valid() && Enabled(View(), Start(i))
      modifies this
      ensures Valid() && View() == Apply(old(View()), Start(i))
    {
      hide Inv, ExpiresSoon;
      StartKeeps(View(), i);
      var task := tasks[i];
      var current := if task.provider in credentials then Some(credentials[task.provider]) else None;
      if task.signal.Some? && task.signal.value in aborted {
        tasks := tasks[i := task.(phase := Settled(Cancelled))];
        return;
      }
      task := task.(bodies := task.bodies + 1);
      if task.body.Delete? {
        credentials := credentials - {task.provider};
        task := task.(phase := Settled(Committed(None, Remove)));
      } else if task.body.Refresh? && !Refreshes(current, task.body.trigger, clock) {
        task := task.(phase := Settled(Committed(current, Keep)));
      } else {
        task := task.(phase := Running(current));
      }
      tasks := tasks[i := task];
    }

    /** The callback resolved or failed: the second checkpoint, then the commit. */
    method CallbackReturned(i: nat, reply: Reply)
      requires Valid() && Enabled(View(), Return(i, reply))
      modifies this
      ensures Valid() && View() == Apply(old(View()), Return(i, reply))
    {
      hide Inv;
      ReturnKeeps(View(), i, reply);
      var task := tasks[i];
      var current := task.phase.current;
      if reply.Throw? {
        tasks := tasks[i := task.(phase := Settled(Raised))];
      } else if task.signal.Some? && task.signal.value in aborted {
        tasks := tasks[i := task.(phase := Settled(Cancelled))];
      } else if reply.c.None? {
        tasks := tasks[i := task.(phase := Settled(Committed(current, Keep)))];
      } else {
        var next := reply.c.value;
        credentials := credentials[task.provider := next];
        tasks := tasks[i := task.(phase := Settled(Committed(Some(next), Put(next))))];
        if task.body.Refresh? && current.Some? {
          replaced := replaced + {(task.provider, current.value)};
        }
      }
    }

    /** The tail task ends; its done-callback prunes the chain entry unless a later call replaced it. */
    method TailFinished(i: nat)
      requires Valid() && Enabled(View(), Finish(i))
      modifies this
      ensures Valid() && View() == Apply(old(View()), Finish(i))
    {
      hide Inv;
      FinishKeeps(View(), i);
      tasks := tasks[i := tasks[i].(finished := true)];
    }

    method PruneChain(i: nat)
      requires Valid() && Enabled(View(), Prune(i))
      modifies this
      ensures Valid() && View() == Apply(old(View()), Prune(i))
    {
      hide Inv;
      PruneKeeps(View(), i);
      var p := tasks[i].provider;
      if p in chains && chains[p] == i {
        chains := chains - {p};
      }
    }

    /** One return of the caller's bounded wait. */
    method PollCaller(i: nat) returns (waiting: bool)
      requires Valid() && Enabled(View(), Wake(i))
      modifies this
      ensures Valid() && View() == Apply(old(View()), Wake(i)) && waiting == View().calls[i].caller.Waiting?
    {
      hide Inv;
      WakeKeeps(View(), i);
      var task := tasks[i];
      waiting := true;
      if task.phase.Settled? {
        tasks, waiting := tasks[i := task.(caller := Told(task.phase.outcome))], false;
      } else if task.signal.Some? && task.signal.value in aborted {
        tasks, waiting := tasks[i := task.(caller := Gone)], false;
      }
    }
  }
}
