/** The inbox of one agent instance: two queues, a wake flag, and one-shot run-entry reservations,
    with a ghost ledger that records where every envelope ever sent has gone. */
module InputQueue {
  import opened Messages

  datatype Target = NextTurn | NextStep
  datatype Policy = All | OneAtATime

  /** One queued input. The source draws `id` from a random UUID; a serial number stands for it. */
  datatype Envelope = Envelope(id: nat, message: Message)

  /** The batch one claim takes from a queue. */
  function Batch(queue: seq<Envelope>, policy: Policy): seq<Envelope> {
    if policy == All || queue == [] then queue else queue[..1]
  }

  function Rest(queue: seq<Envelope>, policy: Policy): seq<Envelope> {
    if policy == All || queue == [] then [] else queue[1..]
  }

  /** A claim takes a prefix and keeps the remainder in order; it takes nothing only from an empty queue,
      and otherwise all of it or its first envelope, by policy. */
  lemma ClaimSplits(queue: seq<Envelope>, policy: Policy)
    ensures Batch(queue, policy) + Rest(queue, policy) == queue
    ensures Batch(queue, policy) == [] <==> queue == []
    ensures policy == All ==> Batch(queue, policy) == queue
    ensures policy == OneAtATime && queue != [] ==> Batch(queue, policy) == [queue[0]]
    ensures multiset(Batch(queue, policy)) + multiset(Rest(queue, policy)) == multiset(queue)
  {
    assert Batch(queue, policy) + Rest(queue, policy) == queue;
  }

  /** Every envelope issued is queued or elsewhere, as often as it was issued. */
  ghost predicate Balanced(issued: seq<Envelope>, nextTurn: seq<Envelope>, nextStep: seq<Envelope>,
      elsewhere: multiset<Envelope>) {
    multiset(issued) == multiset(nextTurn) + multiset(nextStep) + elsewhere
  }

  lemma SendBalances(issued: seq<Envelope>, nextTurn: seq<Envelope>, nextStep: seq<Envelope>,
      elsewhere: multiset<Envelope>, e: Envelope)
    requires Balanced(issued, nextTurn, nextStep, elsewhere)
    ensures Balanced(issued + [e], nextTurn + [e], nextStep, elsewhere)
    ensures Balanced(issued + [e], nextTurn, nextStep + [e], elsewhere)
  {
    assert multiset(issued + [e]) == multiset(issued) + multiset{e};
    assert multiset(nextTurn + [e]) == multiset(nextTurn) + multiset{e};
    assert multiset(nextStep + [e]) == multiset(nextStep) + multiset{e};
  }

  /** A batch taken from a queue is consumed or reserved instead. */
  lemma TakeBalances(issued: seq<Envelope>, queue: seq<Envelope>, other: seq<Envelope>, policy: Policy,
    reserved: multiset<Envelope>, consumed: multiset<Envelope>, cleared: multiset<Envelope>)
    ensures var batch, rest := multiset(Batch(queue, policy)), Rest(queue, policy);
      && (Balanced(issued, queue, other, reserved + consumed + cleared) ==>
            && Balanced(issued, rest, other, reserved + (consumed + batch) + cleared)
            && Balanced(issued, rest, other, reserved + batch + consumed + cleared))
      && (Balanced(issued, other, queue, reserved + consumed + cleared) ==>
            && Balanced(issued, other, rest, reserved + (consumed + batch) + cleared)
            && Balanced(issued, other, rest, reserved + batch + consumed + cleared))
  {
    hide Batch, Rest;
    ClaimSplits(queue, policy);
    var batch := multiset(Batch(queue, policy));
    Rearranged(reserved, consumed, cleared, batch);
    Moved(multiset(issued), multiset(queue), multiset(other), batch, multiset(Rest(queue, policy)),
          reserved + consumed + cleared);
  }

  lemma Rearranged(a: multiset<Envelope>, b: multiset<Envelope>, c: multiset<Envelope>, m: multiset<Envelope>)
    ensures a + b + c + m == a + (b + m) + c
    ensures a + b + c + m == a + m + b + c
  {
  }

  lemma Moved(all: multiset<Envelope>, queue: multiset<Envelope>, other: multiset<Envelope>, batch: multiset<Envelope>,
    rest: multiset<Envelope>, elsewhere: multiset<Envelope>)
    requires batch + rest == queue
    ensures all == queue + other + elsewhere ==> all == rest + other + (elsewhere + batch)
    ensures all == other + queue + elsewhere ==> all == other + rest + (elsewhere + batch)
  {
  }

  class Inbox {
    var nextTurn: seq<Envelope>
    var nextStep: seq<Envelope>
    var wake: bool
    var serial: nat

    ghost var issued: seq<Envelope>
    ghost var reserved: multiset<Envelope>
    ghost var consumed: multiset<Envelope>
    ghost var cleared: multiset<Envelope>

    /** Every envelope ever sent is accounted for, once. */
    ghost predicate Valid()
      reads this
    {
      && serial == |issued|
      && (forall i :: 0 <= i < |issued| ==> issued[i].id == i)
      && Balanced(issued, nextTurn, nextStep, reserved + consumed + cleared)
    }

    function Queue(t: Target): seq<Envelope>
      reads this
    {
      if t == NextTurn then nextTurn else nextStep
    }

    /** Each envelope sent is in exactly one of a queue, an open reservation, consumed or cleared. */
    lemma ExactlyOnePlace(e: Envelope)
      requires Valid() && e in issued
      ensures multiset(nextTurn)[e] + multiset(nextStep)[e] + reserved[e] + consumed[e] + cleared[e] == 1
    {
      SentOnce(issued, e);
    }

    constructor ()
      ensures Valid() && nextTurn == [] && nextStep == [] && !wake && issued == []
      ensures reserved == multiset{} && consumed == multiset{} && cleared == multiset{}
    {
      nextTurn, nextStep, wake, serial := [], [], false, 0;
      issued := [];
      reserved, consumed, cleared := multiset{}, multiset{}, multiset{};
    }

    method TakeWake() returns (pending: bool)
      requires Valid()
      modifies this`wake
      ensures Valid() && pending == old(wake) && !wake
    {
      pending, wake := wake, false;
    }

    /** Queue a message at the back of its target; only a waking alias raises the wake flag. */
    method Send(message: Message, target: Target, wakeup: bool) returns (e: Envelope)
      requires Valid()
      modifies this`nextTurn, this`nextStep, this`wake, this`serial, this`issued
      ensures Valid() && e == Envelope(old(|issued|), message) && issued == old(issued) + [e]
      ensures nextTurn == old(nextTurn) + (if target == NextTurn then [e] else [])
      ensures nextStep == old(nextStep) + (if target == NextStep then [e] else [])
      ensures wake == (old(wake) || wakeup)
    {
      hide Balanced;
      e := Envelope(serial, message);
      SendBalances(issued, nextTurn, nextStep, reserved + consumed + cleared, e);
      if target == NextTurn {
        nextTurn := nextTurn + [e];
      } else {
        nextStep := nextStep + [e];
      }
      wake := wake || wakeup;
      serial := serial + 1;
      issued := issued + [e];
    }

    method Followup(message: Message) returns (e: Envelope)
      requires Valid()
      modifies this`nextTurn, this`nextStep, this`wake, this`serial, this`issued
      ensures Valid() && e.message == message && issued == old(issued) + [e]
      ensures nextTurn == old(nextTurn) + [e] && nextStep == old(nextStep) && wake
    {
      e := Send(message, NextTurn, true);
    }

    method Steer(message: Message) returns (e: Envelope)
      requires Valid()
      modifies this`nextTurn, this`nextStep, this`wake, this`serial, this`issued
      ensures Valid() && e.message == message && issued == old(issued) + [e]
      ensures nextTurn == old(nextTurn) && nextStep == old(nextStep) + [e] && wake
    {
      e := Send(message, NextStep, true);
    }

    method Inject(message: Message) returns (e: Envelope)
      requires Valid()
      modifies this`nextTurn, this`nextStep, this`wake, this`serial, this`issued
      ensures Valid() && e.message == message && issued == old(issued) + [e]
      ensures nextTurn == old(nextTurn) && nextStep == old(nextStep) + [e] && wake == old(wake)
    {
      e := Send(message, NextStep, false);
    }

    // Remove one batch from a queue; the caller decides which side of the ledger receives it.
    method Take(target: Target, policy: Policy) returns (batch: seq<Envelope>)
      modifies this`nextTurn, this`nextStep
      ensures batch == Batch(old(Queue(target)), policy)
      ensures Queue(target) == Rest(old(Queue(target)), policy)
      ensures target == NextTurn ==> nextStep == old(nextStep)
      ensures target == NextStep ==> nextTurn == old(nextTurn)
    {
      var queue := Queue(target);
      if queue == [] {
        return [];
      }
      var left := [];
      if policy == All {
        batch := queue;
      } else {
        batch, left := [queue[0]], queue[1..];
      }
      if target == NextTurn { nextTurn := left; } else { nextStep := left; }
    }

    /** The public removal: the batch is consumed. */
    method Claim(target: Target, policy: Policy) returns (batch: seq<Envelope>)
      requires Valid()
      modifies this`nextTurn, this`nextStep, this`consumed
      ensures Valid() && batch == Batch(old(Queue(target)), policy)
      ensures Queue(target) == Rest(old(Queue(target)), policy)
      ensures target == NextTurn ==> nextStep == old(nextStep)
      ensures target == NextStep ==> nextTurn == old(nextTurn)
      ensures consumed == old(consumed) + multiset(batch)
    {
      hide Batch, Rest, Balanced;
      TakeBalances(issued, Queue(target), if target == NextTurn then nextStep else nextTurn, policy,
                   reserved, consumed, cleared);
      batch := Take(target, policy);
      consumed := consumed + multiset(batch);
    }

    /** Claim a run-entry batch into a fresh reservation bound to exactly that batch. */
    method Reserve(target: Target, policy: Policy) returns (r: Reservation)
      requires Valid()
      modifies this`nextTurn, this`nextStep, this`reserved
      ensures Valid() && fresh(r) && r.inbox == this && r.target == target && !r.settled
      ensures r.envelopes == Batch(old(Queue(target)), policy)
      ensures Queue(target) == Rest(old(Queue(target)), policy)
      ensures target == NextTurn ==> nextStep == old(nextStep)
      ensures target == NextStep ==> nextTurn == old(nextTurn)
      ensures reserved == old(reserved) + multiset(r.envelopes)
    {
      hide Batch, Rest, Balanced;
      TakeBalances(issued, Queue(target), if target == NextTurn then nextStep else nextTurn, policy,
                   reserved, consumed, cleared);
      var batch := Take(target, policy);
      r := new Reservation(this, target, batch);
      reserved := reserved + multiset(batch);
    }

    method Clear(target: Target)
      requires Valid()
      modifies this`nextTurn, this`nextStep, this`cleared
      ensures Valid() && Queue(target) == []
      ensures target == NextTurn ==> nextStep == old(nextStep)
      ensures target == NextStep ==> nextTurn == old(nextTurn)
      ensures cleared == old(cleared) + multiset(old(Queue(target)))
    {
      cleared := cleared + multiset(Queue(target));
      if target == NextTurn { nextTurn := []; } else { nextStep := []; }
    }

    method ClearAll()
      requires Valid()
      modifies this`nextTurn, this`nextStep, this`cleared
      ensures Valid() && nextTurn == [] && nextStep == []
      ensures cleared == old(cleared) + multiset(old(nextTurn)) + multiset(old(nextStep))
    {
      Clear(NextTurn);
      Clear(NextStep);
    }

    /** Anything other parties may do to the inbox while the driver is suspended or notifying: any
        finite sequence of public operations, including reservations that are never settled. */
    method OthersAct()
      requires Valid()
      modifies this
      ensures Valid() && old(issued) <= issued
      ensures old(reserved) <= reserved && old(consumed) <= consumed && old(cleared) <= cleared
    {
      hide Valid, Batch, Rest;
      var steps: nat := *;
      while steps > 0
        invariant Valid() && old(issued) <= issued
        invariant old(reserved) <= reserved && old(consumed) <= consumed && old(cleared) <= cleared
      {
        var choice: int := *;
        var message: Message := *;
        var target := if choice % 2 == 0 then NextTurn else NextStep;
        var policy := if choice % 4 < 2 then All else OneAtATime;
        if choice % 5 == 0 {
          var _ := Send(message, target, choice % 3 == 0);
        } else if choice % 5 == 1 {
          var _ := Claim(target, policy);
        } else if choice % 5 == 2 {
          Clear(target);
        } else if choice % 5 == 3 {
          var _ := Reserve(target, policy);
        } else {
          var _ := TakeWake();
        }
        steps := steps - 1;
      }
    }
  }

  lemma {:induction false} SentOnce(issued: seq<Envelope>, e: Envelope)
    requires (forall i :: 0 <= i < |issued| ==> issued[i].id == i)
    ensures multiset(issued)[e] <= 1
    ensures e in issued ==> multiset(issued)[e] == 1
  {
    if issued != [] {
      var front, last := issued[..|issued| - 1], issued[|issued| - 1];
      assert issued == front + [last];
      SentOnce(front, e);
    }
  }

  datatype SettleResult = Settled | AlreadySettled

  /** A one-shot claim-bound reservation: exactly one of commit and rollback takes effect. */
  class Reservation {
    const inbox: Inbox
    const target: Target
    const envelopes: seq<Envelope>
    var settled: bool

    constructor (inbox: Inbox, target: Target, envelopes: seq<Envelope>)
      ensures this.inbox == inbox && this.target == target && this.envelopes == envelopes && !settled
    {
      this.inbox, this.target, this.envelopes, this.settled := inbox, target, envelopes, false;
    }

    /** The batch stays removed; it is now consumed. */
    method Commit() returns (r: SettleResult)
      requires inbox.Valid() && (!settled ==> multiset(envelopes) <= inbox.reserved)
      modifies this`settled, inbox`reserved, inbox`consumed
      ensures inbox.Valid() && settled
      ensures r == AlreadySettled <==> old(settled)
      ensures r == Settled ==> inbox.reserved == old(inbox.reserved) - multiset(envelopes)
                               && inbox.consumed == old(inbox.consumed) + multiset(envelopes)
      ensures r == AlreadySettled ==> unchanged(inbox)
    {
      if settled {
        return AlreadySettled;
      }
      settled := true;
      inbox.reserved := inbox.reserved - multiset(envelopes);
      inbox.consumed := inbox.consumed + multiset(envelopes);
      r := Settled;
    }

    /** The exact batch returns ahead of whatever is queued at the target now. */
    method Rollback() returns (r: SettleResult)
      requires inbox.Valid() && (!settled ==> multiset(envelopes) <= inbox.reserved)
      modifies this`settled, inbox`reserved, inbox`nextTurn, inbox`nextStep
      ensures inbox.Valid() && settled
      ensures r == AlreadySettled <==> old(settled)
      ensures r == Settled ==>
        && inbox.reserved == old(inbox.reserved) - multiset(envelopes)
        && inbox.Queue(target) == envelopes + old(inbox.Queue(target))
        && (target == NextTurn ==> inbox.nextStep == old(inbox.nextStep))
        && (target == NextStep ==> inbox.nextTurn == old(inbox.nextTurn))
      ensures r == AlreadySettled ==> unchanged(inbox)
    {
      if settled {
        return AlreadySettled;
      }
      settled := true;
      inbox.reserved := inbox.reserved - multiset(envelopes);
      if target == NextTurn {
        inbox.nextTurn := envelopes + inbox.nextTurn;
      } else {
        inbox.nextStep := envelopes + inbox.nextStep;
      }
      r := Settled;
    }
  }
}
