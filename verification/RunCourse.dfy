/** The order of one run: what it learns, one thing after the other, and what it does next. */
module RunCourse {
  import opened Options
  import opened Messages
  import opened InputQueue

  datatype Decision = Enter(messages: seq<Message>) | Reject

  function Texts(es: seq<Envelope>): seq<Message> {
    seq(|es|, i requires 0 <= i < |es| => es[i].message)
  }

  /** Where a run stands between two things it learns: what it does next, and what that depends on. */
  datatype Place =
    | Entering(messages: seq<Message>, skipPoll: bool)
    | FirstPoll
    | FirstSteering(batch: seq<Envelope>)
    | Turning
    | Stopping(hasMore: bool, terminated: bool)
    | Steering(hasMore: bool, terminated: bool)
    | AskingStep(batch: seq<Envelope>)
    | Following(terminated: bool)
    | AskingTurn(batch: seq<Envelope>)
    | Over(reason: EndReason)
    | Astray

  /** What a run learns: a pre-step decision, a finished turn, a stop decision, a claimed batch. */
  datatype Point =
    | Asked(messages: seq<Message>, decision: Decision)
    | Turned(calls: bool, verdict: bool, end: Option<EndReason>)
    | StopAsked(answer: bool)
    | Claimed(target: Target, batch: seq<Envelope>)

  /** The order of a run. A turn that made tool calls and was not told to terminate is followed by another
      question and turn unless the run is stopped; the steering queue is looked at after each turn, the
      follow-up queue once there is nothing to steer or continue with. */
  function Onward(place: Place, p: Point): Place {
    match place
    case Entering(messages, skip) =>
      if !p.Asked? || p.messages != messages then Astray
      else if p.decision.Reject? then Over(Rejected)
      else if skip then Turning
      else FirstPoll
    case FirstPoll =>
      if !p.Claimed? || p.target != NextStep then Astray
      else if p.batch == [] then Turning
      else FirstSteering(p.batch)
    case FirstSteering(batch) => Answered(batch, p)
    case Turning =>
      if !p.Turned? then Astray
      else if p.end.Some? then Over(p.end.value)
      else Stopping(p.calls && !p.verdict, p.verdict)
    case Stopping(more, terminated) =>
      if !p.StopAsked? then Astray
      else if p.answer then Over(Stopped)
      else Steering(more, terminated)
    case Steering(more, terminated) =>
      if !p.Claimed? || p.target != NextStep then Astray
      else if p.batch == [] && !more then Following(terminated)
      else AskingStep(p.batch)
    case AskingStep(batch) => Answered(batch, p)
    case Following(terminated) =>
      if !p.Claimed? || p.target != NextTurn then Astray
      else if p.batch != [] then AskingTurn(p.batch)
      else Over(if terminated then Terminated else Completed)
    case AskingTurn(batch) => Answered(batch, p)
    case Over(_) => Astray
    case Astray => Astray
  }

  // After a turn: another one, the end, or the follow-ups.
  function GoesOn(end: Option<EndReason>, more: bool, terminated: bool): Place {
    if end.Some? then Over(end.value) else if more then Turning else Following(terminated)
  }

  // A claimed batch is asked about, and either enters the next turn or ends the run.
  function Answered(batch: seq<Envelope>, p: Point): Place {
    if !p.Asked? || p.messages != Texts(batch) then Astray
    else if p.decision.Reject? then Over(Rejected)
    else Turning
  }

  // The steps, one place at a time.
  lemma FromEntering(messages: seq<Message>, skip: bool, d: Decision)
    ensures Onward(Entering(messages, skip), Asked(messages, d)) ==
      if d.Reject? then Over(Rejected) else if skip then Turning else FirstPoll
  {
  }

  lemma FromFirstPoll(batch: seq<Envelope>, d: Decision)
    ensures Onward(FirstPoll, Claimed(NextStep, batch)) == if batch == [] then Turning else FirstSteering(batch)
    ensures Onward(FirstSteering(batch), Asked(Texts(batch), d)) == if d.Reject? then Over(Rejected) else Turning
  {
  }

  lemma FromTurning(calls: bool, verdict: bool, end: Option<EndReason>)
    ensures Onward(Turning, Turned(calls, verdict, end)) ==
      if end.Some? then Over(end.value) else Stopping(calls && !verdict, verdict)
  {
  }

  lemma FromStopping(more: bool, terminated: bool, answer: bool, batch: seq<Envelope>, d: Decision)
    ensures Onward(Stopping(more, terminated), StopAsked(answer)) ==
      if answer then Over(Stopped) else Steering(more, terminated)
    ensures Onward(Steering(more, terminated), Claimed(NextStep, batch)) ==
      if batch == [] && !more then Following(terminated) else AskingStep(batch)
    ensures Onward(AskingStep(batch), Asked(Texts(batch), d)) == if d.Reject? then Over(Rejected) else Turning
  {
  }

  lemma FromFollowing(terminated: bool, batch: seq<Envelope>, d: Decision)
    ensures Onward(Following(terminated), Claimed(NextTurn, batch)) ==
      if batch != [] then AskingTurn(batch) else Over(if terminated then Terminated else Completed)
    ensures Onward(AskingTurn(batch), Asked(Texts(batch), d)) == if d.Reject? then Over(Rejected) else Turning
  {
  }
}
