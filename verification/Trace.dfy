/** The runtime's trace, and the language its words belong to. */
module Trace {
  datatype Reason = FinalAnswer | MaxStepsReached | ProviderFailed | NonRetryableError

  /** Event types; a failed tool is told apart by its payload: retries used up, or an error raised. */
  datatype Kind =
    | RunStarted
    | SkillActivated
    | RetrievalMelt
    | RetrievalSuccess
    | ModelRequested
    | LostInMiddleWarning
    | ModelProviderFailed
    | ModelResponded
    | RationaleRecorded
    | ToolCallReceived(callId: string)
    | ToolActionCreated(callId: string)
    | ToolStarted(callId: string)
    | ToolTransientError(attempt: nat)
    | ToolSucceeded(callId: string)
    | ToolExhausted(callId: string)
    | ToolRaised(callId: string)
    | ToolValidationFailed(callId: string, unknownTool: bool)
    | ObservationRecorded(callId: string, ok: bool)
    | StepCompleted(callId: string, ok: bool)
    | MaxStepsExceeded
    | StopReasonRecorded(reason: Reason)
    | RunCompleted

  datatype TraceEvent = TraceEvent(kind: Kind, step: int)

  class TraceRecorder {
    var events: seq<TraceEvent>

    constructor ()
      ensures events == []
    {
      events := [];
    }

    method Record(kind: Kind, step: int)
      modifies this
      ensures events == old(events) + [TraceEvent(kind, step)]
    {
      events := events + [TraceEvent(kind, step)];
    }
  }

  // ---------------------------------------------------------------- the language

  datatype Phase =
    | Begin
    | Opening(done: nat)
    | Requested(warned: bool)
    | Responded(explained: bool)
    | Received(callId: string)
    | Authorized(callId: string)
    | Trying(callId: string, failures: nat)
    | Observing(callId: string, ok: bool)
    | Outcome(callId: string, ok: bool, fatal: bool)
    | Between
    | Stopping(reason: Reason)
    | Answered
    | Finished(reason: Reason)
    | Rejected

  /** The automaton: a run, its turns, their calls, and inside a call at most `retries` transient errors. */
  function Delta(retries: nat, p: Phase, e: Kind): Phase {
    match p
    case Begin => if e == RunStarted then Opening(0) else Rejected
    case Opening(done) =>
      if e == SkillActivated && done == 0 then Opening(1)
      else if (e == RetrievalMelt || e == RetrievalSuccess) && done <= 1 then Opening(2)
      else BetweenTurns(e)
    case Requested(warned) =>
      if e == LostInMiddleWarning && !warned then Requested(true)
      else if e == ModelProviderFailed then Stopping(ProviderFailed)
      else if e == ModelResponded then Responded(false)
      else Rejected
    case Responded(explained) =>
      if e == RationaleRecorded && !explained then Responded(true)
      else if e.ToolCallReceived? then Received(e.callId)
      else if e == StopReasonRecorded(FinalAnswer) then Answered
      else Rejected
    case Received(id) => if e == ToolActionCreated(id) then Authorized(id) else Rejected
    case Authorized(id) => if e == ToolStarted(id) then Trying(id, 0) else Rejected
    case Trying(id, k) =>
      if e == ToolTransientError(k + 1) && k < retries then Trying(id, k + 1)
      else if e == ToolSucceeded(id) && k < retries then Observing(id, true)
      else if e == ToolExhausted(id) && k >= retries then Observing(id, false)
      else if e == ToolValidationFailed(id, true) && (k == 0 || k < retries) then Outcome(id, false, true)
      else if e == ToolValidationFailed(id, false) && k < retries then Outcome(id, false, false)
      else if e == ToolRaised(id) && k < retries then Outcome(id, false, true)
      else Rejected
    case Observing(id, ok) => if e == ObservationRecorded(id, ok) then Outcome(id, ok, !ok) else Rejected
    case Outcome(id, ok, fatal) =>
      if e == StepCompleted(id, ok) then (if fatal then Stopping(NonRetryableError) else Between) else Rejected
    case Between => if e.ToolCallReceived? then Received(e.callId) else BetweenTurns(e)
    case Stopping(reason) => if e == StopReasonRecorded(reason) then Finished(reason) else Rejected
    case Answered => if e == RunCompleted then Finished(FinalAnswer) else Rejected
    case Finished(_) => Rejected
    case Rejected => Rejected
  }

  function BetweenTurns(e: Kind): Phase {
    if e == ModelRequested then Requested(false)
    else if e == MaxStepsExceeded then Stopping(MaxStepsReached)
    else Rejected
  }

  function Scan(retries: nat, events: seq<TraceEvent>): Phase {
    if events == [] then Begin
    else Delta(retries, Scan(retries, events[..|events| - 1]), events[|events| - 1].kind)
  }

  // ---------------------------------------------------------------- readings of a trace

  function Responses(events: seq<TraceEvent>): nat {
    if events == [] then 0
    else Responses(events[..|events| - 1]) + if events[|events| - 1].kind == ModelResponded then 1 else 0
  }

  /** Each event carries the number of model responses so far. */
  ghost predicate Numbered(events: seq<TraceEvent>) {
    events == [] || (Numbered(events[..|events| - 1]) && events[|events| - 1].step == Responses(events))
  }

  /** One executed tool call: its id and whether it went well. */
  datatype CallRec = CallRec(callId: string, ok: bool)

  function CompletedCalls(events: seq<TraceEvent>): seq<CallRec> {
    if events == [] then []
    else
      var e := events[|events| - 1].kind;
      CompletedCalls(events[..|events| - 1]) + if e.StepCompleted? then [CallRec(e.callId, e.ok)] else []
  }

  lemma AfterAppend(retries: nat, events: seq<TraceEvent>, e: TraceEvent)
    ensures Scan(retries, events + [e]) == Delta(retries, Scan(retries, events), e.kind)
    ensures Responses(events + [e]) == Responses(events) + if e.kind == ModelResponded then 1 else 0
    ensures Numbered(events + [e]) <==> Numbered(events) && e.step == Responses(events + [e])
    ensures CompletedCalls(events + [e]) == CompletedCalls(events)
      + if e.kind.StepCompleted? then [CallRec(e.kind.callId, e.kind.ok)] else []
  {
    assert (events + [e])[..|events|] == events;
  }

  // ---------------------------------------------------------------- what the language implies

  function Stops(events: seq<TraceEvent>): seq<Reason> {
    if events == [] then []
    else
      var e := events[|events| - 1].kind;
      Stops(events[..|events| - 1]) + if e.StopReasonRecorded? then [e.reason] else []
  }

  lemma {:induction false} StopsOfPhase(retries: nat, events: seq<TraceEvent>)
    ensures match Scan(retries, events)
      case Rejected => true
      case Answered => Stops(events) == [FinalAnswer]
      case Finished(r) => Stops(events) == [r]
      case _ => Stops(events) == []
  {
    if events != [] {
      StopsOfPhase(retries, events[..|events| - 1]);
    }
  }

  /** A finished trace records exactly one stop reason, the one it finished with. */
  lemma OneStopReason(retries: nat, events: seq<TraceEvent>, r: Reason)
    requires Scan(retries, events) == Finished(r)
    ensures Stops(events) == [r]
  {
    StopsOfPhase(retries, events);
  }

  lemma {:induction false} StepsNeverDecrease(events: seq<TraceEvent>, i: nat, k: nat)
    requires Numbered(events) && i <= k < |events|
    ensures events[i].step <= events[k].step <= Responses(events)
    decreases |events|, k - i
  {
    var n := |events| - 1;
    if k < n {
      StepsNeverDecrease(events[..n], i, k);
    } else if i < k {
      StepsNeverDecrease(events[..n], i, n - 1);
    }
  }

  /** In a finished trace every received call was completed, in order. */
  function ReceivedCalls(events: seq<TraceEvent>): seq<string> {
    if events == [] then []
    else
      var e := events[|events| - 1].kind;
      ReceivedCalls(events[..|events| - 1]) + if e.ToolCallReceived? then [e.callId] else []
  }

  function CallIds(recs: seq<CallRec>): seq<string> { seq(|recs|, i requires 0 <= i < |recs| => recs[i].callId) }

  predicate InCall(p: Phase) { p.Received? || p.Authorized? || p.Trying? || p.Observing? || p.Outcome? }

  lemma CallIdsGrow(recs: seq<CallRec>, rec: CallRec)
    ensures CallIds(recs + [rec]) == CallIds(recs) + [rec.callId]
  {
  }

  /** The call being executed. */
  function Current(p: Phase): seq<string> { if InCall(p) then [p.callId] else [] }

  /** A step of the automaton starts a call, completes the one it is in, or leaves both lists alone. */
  lemma CallsOfStep(retries: nat, p: Phase, e: Kind)
    ensures var p' := Delta(retries, p, e);
      p' == Rejected
      || Current(p) + (if e.ToolCallReceived? then [e.callId] else [])
         == (if e.StepCompleted? then [e.callId] else []) + Current(p')
  {
  }

  lemma Regroup<T>(received: seq<T>, completed: seq<T>, now: seq<T>, start: seq<T>, end: seq<T>, after: seq<T>)
    requires received == completed + now && now + start == end + after
    ensures received + start == (completed + end) + after
  {
    assert received + start == completed + (now + start);
  }

  lemma {:induction false} CallsOfPhase(retries: nat, events: seq<TraceEvent>)
    ensures Scan(retries, events) == Rejected
         || ReceivedCalls(events) == CallIds(CompletedCalls(events)) + Current(Scan(retries, events))
  {
    if events != [] && Scan(retries, events) != Rejected {
      var n, e := |events| - 1, events[|events| - 1].kind;
      var p := Scan(retries, events[..n]);
      CallsOfPhase(retries, events[..n]);
      CallsOfStep(retries, p, e);
      if e.StepCompleted? {
        CallIdsGrow(CompletedCalls(events[..n]), CallRec(e.callId, e.ok));
      }
      Regroup(ReceivedCalls(events[..n]), CallIds(CompletedCalls(events[..n])), Current(p),
              if e.ToolCallReceived? then [e.callId] else [], if e.StepCompleted? then [e.callId] else [],
              Current(Scan(retries, events)));
    }
  }

  lemma EveryReceivedCallCompletes(retries: nat, events: seq<TraceEvent>, r: Reason)
    requires Scan(retries, events) == Finished(r)
    ensures ReceivedCalls(events) == CallIds(CompletedCalls(events))
  {
    CallsOfPhase(retries, events);
  }
}
