/** The order in which a session is handed to an operator and back, kept by the intervention manager. */
module Interventions {
  import opened Contracts
  import opened SessionControl

  datatype Request = Request(id: string, runId: string, sessionId: string, surface: string)

  /** An accepted request; `requested` is the generation at which automation was paused. */
  datatype Intervention = Intervention(request: Request, requested: nat)

  datatype Outcome =
    | InterventionRequested | WaitingForQuiescence | OperatorInControl | ResumeValidationRequired
    | AutomationResumed | ValidationFailed | HandoffStopped | StaleHandoff | InvalidState

  /** The manager's answer; `error` is the controller's reason where it refused. */
  datatype Answer = Answer(outcome: Outcome, record: Option<Intervention>, state: Option<SessionState>, error: Option<ControlError>)

  const Unknown := Answer(InvalidState, None, None, Some(InvalidStateTransition))

  function FromError(e: ControlError, record: Option<Intervention>): Answer {
    match e
    case SessionStopped => Answer(HandoffStopped, record, None, Some(e))
    case StaleGeneration => Answer(StaleHandoff, record, None, Some(e))
    case _ => Answer(InvalidState, record, None, Some(e))
  }

  /** An intervention fits the session it paused: it was made at a pause, and the session has moved on since. */
  predicate Fits(i: Intervention, s: SessionState) {
    i.request.sessionId == s.sessionId && i.requested % 3 == 1 && i.requested <= s.generation
  }

  /** What the resume validator compares before it asks the engine: the pause came after the suspension. */
  predicate Matches(runId: string, sessionId: string, surface: string, suspended: nat, i: Intervention) {
    && i.request.runId == runId && i.request.sessionId == sessionId && i.request.surface == surface
    && i.requested > suspended
  }

  class InterventionManager {
    const controller: SessionController
    var records: map<string, Intervention>

    constructor (controller: SessionController)
      requires controller.Valid()
      ensures Valid() && this.controller == controller && records == map[]
    {
      this.controller := controller;
      records := map[];
    }

    ghost predicate Valid()
      reads this, controller
    {
      && controller.Valid()
      && forall id :: id in records ==>
        && records[id].request.id == id
        && records[id].request.sessionId in controller.sessions
        && Fits(records[id], controller.sessions[records[id].request.sessionId].state)
    }

    /** The session an intervention is about. */
    ghost function Session(id: string): Record
      reads this, controller
      requires Valid() && id in records
    {
      controller.sessions[records[id].request.sessionId]
    }

    /** Only the run that owns the session may ask, and an identifier is used once. Asking again pauses nothing. */
    method RequestIntervention(q: Request) returns (r: Result<Answer, ControlError>)
      requires Valid()
      modifies this, controller
      ensures Valid()
      ensures r.Err? <==> q.sessionId !in old(controller.sessions)
      ensures r.Err? ==> r.error == SessionNotFound
      ensures r.Ok? ==>
        var s := old(controller.sessions)[q.sessionId].state;
        (r.value.outcome == InterventionRequested <==>
          s.owner == Automation(q.runId) && q.id !in old(records) && Paused(s).Ok?)
      ensures r.Ok? && r.value.outcome == InterventionRequested ==>
        var paused := Paused(old(controller.sessions)[q.sessionId].state);
        && controller.sessions == Stored(old(controller.sessions), q.sessionId, paused)
        && records == old(records)[q.id := Intervention(q, paused.value.generation)]
        && r.value == Answer(InterventionRequested, Some(records[q.id]), Some(paused.value), None)
      ensures r.Err? || r.value.outcome != InterventionRequested ==>
        records == old(records) && controller.sessions == old(controller.sessions)
      ensures r.Ok? ==> r.value.outcome in {InterventionRequested, HandoffStopped, InvalidState}
      ensures r.Ok? ==>
        var s := old(controller.sessions)[q.sessionId].state;
        (r.value.outcome == HandoffStopped <==>
          s.owner == Automation(q.runId) && q.id !in old(records) && s.control == Terminal)
    {
      var current := controller.GetSession(q.sessionId);
      if current.Err? {
        return Err(current.error);
      }
      if !current.value.owner.Automation? || current.value.owner.runId != q.runId || q.id in records {
        return Ok(Unknown);
      }
      var state := controller.RequestPause(q.sessionId);
      if state.Err? {
        return Ok(FromError(state.error, None));
      }
      var record := Intervention(q, state.value.generation);
      records := records[q.id := record];
      return Ok(Answer(InterventionRequested, Some(record), Some(state.value), None));
    }

    /** Control is granted when no dispatch holds the surface; until then the operator waits. */
    method GrantOperatorControl(id: string, operatorId: string, name: Option<string>) returns (r: Answer)
      requires Valid()
      modifies controller
      ensures Valid()
      ensures id !in records ==> r == Unknown && controller.sessions == old(controller.sessions)
      ensures id in records ==>
        var was := old(Session(id));
        var granted := Granted(was.state, was.dispatchLocked, operatorId, name);
        && controller.sessions == Stored(old(controller.sessions), records[id].request.sessionId, granted)
        && (r.outcome == OperatorInControl <==> granted.Ok?)
        && (r.outcome == WaitingForQuiescence <==> was.dispatchLocked && was.state.control != Terminal)
        && (r.outcome == HandoffStopped <==> was.state.control == Terminal)
        && (granted.Ok? ==> r.state == Some(granted.value))
        && r.record == Some(records[id]) && r.error == (if granted.Ok? then None else Some(granted.error))
        && r.outcome in {OperatorInControl, WaitingForQuiescence, HandoffStopped, InvalidState}
    {
      if id !in records {
        return Unknown;
      }
      var record := records[id];
      var state := controller.GrantHumanControl(record.request.sessionId, operatorId, name);
      if state.Err? {
        return if state.error == ActionInFlight
          then Answer(WaitingForQuiescence, Some(record), None, Some(ActionInFlight))
          else FromError(state.error, Some(record));
      }
      return Answer(OperatorInControl, Some(record), Some(state.value), None);
    }

    /** Only the operator in control hands it back, and only when no dispatch holds the surface. */
    method ReturnOperatorControl(id: string, operatorId: string) returns (r: Answer)
      requires Valid()
      modifies controller
      ensures Valid()
      ensures id !in records ==> r == Unknown && controller.sessions == old(controller.sessions)
      ensures id in records ==>
        var was := old(Session(id));
        var s := was.state;
        var mine := s.owner.Operator? && s.owner.operatorId == operatorId;
        && (r.outcome == HandoffStopped <==> s.control == Terminal)
        && (r.outcome == WaitingForQuiescence <==> s.control != Terminal && mine && was.dispatchLocked)
        && (r.outcome == ResumeValidationRequired <==> s.control != Terminal && mine && !was.dispatchLocked)
        && (r.outcome == ResumeValidationRequired ==>
              && r.state == Some(s.(control := ResumeRequested))
              && controller.sessions == Stored(old(controller.sessions), s.sessionId, Returned(s, false)))
        && (r.outcome != ResumeValidationRequired ==> controller.sessions == old(controller.sessions))
        && (s.control != Terminal && !mine ==> r.outcome == InvalidState && r.error == Some(NotOperatorOwner))
        && r.record == Some(records[id])
    {
      if id !in records {
        return Unknown;
      }
      var record := records[id];
      var current := controller.GetSession(record.request.sessionId);
      var now := current.value;
      if now.control == Terminal {
        return Answer(HandoffStopped, Some(record), Some(now), Some(SessionStopped));
      }
      if !now.owner.Operator? || now.owner.operatorId != operatorId {
        return Answer(InvalidState, Some(record), Some(now), Some(NotOperatorOwner));
      }
      var state := controller.ReturnControl(record.request.sessionId);
      if state.Err? {
        // An operator who owns a live session is refused for one reason only.
        assert state.error == ActionInFlight;
        return Answer(WaitingForQuiescence, Some(record), Some(now), Some(state.error));
      }
      return Answer(ResumeValidationRequired, Some(record), Some(state.value), None);
    }

    /** The part of completing a resume validation that comes before the validator is awaited. */
    method BeginResumeValidation(id: string) returns (early: Option<Answer>)
      requires Valid()
      ensures early.None? <==> id in records && Session(id).state.control == ResumeRequested
      ensures early.Some? && id in records ==>
        && (early.value.outcome == HandoffStopped <==> Session(id).state.control == Terminal)
        && early.value.record == Some(records[id]) && early.value.state == Some(Session(id).state)
      ensures early.Some? ==> early.value.outcome in {HandoffStopped, InvalidState}
      ensures id !in records ==> early == Some(Unknown)
    {
      if id !in records {
        return Some(Unknown);
      }
      var record := records[id];
      var current := controller.GetSession(record.request.sessionId);
      if current.value.control == Terminal {
        return Some(Answer(HandoffStopped, Some(record), Some(current.value), Some(SessionStopped)));
      }
      if current.value.control != ResumeRequested {
        return Some(Answer(InvalidState, Some(record), Some(current.value), Some(InvalidStateTransition)));
      }
      return None;
    }

    /**
     * The part after the await, with the state read before it: the session may have changed meanwhile, and an automation that already owns
     * it again is answered as resumed. The generation handed back is past the pause by two at least.
     */
    method FinishResumeValidation(id: string, seen: SessionState, valid: bool) returns (r: Answer)
      requires Valid() && id in records
      modifies controller
      ensures Valid()
      ensures !valid ==>
        r.outcome == ValidationFailed && r.state == Some(seen) && controller.sessions == old(controller.sessions)
      ensures valid ==>
        var was := old(Session(id));
        var resumed := Resumed(was.state, was.automationRunId);
        && controller.sessions == Stored(old(controller.sessions), records[id].request.sessionId, resumed)
        && (r.outcome == AutomationResumed <==> resumed.Ok?)
        && (r.outcome == HandoffStopped <==> was.state.control == Terminal)
        && (resumed.Ok? ==> r.state == Some(resumed.value))
        && (resumed.Err? && was.state.control != Terminal ==> r.outcome == InvalidState && r.error == Some(resumed.error))
      ensures r.outcome == AutomationResumed ==>
        r.state.Some? && r.state.value.generation >= records[id].requested + 2
      ensures r.record == Some(records[id])
    {
      var record := records[id];
      if !valid {
        return Answer(ValidationFailed, Some(record), Some(seen), None);
      }
      var state := controller.ResumeAutomation(record.request.sessionId);
      if state.Err? {
        return FromError(state.error, Some(record));
      }
      return Answer(AutomationResumed, Some(record), Some(state.value), None);
    }

    method StopIntervention(id: string) returns (r: Answer)
      requires Valid()
      modifies controller
      ensures Valid()
      ensures id !in records ==> r == Unknown && controller.sessions == old(controller.sessions)
      ensures id in records ==>
        && r.outcome == HandoffStopped && r.record == Some(records[id])
        && r.state == Some(Stopped(old(Session(id)).state))
        && controller.sessions == Stored(old(controller.sessions), records[id].request.sessionId,
                                         Ok(Stopped(old(Session(id)).state)))
      ensures id in records ==>
        var was, now := old(Session(id)), Session(id);
        && now.state.control == Terminal && r.state == Some(now.state)
        && now.state.generation == (if was.state.control == Terminal then was.state.generation else was.state.generation + 1)
        && now.state.owner == was.state.owner && now.dispatchLocked == was.dispatchLocked
        && forall other :: other in controller.sessions && other != records[id].request.sessionId ==>
          other in old(controller.sessions) && controller.sessions[other] == old(controller.sessions)[other]
    {
      if id !in records {
        return Unknown;
      }
      var record := records[id];
      var state := controller.StopSession(record.request.sessionId);
      return Answer(HandoffStopped, Some(record), Some(state.value), None);
    }
  }
}
