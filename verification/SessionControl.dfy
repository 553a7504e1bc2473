/** The in-memory owner of a live session's control state, ownership and generation. */
module SessionControl {
  import opened Contracts

  /** One session record; `dispatchLocked` is the state of its dispatch lock. */
  datatype Record = Record(state: SessionState, automationRunId: string, dispatchLocked: bool)

  // ---- Transitions, as functions of the state read under the state lock ---------

  function Opened(sessionId: string, runId: string): SessionState {
    SessionState(sessionId, AutomationControlled, Automation(runId), 0)
  }

  function Paused(s: SessionState): Result<SessionState, ControlError> {
    match s.control
    case Terminal => Err(SessionStopped)
    case PauseRequested => Ok(s)
    case AutomationControlled => Ok(s.(control := PauseRequested, generation := s.generation + 1))
    case _ => Err(InvalidStateTransition)
  }

  function Granted(s: SessionState, locked: bool, operatorId: string, name: Option<string>)
    : Result<SessionState, ControlError>
  {
    if s.control == Terminal then Err(SessionStopped)
    else if locked then Err(ActionInFlight)
    else match s.control
      case OperatorControlled =>
        if s.owner.Operator? && s.owner.operatorId == operatorId then Ok(s) else Err(InvalidStateTransition)
      case PauseRequested =>
        Ok(s.(control := OperatorControlled, owner := Operator(operatorId, name), generation := s.generation + 1))
      case _ => Err(InvalidStateTransition)
  }

  /** Returning control keeps the generation. */
  function Returned(s: SessionState, locked: bool): Result<SessionState, ControlError> {
    if s.control == Terminal then Err(SessionStopped)
    else if locked then Err(ActionInFlight)
    else match s.control
      case ResumeRequested => Ok(s)
      case OperatorControlled => Ok(s.(control := ResumeRequested))
      case _ => Err(InvalidStateTransition)
  }

  function Resumed(s: SessionState, runId: string): Result<SessionState, ControlError> {
    match s.control
    case Terminal => Err(SessionStopped)
    case AutomationControlled => if s.owner.Automation? then Ok(s) else Err(InvalidStateTransition)
    case ResumeRequested =>
      if s.owner.Operator?
      then Ok(s.(control := AutomationControlled, owner := Automation(runId), generation := s.generation + 1))
      else Err(InvalidStateTransition)
    case _ => Err(InvalidStateTransition)
  }

  function Stopped(s: SessionState): SessionState {
    if s.control == Terminal then s else s.(control := Terminal, generation := s.generation + 1)
  }

  // ---- Admission to the two dispatch regions ------------------------------------

  datatype Client = AutomationClient | OperatorClient(operatorId: string)

  /** None when the client may dispatch, the refusal otherwise. */
  function Refusal(s: SessionState, client: Client, expected: nat): Option<ControlError> {
    if s.control == Terminal then Some(SessionStopped)
    else if s.generation != expected then Some(StaleGeneration)
    else match client
      case AutomationClient =>
        if s.control != AutomationControlled then Some(DispatchNotAllowed)
        else if !s.owner.Automation? then Some(NotAutomationOwner)
        else None
      case OperatorClient(operatorId) =>
        if s.control != OperatorControlled then Some(DispatchNotAllowed)
        else if !s.owner.Operator? || s.owner.operatorId != operatorId then Some(NotOperatorOwner)
        else None
  }

  // ---- What every reachable state keeps ------------------------------------------

  /** The generation tells, modulo three, who may own a live session. */
  predicate Consistent(s: SessionState) {
    match s.control
    case AutomationControlled => s.owner.Automation? && s.generation % 3 == 0
    case PauseRequested => s.owner.Automation? && s.generation % 3 == 1
    case OperatorControlled => s.owner.Operator? && s.generation % 3 == 2
    case ResumeRequested => s.owner.Operator? && s.generation % 3 == 2
    case Terminal => true
  }

  /** `t` may follow `s`: generations never go back, and a terminal session never changes. */
  predicate Follows(s: SessionState, t: SessionState) {
    s.generation <= t.generation && s.sessionId == t.sessionId && (s.control == Terminal ==> t == s)
  }

  /** Whether the client may dispatch at this generation: the one in control, at the current generation. */
  predicate MayDispatch(s: SessionState, client: Client, expected: nat) {
    expected == s.generation &&
    match client
    case AutomationClient => s.control == AutomationControlled
    case OperatorClient(op) => s.control == OperatorControlled && s.owner.Operator? && s.owner.operatorId == op
  }

  lemma AdmissionMeans(s: SessionState, client: Client, expected: nat)
    requires Consistent(s)
    ensures Refusal(s, client, expected).None? <==> MayDispatch(s, client, expected)
    ensures Refusal(s, client, expected) == Some(SessionStopped) <==> s.control == Terminal
    ensures Refusal(s, client, expected) == Some(StaleGeneration) <==> s.control != Terminal && expected != s.generation
  {
  }

  ghost predicate NobodyDispatches(s: SessionState) {
    forall client, g :: Refusal(s, client, g).Some?
  }

  /** Only this client dispatches, and only at this generation. */
  ghost predicate OnlyDispatches(s: SessionState, client: Client, g: nat) {
    forall c, h :: Refusal(s, c, h).None? <==> c == client && h == g
  }

  /**
   * A handoff from automation to an operator and back: it can be made whenever no dispatch is in flight, and at each
   * moment exactly the one in control dispatches, at its own generation. A stop at any moment ends all dispatching.
   */
  lemma HandoffCycle(s: SessionState, op: string, name: Option<string>)
    requires Consistent(s) && s.control == AutomationControlled
    ensures var g, paused := s.generation, Paused(s);
      && OnlyDispatches(s, AutomationClient, g)
      && paused.Ok? && NobodyDispatches(paused.value) && Paused(paused.value) == paused
      && var granted := Granted(paused.value, false, op, name);
      && granted.Ok? && OnlyDispatches(granted.value, OperatorClient(op), g + 2)
      && Granted(granted.value, false, op, name) == granted
      && (forall other :: other != op ==> Granted(granted.value, false, other, name) == Err(InvalidStateTransition))
      && var returned := Returned(granted.value, false);
      && returned.Ok? && NobodyDispatches(returned.value) && Returned(returned.value, false) == returned
      && var resumed := Resumed(returned.value, s.owner.runId);
      && resumed == Ok(s.(generation := g + 3)) && OnlyDispatches(resumed.value, AutomationClient, g + 3)
      && Granted(paused.value, true, op, name) == Err(ActionInFlight)
      && Returned(granted.value, true) == Err(ActionInFlight)
  {
  }

  /** Stopping is final: nobody dispatches any more, and every transition is refused. */
  lemma StopEndsSession(s: SessionState)
    ensures var t := Stopped(s);
      && t.control == Terminal && t.sessionId == s.sessionId && t.owner == s.owner
      && t.generation == (if s.control == Terminal then s.generation else s.generation + 1)
      && NobodyDispatches(t) && Stopped(t) == t
      && Paused(t) == Err(SessionStopped)
      && (forall locked, op, name :: Granted(t, locked, op, name) == Err(SessionStopped))
      && (forall locked :: Returned(t, locked) == Err(SessionStopped))
      && (forall runId :: Resumed(t, runId) == Err(SessionStopped))
  {
  }

  /** What is refused out of order, and how; a session that automation owns again is resumed at once. */
  lemma OutOfOrderIsRefused(s: SessionState, op: string, name: Option<string>, runId: string)
    requires Consistent(s) && s.control != Terminal
    ensures Paused(s).Ok? <==> s.control == AutomationControlled || s.control == PauseRequested
    ensures Granted(s, false, op, name).Ok? <==>
      s.control == PauseRequested || (s.control == OperatorControlled && s.owner.operatorId == op)
    ensures Returned(s, false).Ok? <==> s.control == OperatorControlled || s.control == ResumeRequested
    ensures Resumed(s, runId).Ok? <==> s.control == ResumeRequested || s.control == AutomationControlled
    ensures s.control == AutomationControlled ==> Resumed(s, runId) == Ok(s)
    ensures Paused(s).Err? ==> Paused(s).error == InvalidStateTransition
    ensures Granted(s, false, op, name).Err? ==> Granted(s, false, op, name).error == InvalidStateTransition
    ensures Returned(s, false).Err? ==> Returned(s, false).error == InvalidStateTransition
    ensures Resumed(s, runId).Err? ==> Resumed(s, runId).error == InvalidStateTransition
  {
  }

  /** Effect of a transition's answer on the stored sessions. */
  function Stored(sessions: map<string, Record>, id: string, r: Result<SessionState, ControlError>)
    : map<string, Record>
    requires id in sessions
  {
    if r.Ok? then sessions[id := sessions[id].(state := r.value)] else sessions
  }

  class SessionController {
    var sessions: map<string, Record>

    constructor ()
      ensures sessions == map[]
    {
      sessions := map[];
    }

    /** Every stored session is consistent and stored under its own id. */
    ghost predicate Valid()
      reads this
    {
      forall id :: id in sessions ==> Consistent(sessions[id].state) && sessions[id].state.sessionId == id
    }

    method OpenSession(id: string, runId: string) returns (r: Result<SessionState, ControlError>)
      requires Valid()
      modifies this
      ensures Valid()
      ensures id in old(sessions) ==> r == Err(InvalidStateTransition) && sessions == old(sessions)
      ensures id !in old(sessions) ==>
        r == Ok(Opened(id, runId)) && sessions == old(sessions)[id := Record(Opened(id, runId), runId, false)]
    {
      if id in sessions {
        return Err(InvalidStateTransition);
      }
      var state := SessionState(id, AutomationControlled, Automation(runId), 0);
      sessions := sessions[id := Record(state, runId, false)];
      return Ok(state);
    }

    method GetSession(id: string) returns (r: Result<SessionState, ControlError>)
      ensures r == if id in sessions then Ok(sessions[id].state) else Err(SessionNotFound)
    {
      if id !in sessions {
        return Err(SessionNotFound);
      }
      return Ok(sessions[id].state);
    }

    method RequestPause(id: string) returns (r: Result<SessionState, ControlError>)
      requires Valid()
      modifies this
      ensures Valid()
      ensures id !in old(sessions) ==> r == Err(SessionNotFound) && sessions == old(sessions)
      ensures id in old(sessions) ==>
        r == Paused(old(sessions)[id].state) && sessions == Stored(old(sessions), id, r)
    {
      if id !in sessions {
        return Err(SessionNotFound);
      }
      var record := sessions[id];
      if record.state.control == Terminal {
        return Err(SessionStopped);
      }
      if record.state.control == PauseRequested {
        assert sessions[id := record] == sessions;
        return Ok(record.state);
      }
      if record.state.control != AutomationControlled {
        return Err(InvalidStateTransition);
      }
      var state := record.state.(control := PauseRequested, generation := record.state.generation + 1);
      sessions := sessions[id := record.(state := state)];
      return Ok(state);
    }

    method GrantHumanControl(id: string, operatorId: string, displayName: Option<string>)
      returns (r: Result<SessionState, ControlError>)
      requires Valid()
      modifies this
      ensures Valid()
      ensures id !in old(sessions) ==> r == Err(SessionNotFound) && sessions == old(sessions)
      ensures id in old(sessions) ==>
        && r == Granted(old(sessions)[id].state, old(sessions)[id].dispatchLocked, operatorId, displayName)
        && sessions == Stored(old(sessions), id, r)
    {
      if id !in sessions {
        return Err(SessionNotFound);
      }
      var record := sessions[id];
      if record.state.control == Terminal {
        return Err(SessionStopped);
      }
      if record.dispatchLocked {
        return Err(ActionInFlight);
      }
      if record.state.control == OperatorControlled {
        if record.state.owner.Operator? && record.state.owner.operatorId == operatorId {
          assert sessions[id := record] == sessions;
          return Ok(record.state);
        }
        return Err(InvalidStateTransition);
      }
      if record.state.control != PauseRequested {
        return Err(InvalidStateTransition);
      }
      var state := record.state.(
        control := OperatorControlled, owner := Operator(operatorId, displayName),
        generation := record.state.generation + 1);
      sessions := sessions[id := record.(state := state)];
      return Ok(state);
    }

    method ReturnControl(id: string) returns (r: Result<SessionState, ControlError>)
      requires Valid()
      modifies this
      ensures Valid()
      ensures id !in old(sessions) ==> r == Err(SessionNotFound) && sessions == old(sessions)
      ensures id in old(sessions) ==>
        && r == Returned(old(sessions)[id].state, old(sessions)[id].dispatchLocked)
        && sessions == Stored(old(sessions), id, r)
    {
      if id !in sessions {
        return Err(SessionNotFound);
      }
      var record := sessions[id];
      if record.state.control == Terminal {
        return Err(SessionStopped);
      }
      if record.dispatchLocked {
        return Err(ActionInFlight);
      }
      if record.state.control == ResumeRequested {
        assert sessions[id := record] == sessions;
        return Ok(record.state);
      }
      if record.state.control != OperatorControlled {
        return Err(InvalidStateTransition);
      }
      var state := record.state.(control := ResumeRequested);
      sessions := sessions[id := record.(state := state)];
      return Ok(state);
    }

    method ResumeAutomation(id: string) returns (r: Result<SessionState, ControlError>)
      requires Valid()
      modifies this
      ensures Valid()
      ensures id !in old(sessions) ==> r == Err(SessionNotFound) && sessions == old(sessions)
      ensures id in old(sessions) ==>
        && r == Resumed(old(sessions)[id].state, old(sessions)[id].automationRunId)
        && sessions == Stored(old(sessions), id, r)
    {
      if id !in sessions {
        return Err(SessionNotFound);
      }
      var record := sessions[id];
      if record.state.control == Terminal {
        return Err(SessionStopped);
      }
      if record.state.control == AutomationControlled {
        if record.state.owner.Automation? {
          assert sessions[id := record] == sessions;
          return Ok(record.state);
        }
        return Err(InvalidStateTransition);
      }
      if record.state.control != ResumeRequested || !record.state.owner.Operator? {
        return Err(InvalidStateTransition);
      }
      var state := record.state.(
        control := AutomationControlled, owner := Automation(record.automationRunId),
        generation := record.state.generation + 1);
      sessions := sessions[id := record.(state := state)];
      return Ok(state);
    }

    method StopSession(id: string) returns (r: Result<SessionState, ControlError>)
      requires Valid()
      modifies this
      ensures Valid()
      ensures id !in old(sessions) ==> r == Err(SessionNotFound) && sessions == old(sessions)
      ensures id in old(sessions) ==>
        r == Ok(Stopped(old(sessions)[id].state)) && sessions == Stored(old(sessions), id, r)
      ensures sessions.Keys == old(sessions).Keys
      ensures id in old(sessions) ==>
        var was, now := old(sessions)[id], sessions[id];
        && r == Ok(now.state) && now.state.control == Terminal
        && now.state.generation == (if was.state.control == Terminal then was.state.generation else was.state.generation + 1)
        && now.state.owner == was.state.owner && now.state.sessionId == was.state.sessionId
        && now.automationRunId == was.automationRunId && now.dispatchLocked == was.dispatchLocked
      ensures forall other :: other in sessions && other != id ==> sessions[other] == old(sessions)[other]
    {
      if id !in sessions {
        return Err(SessionNotFound);
      }
      var record := sessions[id];
      if record.state.control == Terminal {
        assert sessions[id := record] == sessions;
        return Ok(record.state);
      }
      var state := record.state.(control := Terminal, generation := record.state.generation + 1);
      sessions := sessions[id := record.(state := state)];
      return Ok(state);
    }

    /** Take the dispatch lock if it is free; a task that finds it held waits and tries again. */
    method TryLockDispatch(id: string) returns (r: Result<bool, ControlError>)
      requires Valid()
      modifies this
      ensures Valid()
      ensures id !in old(sessions) ==> r == Err(SessionNotFound) && sessions == old(sessions)
      ensures id in old(sessions) ==>
        && r == Ok(!old(sessions)[id].dispatchLocked)
        && sessions == old(sessions)[id := old(sessions)[id].(dispatchLocked := true)]
    {
      if id !in sessions {
        return Err(SessionNotFound);
      }
      var free := !sessions[id].dispatchLocked;
      sessions := sessions[id := sessions[id].(dispatchLocked := true)];
      return Ok(free);
    }

    /** The check made under the state lock once the dispatch lock is held; a refusal frees the lock. */
    method EnterDispatch(id: string, client: Client, expected: nat) returns (refusal: Option<ControlError>)
      requires Valid() && id in sessions && sessions[id].dispatchLocked
      modifies this
      ensures Valid()
      ensures refusal == Refusal(old(sessions)[id].state, client, expected)
      ensures sessions == old(sessions)[id := old(sessions)[id].(dispatchLocked := refusal.None?)]
    {
      var state := sessions[id].state;
      refusal := None;
      if state.control == Terminal {
        refusal := Some(SessionStopped);
      } else if state.generation != expected {
        refusal := Some(StaleGeneration);
      } else if client.AutomationClient? {
        if state.control != AutomationControlled {
          refusal := Some(DispatchNotAllowed);
        } else if !state.owner.Automation? {
          refusal := Some(NotAutomationOwner);
        }
      } else if state.control != OperatorControlled {
        refusal := Some(DispatchNotAllowed);
      } else if !state.owner.Operator? || state.owner.operatorId != client.operatorId {
        refusal := Some(NotOperatorOwner);
      }
      sessions := sessions[id := sessions[id].(dispatchLocked := refusal.None?)];
    }

    method LeaveDispatch(id: string)
      requires Valid() && id in sessions && sessions[id].dispatchLocked
      modifies this
      ensures Valid()
      ensures sessions == old(sessions)[id := old(sessions)[id].(dispatchLocked := false)]
    {
      sessions := sessions[id := sessions[id].(dispatchLocked := false)];
    }
  }
}
