/** The two dispatch paths onto a surface: automation's and the operator's. */
module Gateway {
  import opened Contracts

  datatype Effect = Allow | Deny | RequireApproval

  datatype PolicyReason =
    | AllowedByRule | UnknownApplication | ActionNotAllowed | TargetNotAllowed
    | DestinationNotAllowed | ApprovalNeeded | MalformedAction | NoMatchingRule

  datatype Decision = Decision(effect: Effect, reason: PolicyReason)

  /** What a policy decides for a kind of action on a target. */
  type Rules = (ActionKind, Target) -> Decision

  datatype SurfaceOutcome = Applied | TargetNotFound | TargetAmbiguous | TargetNotActionable | SurfaceTimeout

  datatype Performed = Answer(outcome: SurfaceOutcome) | Raised

  datatype GatewayOutcome = Executed | Denied | ApprovalRequired | Failed

  datatype GatewayReason =
    | TargetBindingNotFound | OutsideScope | Policy(why: PolicyReason) | EvidencePreActionFailed
    | Control(error: ControlError) | SurfaceAdapterError | Surface(outcome: SurfaceOutcome)
    | ActionEffectOccurredEvidenceFailed | PostActionEvidenceFailed

  datatype Evidence =
    | PolicyEvidence(kind: ActionKind, target: Target, decision: Decision)
    | ActionEvidence(kind: ActionKind, target: Target, outcome: GatewayOutcome, reason: GatewayReason)

  /**
   * Everything outside the engines, as answers of a world of type W. Nothing is assumed of the answers,
   * so they may change between calls and fail at any moment.
   */
  datatype Ports<!W> = Ports(
    inspect: (W, Target) -> (Inspection, W),
    inScope: (W, Action, Target) -> (bool, W),            // always true where no browser scope is configured
    policy: Rules,
    admit: (W, nat) -> (Option<ControlError>, W),         // entering the dispatch region
    perform: (W, Action, Target) -> (Performed, W),
    leave: W -> W,                                        // leaving the dispatch region
    record: (W, Evidence) -> (bool, W))

  /** What a gateway call did, in order. Records that failed leave no event. */
  datatype GatewayEvent =
    | PolicyRecorded(decision: Decision)
    | Admitted(generation: nat)
    | SurfaceCalled(action: Action, target: Target, result: Performed)
    | Left
    | ActionRecorded(outcome: GatewayOutcome)

  datatype GatewayRun<W> = GatewayRun(
    outcome: GatewayOutcome, reason: GatewayReason, world: W, events: seq<GatewayEvent>)

  function RecordBefore<W>(
    ports: Ports<W>, action: Action, target: Target, outcome: GatewayOutcome, reason: GatewayReason,
    w: W, events: seq<GatewayEvent>): GatewayRun<W>
  {
    var (stored, w') := ports.record(w, ActionEvidence(action.Kind(), target, outcome, reason));
    if stored then GatewayRun(outcome, reason, w', events + [ActionRecorded(outcome)])
    else GatewayRun(Failed, EvidencePreActionFailed, w', events)
  }

  function RecordAfter<W>(
    ports: Ports<W>, action: Action, target: Target, outcome: GatewayOutcome, reason: GatewayReason,
    w: W, events: seq<GatewayEvent>): GatewayRun<W>
  {
    var (stored, w') := ports.record(w, ActionEvidence(action.Kind(), target, outcome, reason));
    if stored then GatewayRun(outcome, reason, w', events + [ActionRecorded(outcome)])
    else
      var lost := if outcome == Executed then ActionEffectOccurredEvidenceFailed else PostActionEvidenceFailed;
      GatewayRun(Failed, lost, w', events)
  }

  /** Outcome and reason of an answered surface call. */
  function Judged(p: Performed): (GatewayOutcome, GatewayReason) {
    match p
    case Raised => (Failed, SurfaceAdapterError)
    case Answer(outcome) => (if outcome == Applied then Executed else Failed, Surface(outcome))
  }

  function Execute<W>(ports: Ports<W>, profile: Profile, generation: nat, action: Action, target: Target, w: W)
    : GatewayRun<W>
  {
    if target !in profile.bindings then RecordBefore(ports, action, target, Failed, TargetBindingNotFound, w, [])
    else
      var (scoped, w1) := ports.inScope(w, action, target);
      if !scoped then RecordBefore(ports, action, target, Denied, OutsideScope, w1, [])
      else
        var decision := ports.policy(action.Kind(), target);
        var (stored, w2) := ports.record(w1, PolicyEvidence(action.Kind(), target, decision));
        var decided := [PolicyRecorded(decision)];
        if !stored then GatewayRun(Failed, EvidencePreActionFailed, w2, [])
        else if decision.effect == Deny then GatewayRun(Denied, Policy(decision.reason), w2, decided)
        else if decision.effect == RequireApproval then
          GatewayRun(ApprovalRequired, Policy(decision.reason), w2, decided)
        else
          var (refusal, w3) := ports.admit(w2, generation);
          if refusal.Some? then RecordBefore(ports, action, target, Failed, Control(refusal.value), w3, decided)
          else
            var (performed, w4) := ports.perform(w3, action, target);
            var (outcome, reason) := Judged(performed);
            RecordAfter(ports, action, target, outcome, reason, ports.leave(w4),
              decided + [Admitted(generation), SurfaceCalled(action, target, performed), Left])
  }

  /** The gateway as it runs: each effect changes the world, and leaves its event, before the next is tried. */
  method Run<W>(ports: Ports<W>, profile: Profile, generation: nat, action: Action, target: Target, w: W)
    returns (r: GatewayRun<W>)
    ensures r == Execute(ports, profile, generation, action, target, w)
  {
    var events: seq<GatewayEvent> := [];
    if target !in profile.bindings {
      return RecordBefore(ports, action, target, Failed, TargetBindingNotFound, w, events);
    }
    var (scoped, w1) := ports.inScope(w, action, target);
    if !scoped {
      return RecordBefore(ports, action, target, Denied, OutsideScope, w1, events);
    }
    var decision := ports.policy(action.Kind(), target);
    var (stored, w2) := ports.record(w1, PolicyEvidence(action.Kind(), target, decision));
    if !stored {
      return GatewayRun(Failed, EvidencePreActionFailed, w2, events);
    }
    events := events + [PolicyRecorded(decision)];
    if decision.effect == Deny {
      return GatewayRun(Denied, Policy(decision.reason), w2, events);
    }
    if decision.effect == RequireApproval {
      return GatewayRun(ApprovalRequired, Policy(decision.reason), w2, events);
    }
    var (refusal, w3) := ports.admit(w2, generation);
    if refusal.Some? {
      return RecordBefore(ports, action, target, Failed, Control(refusal.value), w3, events);
    }
    events := events + [Admitted(generation)];
    var (performed, w4) := ports.perform(w3, action, target);
    events := events + [SurfaceCalled(action, target, performed)];
    var w5 := ports.leave(w4);
    events := events + [Left];
    match performed
    case Raised =>
      return RecordAfter(ports, action, target, Failed, SurfaceAdapterError, w5, events);
    case Answer(outcome) =>
      if outcome == Applied {
        return RecordAfter(ports, action, target, Executed, Surface(outcome), w5, events);
      }
      return RecordAfter(ports, action, target, Failed, Surface(outcome), w5, events);
  }

  // ---- The operator's path ----------------------------------------------------------

  /** One recorder for every result: it cannot tell whether the surface was reached. */
  function RecordResult<W>(
    ports: Ports<W>, action: Action, target: Target, outcome: GatewayOutcome, reason: GatewayReason,
    w: W, events: seq<GatewayEvent>): GatewayRun<W>
  {
    RecordAfter(ports, action, target, outcome, reason, w, events)
  }

  /** `ports.admit` is here the entry of the operator's dispatch region. */
  function ExecuteOperator<W>(
    ports: Ports<W>, profile: Profile, generation: nat, action: Action, target: Target, w: W): GatewayRun<W>
  {
    if target !in profile.bindings then RecordResult(ports, action, target, Failed, TargetBindingNotFound, w, [])
    else
      var decision := ports.policy(action.Kind(), target);
      var (stored, w1) := ports.record(w, PolicyEvidence(action.Kind(), target, decision));
      var decided := [PolicyRecorded(decision)];
      if !stored then GatewayRun(Failed, EvidencePreActionFailed, w1, [])
      else if decision.effect == Deny then
        RecordResult(ports, action, target, Denied, Policy(decision.reason), w1, decided)
      else if decision.effect == RequireApproval then
        RecordResult(ports, action, target, ApprovalRequired, Policy(decision.reason), w1, decided)
      else
        var (refusal, w2) := ports.admit(w1, generation);
        if refusal.Some? then RecordResult(ports, action, target, Failed, Control(refusal.value), w2, decided)
        else
          var (performed, w3) := ports.perform(w2, action, target);
          var (outcome, reason) := Judged(performed);
          RecordResult(ports, action, target, outcome, reason, ports.leave(w3),
            decided + [Admitted(generation), SurfaceCalled(action, target, performed), Left])
  }

  // ---- What an answer tells about the surface ------------------------------------------

  predicate SurfaceTouched(events: seq<GatewayEvent>) {
    exists i | 0 <= i < |events| :: events[i].SurfaceCalled?
  }

  /** The reasons automation's gateway gives only after the surface was called. */
  predicate AfterSurface(reason: GatewayReason) {
    reason.Surface? || reason.SurfaceAdapterError?
    || reason.ActionEffectOccurredEvidenceFailed? || reason.PostActionEvidenceFailed?
  }

  /** A surface call comes right after its admission, which comes after a recorded permission, and is left at once. */
  predicate Guarded(events: seq<GatewayEvent>, generation: nat, action: Action, target: Target) {
    forall i :: 0 <= i < |events| && events[i].SurfaceCalled? ==>
      && i == 2 && events[0].PolicyRecorded? && events[0].decision.effect == Allow
      && events[1] == Admitted(generation)
      && events[2].action == action && events[2].target == target
      && |events| >= 4 && events[3] == Left
  }

  /** Automation's gateway is truthful: its reason tells exactly whether the surface was called. */
  lemma ReasonTellsSurfaceCall<W>(
    ports: Ports<W>, profile: Profile, generation: nat, action: Action, target: Target, w: W)
    ensures var r := Execute(ports, profile, generation, action, target, w);
      && (SurfaceTouched(r.events) <==> AfterSurface(r.reason))
      && Guarded(r.events, generation, action, target)
      && (r.outcome == Denied || r.outcome == ApprovalRequired || r.reason == EvidencePreActionFailed
          ==> !SurfaceTouched(r.events))
      && (r.outcome == Executed <==>
            |r.events| == 5 && r.events[2] == SurfaceCalled(action, target, Answer(Applied))
            && r.events[4] == ActionRecorded(Executed))
      && (r.reason == ActionEffectOccurredEvidenceFailed ==>
            r.outcome == Failed && |r.events| == 4 && r.events[2] == SurfaceCalled(action, target, Answer(Applied)))
      && (r.reason == TargetBindingNotFound ==> target !in profile.bindings)
  {
    var r := Execute(ports, profile, generation, action, target, w);
    if |r.events| >= 4 {
      assert r.events[2].SurfaceCalled?;
    }
  }

  /** Whether the operator's dispatch ends before the surface is called, seen from the ports. */
  predicate StopsBeforeSurface<W>(
    ports: Ports<W>, profile: Profile, generation: nat, action: Action, target: Target, w: W)
  {
    || target !in profile.bindings
    || var decision := ports.policy(action.Kind(), target);
       var (stored, w1) := ports.record(w, PolicyEvidence(action.Kind(), target, decision));
       !stored || decision.effect != Allow || ports.admit(w1, generation).0.Some?
  }

  /**
   * The operator's gateway is not as truthful: it may report lost post-action evidence for a dispatch that
   * never reached the surface. Which dispatches reach it is told by the ports alone.
   */
  lemma OperatorReasonTellsLess<W>(
    ports: Ports<W>, profile: Profile, generation: nat, action: Action, target: Target, w: W)
    ensures var r := ExecuteOperator(ports, profile, generation, action, target, w);
      && Guarded(r.events, generation, action, target)
      && (SurfaceTouched(r.events) <==> !StopsBeforeSurface(ports, profile, generation, action, target, w))
      && (r.reason.Surface? || r.reason.SurfaceAdapterError? || r.reason.ActionEffectOccurredEvidenceFailed?
          ==> SurfaceTouched(r.events))
      && (SurfaceTouched(r.events) ==> AfterSurface(r.reason))
      && (r.outcome == Denied || r.outcome == ApprovalRequired ==> !SurfaceTouched(r.events))
  {
    var r := ExecuteOperator(ports, profile, generation, action, target, w);
    if |r.events| >= 4 {
      assert r.events[2].SurfaceCalled?;
    }
  }

  /**
   * The result that an operator's dispatch stopped before the surface tries to record, and the world it is tried in;
   * None when the decision could not be recorded, or when the surface is called.
   */
  function ResultBeforeSurface<W>(
    ports: Ports<W>, profile: Profile, generation: nat, action: Action, target: Target, w: W): Option<(Evidence, W)>
  {
    if target !in profile.bindings then
      Some((ActionEvidence(action.Kind(), target, Failed, TargetBindingNotFound), w))
    else
      var decision := ports.policy(action.Kind(), target);
      var (stored, w1) := ports.record(w, PolicyEvidence(action.Kind(), target, decision));
      if !stored then None
      else if decision.effect == Deny then
        Some((ActionEvidence(action.Kind(), target, Denied, Policy(decision.reason)), w1))
      else if decision.effect == RequireApproval then
        Some((ActionEvidence(action.Kind(), target, ApprovalRequired, Policy(decision.reason)), w1))
      else
        var (refusal, w2) := ports.admit(w1, generation);
        if refusal.None? then None
        else Some((ActionEvidence(action.Kind(), target, Failed, Control(refusal.value)), w2))
  }

  /**
   * Exactly when the operator's gateway blames the surface without having called it: it stopped before, and the
   * record of that result failed.
   */
  lemma OperatorBlamesExactly<W>(
    ports: Ports<W>, profile: Profile, generation: nat, action: Action, target: Target, w: W)
    ensures var r := ExecuteOperator(ports, profile, generation, action, target, w);
      var result := ResultBeforeSurface(ports, profile, generation, action, target, w);
      && (AfterSurface(r.reason) && !SurfaceTouched(r.events) <==>
            result.Some? && !ports.record(result.value.1, result.value.0).0)
      && (result.Some? ==> StopsBeforeSurface(ports, profile, generation, action, target, w))
      && (AfterSurface(r.reason) && !SurfaceTouched(r.events) ==> r.reason == PostActionEvidenceFailed)
  {
    OperatorReasonTellsLess(ports, profile, generation, action, target, w);
    var result := ResultBeforeSurface(ports, profile, generation, action, target, w);
    if result.Some? {
      StoppedIsRecorded(ports, profile, generation, action, target, w);
    }
  }

  /** A dispatch with such a result ends in trying to record it. */
  lemma StoppedIsRecorded<W>(
    ports: Ports<W>, profile: Profile, generation: nat, action: Action, target: Target, w: W)
    requires ResultBeforeSurface(ports, profile, generation, action, target, w).Some?
    ensures var (e, at) := ResultBeforeSurface(ports, profile, generation, action, target, w).value;
      var events := if target in profile.bindings then [PolicyRecorded(ports.policy(action.Kind(), target))] else [];
      && StopsBeforeSurface(ports, profile, generation, action, target, w)
      && e == ActionEvidence(action.Kind(), target, e.outcome, e.reason) && e.outcome != Executed && !AfterSurface(e.reason)
      && ExecuteOperator(ports, profile, generation, action, target, w)
           == RecordAfter(ports, action, target, e.outcome, e.reason, at, events)
  {
    if target in profile.bindings {
      var decision := ports.policy(action.Kind(), target);
      var (stored, w1) := ports.record(w, PolicyEvidence(action.Kind(), target, decision));
      assert stored;
      if decision.effect == Allow {
        var (refusal, w2) := ports.admit(w1, generation);
        assert refusal.Some?;
      }
      assert StopsBeforeSurface(ports, profile, generation, action, target, w);
    }
  }

  /** A world of one bit, the health of the evidence store, with nothing else able to fail. */
  function PlainPorts(effect: Effect): Ports<bool> {
    Ports(
      (w, t) => (SeenUnavailable, w),
      (w, a, t) => (true, w),
      (k, t) => Decision(effect, AllowedByRule),
      (w, g) => (None, w),
      (w, a, t) => (Answer(Applied), w),
      w => w,
      (w, e) => (w, w))
  }

  /** The input that shows it: an unbound target while the evidence store is down. */
  lemma OperatorBlamesSurface()
    ensures var r := ExecuteOperator(PlainPorts(Allow), Profile("bank", []), 0, Click, "login.submit", false);
      r.reason == PostActionEvidenceFailed && !SurfaceTouched(r.events)
    ensures var r := Execute(PlainPorts(Allow), Profile("bank", []), 0, Click, "login.submit", false);
      r.reason == EvidencePreActionFailed
  {
  }
}
