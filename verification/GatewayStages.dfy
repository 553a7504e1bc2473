/** What each answer of a gateway means, stage by stage. */
module GatewayStages {
  import opened Contracts
  import opened Gateway

  /**
   * What the world answers at each stage of a dispatch that gets that far: the scope, the record of the decision, the
   * admission and the surface, with the worlds left behind them.
   */
  datatype Course<W> = Course(
    scoped: bool, w1: W, decided: bool, w2: W, refusal: Option<ControlError>, w3: W, performed: Performed, w4: W)

  function CourseFrom<W>(ports: Ports<W>, g: nat, a: Action, t: Target, scoped: bool, w1: W): Course<W> {
    var (decided, w2) := ports.record(w1, PolicyEvidence(a.Kind(), t, ports.policy(a.Kind(), t)));
    var (refusal, w3) := ports.admit(w2, g);
    var (performed, w4) := ports.perform(w3, a, t);
    Course(scoped, w1, decided, w2, refusal, w3, performed, ports.leave(w4))
  }

  /** Automation's dispatch begins with the browser's scope. */
  function CourseOf<W>(ports: Ports<W>, g: nat, a: Action, t: Target, w: W): Course<W> {
    var (scoped, w1) := ports.inScope(w, a, t);
    CourseFrom(ports, g, a, t, scoped, w1)
  }

  /** The operator's has none. */
  function OperatorCourse<W>(ports: Ports<W>, g: nat, a: Action, t: Target, w: W): Course<W> {
    CourseFrom(ports, g, a, t, true, w)
  }

  predicate Stored<W>(ports: Ports<W>, a: Action, t: Target, outcome: GatewayOutcome, reason: GatewayReason, w: W) {
    ports.record(w, ActionEvidence(a.Kind(), t, outcome, reason)).0
  }

  /** The decision was recorded, and it is this one. */
  predicate Ruled<W>(ports: Ports<W>, profile: Profile, a: Action, t: Target, c: Course<W>, effect: Effect) {
    t in profile.bindings && c.scoped && c.decided && ports.policy(a.Kind(), t).effect == effect
  }

  predicate TurnedAway<W>(ports: Ports<W>, profile: Profile, a: Action, t: Target, c: Course<W>) {
    Ruled(ports, profile, a, t, c, Allow) && c.refusal.Some?
  }

  predicate Reaches<W>(ports: Ports<W>, profile: Profile, a: Action, t: Target, c: Course<W>) {
    Ruled(ports, profile, a, t, c, Allow) && c.refusal.None?
  }

  // ---- Automation ---------------------------------------------------------------------------

  ghost predicate OutcomesFit<W>(ports: Ports<W>, profile: Profile, a: Action, t: Target, c: Course<W>, r: GatewayRun<W>) {
    && (r.outcome == ApprovalRequired <==> Ruled(ports, profile, a, t, c, RequireApproval))
    && (r.outcome == Denied <==>
          || (t in profile.bindings && !c.scoped && Stored(ports, a, t, Denied, OutsideScope, c.w1))
          || Ruled(ports, profile, a, t, c, Deny))
    && (r.outcome == Executed <==>
          Reaches(ports, profile, a, t, c) && c.performed == Answer(Applied)
          && Stored(ports, a, t, Executed, GatewayReason.Surface(Applied), c.w4))
    && (SurfaceTouched(r.events) <==> Reaches(ports, profile, a, t, c))
    && (r.outcome == ApprovalRequired || Ruled(ports, profile, a, t, c, Deny) ==> r.world == c.w2)
    && (Reaches(ports, profile, a, t, c) ==> exists e :: r.world == ports.record(c.w4, e).1)
  }

  /** Each outcome of automation's gateway, exactly, and that only a recorded ALLOW and an admission reach the surface. */
  lemma OutcomesByStage<W>(ports: Ports<W>, profile: Profile, g: nat, a: Action, t: Target, w: W)
    ensures OutcomesFit(ports, profile, a, t, CourseOf(ports, g, a, t, w), Execute(ports, profile, g, a, t, w))
  {
    var r, c := Execute(ports, profile, g, a, t, w), CourseOf(ports, g, a, t, w);
    if Reaches(ports, profile, a, t, c) {
      assert r.events[2].SurfaceCalled?;
    }
  }

  ghost predicate ReasonsFit<W>(ports: Ports<W>, profile: Profile, a: Action, t: Target, w: W, c: Course<W>, r: GatewayRun<W>) {
    var bound, why := t in profile.bindings, ports.policy(a.Kind(), t).reason;
    && (r.reason == TargetBindingNotFound <==> !bound && Stored(ports, a, t, Failed, TargetBindingNotFound, w))
    && (r.reason == OutsideScope <==> bound && !c.scoped && Stored(ports, a, t, Denied, OutsideScope, c.w1))
    && (forall p :: r.reason == Policy(p) <==>
          p == why && (Ruled(ports, profile, a, t, c, Deny) || Ruled(ports, profile, a, t, c, RequireApproval)))
    && (forall e :: r.reason == Control(e) <==>
          TurnedAway(ports, profile, a, t, c) && c.refusal == Some(e) && Stored(ports, a, t, Failed, Control(e), c.w3))
    && (r.reason == EvidencePreActionFailed <==>
          || (!bound && !Stored(ports, a, t, Failed, TargetBindingNotFound, w))
          || (bound && !c.scoped && !Stored(ports, a, t, Denied, OutsideScope, c.w1))
          || (bound && c.scoped && !c.decided)
          || (TurnedAway(ports, profile, a, t, c) && !Stored(ports, a, t, Failed, Control(c.refusal.value), c.w3)))
    && SurfaceReasonsFit(ports, profile, a, t, c, r)
  }

  /** The reasons given once the surface was called. */
  ghost predicate SurfaceReasonsFit<W>(ports: Ports<W>, profile: Profile, a: Action, t: Target, c: Course<W>, r: GatewayRun<W>) {
    var reached := Reaches(ports, profile, a, t, c);
    && (r.reason == SurfaceAdapterError <==>
          reached && c.performed.Raised? && Stored(ports, a, t, Failed, SurfaceAdapterError, c.w4))
    && (forall o :: r.reason == GatewayReason.Surface(o) <==>
          reached && c.performed == Answer(o)
          && Stored(ports, a, t, if o == Applied then Executed else Failed, GatewayReason.Surface(o), c.w4))
    && (r.reason == ActionEffectOccurredEvidenceFailed <==>
          reached && c.performed == Answer(Applied) && !Stored(ports, a, t, Executed, GatewayReason.Surface(Applied), c.w4))
  }

  /** Each reason, exactly. */
  lemma ReasonsByStage<W>(ports: Ports<W>, profile: Profile, g: nat, a: Action, t: Target, w: W)
    ensures ReasonsFit(ports, profile, a, t, w, CourseOf(ports, g, a, t, w), Execute(ports, profile, g, a, t, w))
    ensures Execute(ports, profile, g, a, t, w).reason == PostActionEvidenceFailed <==>
      var c := CourseOf(ports, g, a, t, w);
      && Reaches(ports, profile, a, t, c) && c.performed != Answer(Applied)
      && !Stored(ports, a, t, Failed, if c.performed.Raised? then SurfaceAdapterError else GatewayReason.Surface(c.performed.outcome), c.w4)
  {
  }

  // ---- The operator ---------------------------------------------------------------------------

  ghost predicate OperatorOutcomesFit<W>(
    ports: Ports<W>, profile: Profile, a: Action, t: Target, c: Course<W>, r: GatewayRun<W>)
  {
    var why := Policy(ports.policy(a.Kind(), t).reason);
    && (r.outcome == ApprovalRequired <==>
          Ruled(ports, profile, a, t, c, RequireApproval) && Stored(ports, a, t, ApprovalRequired, why, c.w2))
    && (r.outcome == Denied <==>
          Ruled(ports, profile, a, t, c, Deny) && Stored(ports, a, t, Denied, why, c.w2))
    && (r.outcome == Executed <==>
          Reaches(ports, profile, a, t, c) && c.performed == Answer(Applied)
          && Stored(ports, a, t, Executed, GatewayReason.Surface(Applied), c.w4))
    && (r.reason == EvidencePreActionFailed <==> t in profile.bindings && !c.decided)
    && (forall e :: r.reason == Control(e) <==>
          TurnedAway(ports, profile, a, t, c) && c.refusal == Some(e) && Stored(ports, a, t, Failed, Control(e), c.w3))
    && SurfaceReasonsFit(ports, profile, a, t, c, r)
  }

  lemma OperatorOutcomesByStage<W>(ports: Ports<W>, profile: Profile, g: nat, a: Action, t: Target, w: W)
    ensures OperatorOutcomesFit(
      ports, profile, a, t, OperatorCourse(ports, g, a, t, w), ExecuteOperator(ports, profile, g, a, t, w))
  {
  }
}
