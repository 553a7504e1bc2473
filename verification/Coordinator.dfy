/** Suspending a replay that needs approval, and resuming it once. */
module Coordinator {
  import opened Contracts
  import opened Evaluator
  import opened Replay
  import opened Registry
  import opened SessionControl
  import opened ReplayProofs
  import G = Gateway
  import I = Interventions

  const ApprovalReason := ByGateway(G.Policy(G.ApprovalNeeded))

  /** What the engine hands out: a result under the identifier of its run. */
  datatype Reported = Reported(runId: string, result: ReplayResult)

  function Report<W>(ctx: Context, r: Run<W>): Reported { Reported(ctx.runId, r.result) }

  /** The checkpoint of a reported result that may be suspended in this context, or None. */
  function Accepted(report: Reported, d: Definition, ctx: Context): Option<Checkpoint> {
    var result := report.result;
    if result.Stopped? && report.runId == ctx.runId && result.reason == ApprovalReason && result.checkpoint.Some?
       && result.checkpoint.value.suspendedGeneration == ctx.generation && CheckpointFits(d, result.checkpoint.value)
    then result.checkpoint else None
  }

  // ---- What may be suspended ---------------------------------------------------------------

  /** The policy gives one reason only for asking an approval. */
  ghost predicate OneApprovalReason<W(!new)>(e: Engine<W>) {
    forall w: W, a, t :: e.act(w, a, t).outcome == G.ApprovalRequired ==> e.act(w, a, t).reason == G.Policy(G.ApprovalNeeded)
  }

  lemma StepSuspendsForApproval<W(!new)>(e: Engine<W>, d: Definition, inputs: Inputs, i: nat, w: W)
    requires i < |d.steps| && OneApprovalReason(e)
    ensures var s := RunStep(e, d, inputs, i, w);
      s.stop.Some? && s.stop.value.Suspension().Some? ==> s.stop.value.reason == ApprovalReason
  {
    var step, before := d.steps[i], e.look(w);
    var action := Materialize(step.action, inputs);
    if before.snapshot.Ok? && action.Some? {
      WatchShape(e, d, inputs, i, e.act(before.world, action.value, step.action.target).world);
    }
  }

  lemma RunSuspendsForApproval<W(!new)>(e: Engine<W>, d: Definition, inputs: Inputs, start: nat, w: W)
    requires OneApprovalReason(e)
    ensures var r := ExecuteFrom(e, d, inputs, start, w);
      r.result.Suspension().Some? ==> r.result.reason == ApprovalReason
  {
    var claim: Claim := (i: nat, result: ReplayResult, log: seq<Event>) =>
      result.Suspension().Some? ==> result.reason == ApprovalReason;
    forall i: nat, w: W | i < |d.steps|
      ensures StepProves(claim, i, RunStep(e, d, inputs, i, w))
    {
      StepSuspendsForApproval(e, d, inputs, i, w);
    }
    RunInduction(e, d, inputs, claim, start, w);
  }

  /**
   * The coordinator accepts exactly the results that carry a checkpoint, and such a run ended with a blocked call
   * that never reached the surface, every touched step before it having been executed: an effect that is uncertain
   * is never continued.
   */
  lemma AcceptedMeansUntouched<W(!new)>(
    ports: G.Ports<W>, d: Definition, inputs: Inputs, ctx: Context, start: nat, w: W)
    requires forall kind, t :: ports.policy(kind, t).effect == G.RequireApproval ==>
      ports.policy(kind, t).reason == G.ApprovalNeeded
    ensures var r := ExecuteFrom(EngineFor(ports, d, ctx), d, inputs, start, w);
      var c := Accepted(Report(ctx, r), d, ctx);
      && c == r.result.Suspension()
      && (c.Some? ==>
            && r.log != [] && Blocked(r.log[|r.log| - 1], c.value.blockedIndex)
            && start <= c.value.blockedIndex
            && Steps(r.log, IsTouch) == Steps(r.log, IsExecution) == Range(start, c.value.blockedIndex - start))
  {
    var e := EngineFor(ports, d, ctx);
    forall w: W, a, t
      ensures e.act(w, a, t).outcome == G.ApprovalRequired ==> e.act(w, a, t).reason == G.Policy(G.ApprovalNeeded)
    {
      ApprovalIsThePolicys(ports, ctx.profile, ctx.generation, a, t, w);
    }
    RunSuspendsForApproval(e, d, inputs, start, w);
    EngineIsTruthful(ports, d, ctx);
    SuspensionIsClean(e, d, inputs, start, w);
  }

  /**
   * What is accepted was suspended for approval by this run, at this generation, at a step of this definition; so no
   * result of another run, generation or definition is ever taken for it.
   */
  lemma AcceptedIsItsOwn(report: Reported, d: Definition, ctx: Context)
    ensures var c := Accepted(report, d, ctx);
      c.Some? <==>
        && report.runId == ctx.runId && report.result.Stopped?
        && report.result.reason == ByGateway(G.Policy(G.ApprovalNeeded)) && report.result.checkpoint.Some?
        && var point := report.result.checkpoint.value;
           && point.suspendedGeneration == ctx.generation
           && point.capabilityId == d.capabilityId && point.version == d.version
           && point.blockedIndex < |d.steps| && point.blockedStepId == d.steps[point.blockedIndex].stepId
    ensures var c := Accepted(report, d, ctx);
      c.Some? ==> c == report.result.checkpoint && c == report.result.Suspension()
  {
  }

  /** A result of one run is not accepted for another run or generation. */
  lemma OthersAreNotAccepted<W(!new)>(
    ports: G.Ports<W>, d: Definition, inputs: Inputs, ctx: Context, start: nat, w: W, other: Context)
    requires other.runId != ctx.runId || other.generation != ctx.generation
    ensures Accepted(Report(ctx, ExecuteFrom(EngineFor(ports, d, ctx), d, inputs, start, w)), d, other) == None
  {
    EngineIsTruthful(ports, d, ctx);
    SuspensionIsClean(EngineFor(ports, d, ctx), d, inputs, start, w);
  }

  lemma ApprovalIsThePolicys<W>(
    ports: G.Ports<W>, profile: Profile, generation: nat, a: Action, t: Target, w: W)
    ensures var r := G.Execute(ports, profile, generation, a, t, w);
      r.outcome == G.ApprovalRequired ==>
        var decision := ports.policy(a.Kind(), t);
        decision.effect == G.RequireApproval && r.reason == G.Policy(decision.reason)
  {
  }

  // ---- The coordinator -----------------------------------------------------------------------

  datatype Suspending =
    | UnsafeSuspension
    | AlreadyExists
    | InterventionNeeded(record: I.Intervention)
    | NotPaused(answer: I.Answer)
    | Raised(error: ControlError)

  datatype Resuming =
    | NotPending(consumed: bool)
    | NotResumed(answer: I.Answer)
    | CallEngine(pending: Pending, generation: nat)

  class ReplayContinuationCoordinator {
    const registry: ReplayContinuationRegistry
    const manager: I.InterventionManager

    constructor (registry: ReplayContinuationRegistry, manager: I.InterventionManager)
      ensures this.registry == registry && this.manager == manager
    {
      this.registry := registry;
      this.manager := manager;
    }

    ghost predicate Valid()
      reads this, registry, manager, manager.controller
    {
      registry.Valid() && manager.Valid()
    }

    /**
     * A safe suspension is registered and then the session is paused. If the session refuses, the registration is
     * taken back; if there is no such session, the error leaves it behind.
     */
    method SuspendForIntervention(id: string, report: Reported, d: Definition, inputs: Inputs, ctx: Context)
      returns (r: Suspending)
      requires Valid()
      modifies registry, manager, manager.controller
      ensures Valid()
      ensures r == UnsafeSuspension <==> Accepted(report, d, ctx) == None
      ensures r == AlreadyExists <==> Accepted(report, d, ctx).Some? && old(registry.View()).Knows(id)
      ensures r.Raised? <==>
        && Accepted(report, d, ctx).Some? && !old(registry.View()).Knows(id)
        && ctx.sessionId !in old(manager.controller.sessions)
      ensures r.InterventionNeeded? <==>
        && Accepted(report, d, ctx).Some? && !old(registry.View()).Knows(id)
        && ctx.sessionId in old(manager.controller.sessions) && id !in old(manager.records)
        && var s := old(manager.controller.sessions)[ctx.sessionId].state;
           s.owner == Automation(ctx.runId) && Paused(s).Ok?
      ensures r.InterventionNeeded? || r.Raised? ==>
        && id in registry.pending
        && registry.View() == Registered(old(registry.View()), id, registry.pending[id])
        && registry.pending[id].checkpoint == Accepted(report, d, ctx).value
        && registry.pending[id].definition == d && registry.pending[id].inputs == inputs
        && registry.pending[id].context == ctx
      ensures r.InterventionNeeded? ==>
        && id in manager.records && manager.records[id] == r.record
        && r.record.request == I.Request(id, ctx.runId, ctx.sessionId, ctx.surfaceSession)
        && manager.controller.sessions
             == Stored(old(manager.controller.sessions), ctx.sessionId,
                       Paused(old(manager.controller.sessions)[ctx.sessionId].state))
      ensures !r.InterventionNeeded? ==>
        && manager.records == old(manager.records)
        && manager.controller.sessions == old(manager.controller.sessions)
      ensures !r.InterventionNeeded? && !r.Raised? ==> registry.View() == old(registry.View())
    {
      var checkpoint := Accepted(report, d, ctx);
      if checkpoint.None? {
        return UnsafeSuspension;
      }
      var registered := registry.Register(id, d, checkpoint.value, inputs, ctx);
      if registered.None? {
        return AlreadyExists;
      }
      var answer := manager.RequestIntervention(I.Request(id, ctx.runId, ctx.sessionId, ctx.surfaceSession));
      if answer.Err? {
        return Raised(answer.error);
      }
      if answer.value.outcome != I.InterventionRequested {
        registry.Discard(id);
        return NotPaused(answer.value);
      }
      return InterventionNeeded(answer.value.record.value);
    }

    /**
     * A resumption that nobody interrupts, up to the engine's call; `valid` is what the engine answers when it is
     * asked to validate. The continuation is consumed when the engine is called, or when the session is stopped.
     */
    method Resume(id: string, valid: bool) returns (r: Resuming)
      requires Valid()
      modifies registry, manager, manager.controller
      ensures Valid() && manager.records == old(manager.records)
      ensures r.NotPending? <==> id !in old(registry.pending)
      ensures r.NotPending? ==> (r.consumed <==> id in old(registry.consumed))
      ensures r.CallEngine? <==>
        && id in old(registry.pending) && valid && id in manager.records
        && old(manager.Session(id)).state.control == ResumeRequested
        && var p := old(registry.pending)[id];
           I.Matches(p.context.runId, p.context.sessionId, p.context.surfaceSession,
                   p.checkpoint.suspendedGeneration, manager.records[id])
      ensures r.CallEngine? ==>
        && r.pending == old(registry.pending)[id]
        && registry.View() == Consumed(old(registry.View()), id)
        && r.generation == manager.Session(id).state.generation
        && manager.Session(id).state.control == AutomationControlled
        && r.generation >= manager.records[id].requested + 2
        && r.generation > r.pending.checkpoint.suspendedGeneration
      ensures !r.CallEngine? ==> manager.controller.sessions == old(manager.controller.sessions)
      ensures r.NotResumed? ==>
        (r.answer.outcome == I.HandoffStopped <==>
           id in manager.records && old(manager.Session(id)).state.control == Terminal)
      ensures r.NotResumed? ==>
        (r.answer.outcome == I.ValidationFailed <==>
           id in manager.records && old(manager.Session(id)).state.control == ResumeRequested)
      ensures !r.CallEngine? ==>
        registry.View() == if r.NotResumed? && r.answer.outcome == I.HandoffStopped
                           then Consumed(old(registry.View()), id) else old(registry.View())
    {
      var found := registry.Get(id);
      if found.None? {
        var consumed := registry.WasConsumed(id);
        return NotPending(consumed);
      }
      var p := found.value;
      var early := manager.BeginResumeValidation(id);
      if early.Some? {
        if early.value.outcome == I.HandoffStopped {
          var given := registry.Consume(id, p);
        }
        return NotResumed(early.value);
      }
      var matched := I.Matches(
        p.context.runId, p.context.sessionId, p.context.surfaceSession, p.checkpoint.suspendedGeneration,
        manager.records[id]);
      var seen := manager.controller.GetSession(manager.records[id].request.sessionId);
      var answer := manager.FinishResumeValidation(id, seen.value, matched && valid);
      if answer.outcome != I.AutomationResumed {
        return NotResumed(answer);
      }
      var claimed := registry.Consume(id, p);
      return CallEngine(p, answer.state.value.generation);
    }
  }
}
