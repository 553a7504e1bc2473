/** A step that an operator completed is not done again: what a chain of resumptions never does after the proof. */
module ReplayChain {
  import opened Contracts
  import opened Evaluator
  import opened Meanings
  import opened Gateway
  import opened Replay
  import opened ReplayProofs
  import opened ReplayEnds
  import GatewayStages

  /** After two adjacent events that prove a step done, only later steps are looked at or called. */
  ghost predicate NeverAgain(proved: Proof, log: seq<Event>) {
    forall p, q, r, k: nat :: 0 <= p < q < r < |log| && q == p + 1 && proved(log[p], log[q], k) ==> log[r].step > k
  }

  /** What is proved done lies below `n`. */
  ghost predicate ProvedBelow(proved: Proof, log: seq<Event>, n: nat) {
    forall p, q, k: nat :: 0 <= p < q < |log| && q == p + 1 && proved(log[p], log[q], k) ==> k < n
  }

  /** A proof is a blocked call and the observation behind it. */
  ghost predicate ProvesBlocked(proved: Proof) {
    forall a, b, k :: proved(a, b, k) ==> Blocked(a, k) && b.Observed?
  }

  ghost predicate Suspended(proved: Proof, log: seq<Event>, c: Checkpoint) {
    ProvedBelow(proved, log, c.blockedIndex) && log != [] && Blocked(log[|log| - 1], c.blockedIndex)
  }

  /** A run behind a log that ends in an observation adds no proof, and goes on at `n` or later. */
  lemma RunAddsNoProof(proved: Proof, past: seq<Event>, n: nat, run: seq<Event>)
    requires ProvesBlocked(proved) && NeverAgain(proved, past) && ProvedBelow(proved, past, n)
    requires past != [] ==> past[|past| - 1].Observed?
    requires OnlyLastFails(run) && forall p :: 0 <= p < |run| ==> run[p].step >= n
    ensures NeverAgain(proved, past + run) && ProvedBelow(proved, past + run, n)
  {
    var log := past + run;
    forall p | |past| <= p < |log| - 1
      ensures log[p].Called? ==> log[p].outcome == Executed
    {
      assert log[p] == run[p - |past|];
    }
    forall p, q, k: nat | 0 <= p < q < |log| && q == p + 1 && proved(log[p], log[q], k)
      ensures q < |past|
    {
    }
    forall p, q, k: nat | 0 <= p < q < |log| && q == p + 1 && proved(log[p], log[q], k)
      ensures k < n
    {
      assert proved(past[p], past[q], k);
    }
    forall p, q, r, k: nat | 0 <= p < q < r < |log| && q == p + 1 && proved(log[p], log[q], k)
      ensures log[r].step > k
    {
      assert proved(past[p], past[q], k);
      if r < |past| {
        assert log[r] == past[r];
      } else {
        assert log[r] == run[r - |past|];
      }
    }
  }

  /** The fresh snapshot behind a suspension proves the blocked step done, or does not. */
  lemma LookAddsOneProof(proved: Proof, past: seq<Event>, c: Checkpoint, seen: Event, n: nat)
    requires ProvesBlocked(proved) && NeverAgain(proved, past) && Suspended(proved, past, c)
    requires seen.Observed? && seen.step == c.blockedIndex <= n
    requires proved(past[|past| - 1], seen, c.blockedIndex) ==> c.blockedIndex < n
    ensures NeverAgain(proved, past + [seen]) && ProvedBelow(proved, past + [seen], n)
  {
    var log := past + [seen];
    forall p, q, k: nat | 0 <= p < q < |log| && q == p + 1 && proved(log[p], log[q], k)
      ensures k < n && (q < |past| ==> k < c.blockedIndex)
    {
      if q < |past| {
        assert proved(past[p], past[q], k);
      } else {
        assert Blocked(past[|past| - 1], k);
      }
    }
    forall p, q, r, k: nat | 0 <= p < q < r < |log| && q == p + 1 && proved(log[p], log[q], k)
      ensures log[r].step > k
    {
      assert proved(past[p], past[q], k);
      if r < |past| {
        assert log[r] == past[r];
      }
    }
  }

  /** What a run leaves of a chain that has come to `past`. */
  ghost predicate Leaves<W>(proved: Proof, past: seq<Event>, r: Run<W>) {
    && NeverAgain(proved, past + r.log)
    && (r.result.Suspension().Some? ==> Suspended(proved, past + r.log, r.result.Suspension().value))
  }

  lemma RunLeaves<W(!new)>(
    e: Engine<W>, d: Definition, inputs: Inputs, proved: Proof, start: nat, w: W, past: seq<Event>)
    requires Truthful(e) && ProvesBlocked(proved) && NeverAgain(proved, past) && ProvedBelow(proved, past, start)
    requires past != [] ==> past[|past| - 1].Observed?
    ensures Leaves(proved, past, ExecuteFrom(e, d, inputs, start, w))
  {
    var r := ExecuteFrom(e, d, inputs, start, w);
    RunCoversAnInterval(e, d, inputs, start, w);
    SuspensionIsClean(e, d, inputs, start, w);
    RunAddsNoProof(proved, past, start, r.log);
    if r.result.Suspension().Some? {
      assert (past + r.log)[|past + r.log| - 1] == r.log[|r.log| - 1];
    }
  }

  lemma ResumeAtLeaves<W(!new)>(
    e: Engine<W>, d: Definition, inputs: Inputs, proved: Proof, c: Checkpoint, w: W, past: seq<Event>)
    requires Truthful(e) && ProvesBlocked(proved) && CheckpointFits(d, c)
    requires NeverAgain(proved, past) && Suspended(proved, past, c)
    requires forall a, b, k :: proved(a, b, k) ==> ProvedDoneAt(d, inputs, a, b, k)
    ensures Leaves(proved, past, ResumeAt(e, d, c, inputs, w))
  {
    var current := e.look(w);
    var seen := Observed(c.blockedIndex, SeenOf(current.snapshot));
    ResumeAtTells(e, d, inputs, c, w);
    if current.snapshot.Ok? && ResumePosition(d, c, current.snapshot.value, inputs).StartAt? {
      var index := StartIndex(d, inputs, proved, c, current.snapshot.value, past[|past| - 1]);
      LookAddsOneProof(proved, past, c, seen, index);
      StartLeaves(e, d, inputs, proved, index, current.world, past, seen);
    } else {
      LookAddsOneProof(proved, past, c, seen, c.blockedIndex + 1);
    }
  }

  lemma StartLeaves<W(!new)>(
    e: Engine<W>, d: Definition, inputs: Inputs, proved: Proof, index: nat, w: W, past: seq<Event>, seen: Event)
    requires Truthful(e) && ProvesBlocked(proved) && seen.Observed?
    requires NeverAgain(proved, past + [seen]) && ProvedBelow(proved, past + [seen], index)
    ensures Leaves(proved, past, After([seen], ExecuteFrom(e, d, inputs, index, w)))
  {
    var run := ExecuteFrom(e, d, inputs, index, w);
    RunLeaves(e, d, inputs, proved, index, w, past + [seen]);
    assert past + ([seen] + run.log) == (past + [seen]) + run.log;
  }

  /** A proved step is passed over. */
  lemma StartIndex(d: Definition, inputs: Inputs, proved: Proof, c: Checkpoint, s: Snapshot, last: Event) returns (index: nat)
    requires CheckpointFits(d, c) && ResumePosition(d, c, s, inputs).StartAt?
    requires forall a, b, k :: proved(a, b, k) ==> ProvedDoneAt(d, inputs, a, b, k)
    ensures index == ResumePosition(d, c, s, inputs).index >= c.blockedIndex
    ensures proved(last, Observed(c.blockedIndex, Some(s)), c.blockedIndex) ==> c.blockedIndex < index
  {
    index := ResumePosition(d, c, s, inputs).index;
  }

  lemma ResumeLeaves<W(!new)>(
    ports: Ports<W>, d: Definition, inputs: Inputs, proved: Proof, c: Checkpoint, h: Handoff<W>, past: seq<Event>)
    requires ProvesBlocked(proved) && NeverAgain(proved, past) && Suspended(proved, past, c)
    requires forall a, b, k :: proved(a, b, k) ==> ProvedDoneAt(d, inputs, a, b, k)
    ensures Leaves(proved, past, Resume(ports, d, c, inputs, h.ctx, h.world))
  {
    var r := Resume(ports, d, c, inputs, h.ctx, h.world);
    ResumeLooks(ports, d, c, inputs, h.ctx, h.world);
    if RefusedAtOnce(r) {
      assert past + r.log == past;
    } else {
      EngineIsTruthful(ports, d, h.ctx);
      ResumeAtLeaves(EngineFor(ports, d, h.ctx), d, inputs, proved, c, h.world, past);
    }
  }

  lemma {:induction false} ResumptionsLeave<W(!new)>(
    resume: (Checkpoint, Handoff<W>) -> Run<W>, proved: Proof, c: Option<Checkpoint>, handoffs: seq<Handoff<W>>,
    past: seq<Event>)
    requires forall past, c, h: Handoff<W> :: NeverAgain(proved, past) && Suspended(proved, past, c) ==>
      Leaves(proved, past, resume(c, h))
    requires NeverAgain(proved, past) && (c.Some? ==> Suspended(proved, past, c.value))
    ensures NeverAgain(proved, past + Resumptions(resume, c, handoffs))
    decreases |handoffs|
  {
    if c.None? || handoffs == [] {
      assert past + [] == past;
    } else {
      var r := resume(c.value, handoffs[0]);
      assert Leaves(proved, past, r);
      ResumptionsLeave(resume, proved, r.result.Suspension(), handoffs[1..], past + r.log);
      var later := Resumptions(resume, r.result.Suspension(), handoffs[1..]);
      assert past + (r.log + later) == (past + r.log) + later;
    }
  }

  /**
   * Over any chain: once the snapshot behind a blocked call has proved its step done, every later event belongs to a
   * later step, so automation neither looks for nor repeats what the operator did.
   */
  lemma ProvedStepsAreNeverRepeated<W(!new)>(
    ports: Ports<W>, d: Definition, inputs: Inputs, ctx: Context, w: W, handoffs: seq<Handoff<W>>)
    ensures var proved := (a, b, k: nat) => ProvedDoneAt(d, inputs, a, b, k);
      NeverAgain(proved, Chain(ports, d, inputs, ctx, w, handoffs))
  {
    var proved := (a, b, k: nat) => ProvedDoneAt(d, inputs, a, b, k);
    var resume := (c, h: Handoff<W>) => Resume(ports, d, c, inputs, h.ctx, h.world);
    forall past, c, h: Handoff<W> | NeverAgain(proved, past) && Suspended(proved, past, c)
      ensures Leaves(proved, past, resume(c, h))
    {
      ResumeLeaves(ports, d, inputs, proved, c, h, past);
    }
    var r := Start(ports, d, inputs, ctx, w);
    StartLooks(ports, d, inputs, ctx, w);
    if !RefusedAtOnce(r) {
      EngineIsTruthful(ports, d, ctx);
      RunLeaves(EngineFor(ports, d, ctx), d, inputs, proved, 0, w, []);
    }
    assert [] + r.log == r.log;
    ResumptionsLeave(resume, proved, r.result.Suspension(), handoffs, r.log);
  }

  // ---- The policy binds every chain -----------------------------------------------------------

  /** What is claimed of a call, for its action, target, outcome and gateway events. */
  type CallClaim = (Action, Target, GatewayOutcome, seq<GatewayEvent>) -> bool

  ghost predicate CallsAre(good: CallClaim, log: seq<Event>) {
    forall p :: 0 <= p < |log| && log[p].Called? ==> good(log[p].action, log[p].target, log[p].outcome, log[p].calls)
  }

  lemma StepCallsAre<W(!new)>(e: Engine<W>, d: Definition, inputs: Inputs, good: CallClaim, i: nat, w: W)
    requires i < |d.steps|
    requires forall w, a, t :: good(a, t, e.act(w, a, t).outcome, e.act(w, a, t).events)
    ensures CallsAre(good, RunStep(e, d, inputs, i, w).log)
  {
    var before, template := e.look(w), d.steps[i].action;
    MaterializeMeans(template, inputs);
    var action := Materialize(template, inputs);
    StepActsExactlyWhen(e, d, inputs, i, w, if action.Some? then action.value else Click);
    if MayAct(d, inputs, i, before.snapshot) {
      var g := e.act(before.world, action.value, template.target);
      StepTells(e, d, inputs, i, w);
      OnlyOneCall(d, inputs, e.generation, i, RunStep(e, d, inputs, i, w).log, RunStep(e, d, inputs, i, w).stop);
      assert good(action.value, template.target, g.outcome, g.events);
    }
  }

  lemma OnlyOneCall(d: Definition, inputs: Inputs, generation: nat, i: nat, log: seq<Event>, stop: Option<ReplayResult>)
    requires i < |d.steps| && StepTold(d, inputs, generation, i, log, stop)
    ensures forall p :: 0 <= p < |log| && log[p].Called? ==> p == 1
  {
    assert forall p :: 2 <= p < |log| ==> log[p] == log[2..][p - 2];
  }

  lemma RunCallsAre<W(!new)>(e: Engine<W>, d: Definition, inputs: Inputs, good: CallClaim, start: nat, w: W)
    requires forall w, a, t :: good(a, t, e.act(w, a, t).outcome, e.act(w, a, t).events)
    ensures CallsAre(good, ExecuteFrom(e, d, inputs, start, w).log)
  {
    var claim: Claim := (i: nat, result: ReplayResult, log: seq<Event>) => CallsAre(good, log);
    forall i: nat, w: W | i < |d.steps|
      ensures StepProves(claim, i, RunStep(e, d, inputs, i, w))
    {
      StepCallsAre(e, d, inputs, good, i, w);
    }
    RunInduction(e, d, inputs, claim, start, w);
  }

  lemma ResumeCallsAre<W(!new)>(
    ports: Ports<W>, d: Definition, inputs: Inputs, good: CallClaim, c: Checkpoint, h: Handoff<W>)
    requires forall w, a, t :: var e := EngineFor(ports, d, h.ctx); good(a, t, e.act(w, a, t).outcome, e.act(w, a, t).events)
    ensures CallsAre(good, Resume(ports, d, c, inputs, h.ctx, h.world).log)
  {
    var e := EngineFor(ports, d, h.ctx);
    ResumeLooks(ports, d, c, inputs, h.ctx, h.world);
    if CheckpointFits(d, c) {
      ResumeAtTells(e, d, inputs, c, h.world);
      var current := e.look(h.world);
      if current.snapshot.Ok? && ResumePosition(d, c, current.snapshot.value, inputs).StartAt? {
        RunCallsAre(e, d, inputs, good, ResumePosition(d, c, current.snapshot.value, inputs).index, current.world);
      }
    }
  }

  lemma {:induction false} ResumptionCallsAre<W(!new)>(
    resume: (Checkpoint, Handoff<W>) -> Run<W>, good: CallClaim, c: Option<Checkpoint>, handoffs: seq<Handoff<W>>)
    requires forall c, h: Handoff<W> :: CallsAre(good, resume(c, h).log)
    ensures CallsAre(good, Resumptions(resume, c, handoffs))
    decreases |handoffs|
  {
    if c.Some? && handoffs != [] {
      var r := resume(c.value, handoffs[0]);
      assert CallsAre(good, r.log);
      ResumptionCallsAre(resume, good, r.result.Suspension(), handoffs[1..]);
    }
  }

  /** What the policy allows a call: to reach the surface, to be executed, or to ask for approval. */
  predicate Bound(policy: Rules, a: Action, t: Target, outcome: GatewayOutcome, calls: seq<GatewayEvent>) {
    var effect := policy(a.Kind(), t).effect;
    && (SurfaceTouched(calls) || outcome == Executed ==> effect == Allow)
    && (outcome == ApprovalRequired ==> effect == RequireApproval)
    && (effect == Deny ==> outcome == Denied || outcome == Failed)
    && (effect == RequireApproval ==> outcome != Executed)
  }

  lemma EngineIsBound<W(!new)>(ports: Ports<W>, d: Definition, ctx: Context, good: CallClaim)
    requires forall a, t, outcome, calls :: good(a, t, outcome, calls) == Bound(ports.policy, a, t, outcome, calls)
    ensures forall w, a, t :: var e := EngineFor(ports, d, ctx); good(a, t, e.act(w, a, t).outcome, e.act(w, a, t).events)
  {
    forall w, a, t
      ensures var r := Execute(ports, ctx.profile, ctx.generation, a, t, w); Bound(ports.policy, a, t, r.outcome, r.events)
    {
      GatewayStages.OutcomesByStage(ports, ctx.profile, ctx.generation, a, t, w);
    }
  }

  /** Over any chain, no action reaches the surface, and none suspends it, but by the policy's own decision for it. */
  lemma PolicyBindsChains<W(!new)>(
    ports: Ports<W>, d: Definition, inputs: Inputs, ctx: Context, w: W, handoffs: seq<Handoff<W>>)
    ensures var log := Chain(ports, d, inputs, ctx, w, handoffs);
      forall p :: 0 <= p < |log| && log[p].Called? ==>
        Bound(ports.policy, log[p].action, log[p].target, log[p].outcome, log[p].calls)
  {
    var good: CallClaim := (a, t, outcome, calls) => Bound(ports.policy, a, t, outcome, calls);
    var resume := (c, h: Handoff<W>) => Resume(ports, d, c, inputs, h.ctx, h.world);
    forall c, h: Handoff<W>
      ensures CallsAre(good, resume(c, h).log)
    {
      EngineIsBound(ports, d, h.ctx, good);
      ResumeCallsAre(ports, d, inputs, good, c, h);
    }
    var r := Start(ports, d, inputs, ctx, w);
    StartLooks(ports, d, inputs, ctx, w);
    EngineIsBound(ports, d, ctx, good);
    RunCallsAre(EngineFor(ports, d, ctx), d, inputs, good, 0, w);
    assert CallsAre(good, r.log);
    ResumptionCallsAre(resume, good, r.result.Suspension(), handoffs);
    assert CallsAre(good, Chain(ports, d, inputs, ctx, w, handoffs));
  }
}
