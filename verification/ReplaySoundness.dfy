/** What the result of a replay proves about the surface, and which failures cannot happen. */
module ReplaySoundness {
  import opened Contracts
  import opened Evaluator
  import opened Meanings
  import opened Gateway
  import opened Validator
  import opened Replay

  // ---- Terminal results are sound ---------------------------------------------------------

  predicate IsEnd(r: ReplayResult) { r.Succeeded? || r.Business? }

  predicate LastSeen(log: seq<Event>) {
    log != [] && log[|log| - 1].Observed? && log[|log| - 1].seen.Some?
  }

  /** A success or a business outcome was decided on the last snapshot of the run. */
  predicate EndsOn(decides: (Snapshot, ReplayResult) -> bool, log: seq<Event>, r: ReplayResult) {
    IsEnd(r) ==> LastSeen(log) && decides(log[|log| - 1].seen.value, r)
  }

  predicate Decides(d: Definition, inputs: Inputs, s: Snapshot, r: ReplayResult) {
    match r
    case Succeeded(outputs, _) =>
      EvaluateTerminal(d, s, inputs) == Success && ExtractOutputs(d.outputs, s) == Ok(outputs)
    case Business(code, _) => EvaluateTerminal(d, s, inputs) == BusinessOutcome(code)
    case _ => false
  }

  lemma TerminalDecides(d: Definition, inputs: Inputs, s: Snapshot, stepId: string, attempted: nat)
    ensures var r := TerminalResult(d, s, inputs, stepId, attempted);
      r.Some? && IsEnd(r.value) ==> Decides(d, inputs, s, r.value)
  {
  }

  lemma LookDecides(d: Definition, inputs: Inputs, i: nat, s: Snapshot)
    requires i < |d.steps|
    ensures var v := Look(d, inputs, i, s);
      v.Finish? && IsEnd(v.result) ==> Decides(d, inputs, s, v.result)
  {
    TerminalDecides(d, inputs, s, d.steps[i].stepId, i + 1);
  }

  ghost predicate LooksDecide(d: Definition, inputs: Inputs, decides: (Snapshot, ReplayResult) -> bool) {
    forall s, i :: 0 <= i < |d.steps| && Look(d, inputs, i, s).Finish? && IsEnd(Look(d, inputs, i, s).result) ==>
      decides(s, Look(d, inputs, i, s).result)
  }

  lemma WatchEnds<W(!new)>(
    e: Engine<W>, d: Definition, inputs: Inputs, decides: (Snapshot, ReplayResult) -> bool, i: nat, w: W)
    requires i < |d.steps| && LooksDecide(d, inputs, decides)
    ensures var s := Watch(e, d, inputs, i, 0, w);
      s.stop.Some? ==> EndsOn(decides, s.log, s.stop.value)
  {
    var claim: WatchClaim := (k: nat, stop: Option<ReplayResult>, log: seq<Event>) =>
      stop.Some? ==> EndsOn(decides, log, stop.value);
    forall k: nat, w: W | k < MaxObservations(d.steps[i])
      ensures LookProves(claim, d, inputs, i, k, e.look(w).snapshot)
    {
      LookEnds(d, inputs, decides, i, claim, k, e.look(w).snapshot);
    }
    WatchInduction(e, d, inputs, i, claim, 0, w);
  }

  lemma LookEnds(
    d: Definition, inputs: Inputs, decides: (Snapshot, ReplayResult) -> bool, i: nat, claim: WatchClaim, attempt: nat,
    snapshot: Result<Snapshot, Reason>)
    requires i < |d.steps| && LooksDecide(d, inputs, decides)
    requires forall k, stop: Option<ReplayResult>, log ::
      claim(k, stop, log) == (stop.Some? ==> EndsOn(decides, log, stop.value))
    ensures LookProves(claim, d, inputs, i, attempt, snapshot)
  {
    var seen := [Observed(i, SeenOf(snapshot))];
    if snapshot.Ok? && Look(d, inputs, i, snapshot.value).LookAgain? {
      forall stop: Option<ReplayResult>, log | claim(attempt + 1, stop, log)
        ensures claim(attempt, stop, seen + log)
      {
        if stop.Some? {
          EndsLater(decides, seen, log, stop.value);
        }
      }
    }
  }

  lemma RunEnds<W(!new)>(
    e: Engine<W>, d: Definition, inputs: Inputs, decides: (Snapshot, ReplayResult) -> bool, start: nat, w: W)
    requires LooksDecide(d, inputs, decides)
    ensures var r := ExecuteFrom(e, d, inputs, start, w); EndsOn(decides, r.log, r.result)
  {
    var claim: Claim := (i: nat, result: ReplayResult, log: seq<Event>) => EndsOn(decides, log, result);
    forall i: nat, w: W | i < |d.steps|
      ensures StepProves(claim, i, RunStep(e, d, inputs, i, w))
    {
      StepEnds(e, d, inputs, decides, i, w);
      EndGoesOn(decides, claim, i, RunStep(e, d, inputs, i, w));
    }
    RunInduction(e, d, inputs, claim, start, w);
  }

  lemma EndGoesOn<W>(decides: (Snapshot, ReplayResult) -> bool, claim: Claim, i: nat, s: StepRun<W>)
    requires forall i, result, log :: claim(i, result, log) == EndsOn(decides, log, result)
    requires s.stop.Some? ==> EndsOn(decides, s.log, s.stop.value)
    ensures StepProves(claim, i, s)
  {
    if s.stop.None? {
      forall result, log | claim(i + 1, result, log)
        ensures claim(i, result, s.log + log)
      {
        EndsLater(decides, s.log, log, result);
      }
    }
  }

  /** A step that ends the run ends it while watching. */
  lemma EndingStepWatches<W>(e: Engine<W>, d: Definition, inputs: Inputs, i: nat, w: W)
    returns (before: seq<Event>, w': W)
    requires i < |d.steps|
    ensures var s, watched := RunStep(e, d, inputs, i, w), Watch(e, d, inputs, i, 0, w');
      s.stop.Some? && IsEnd(s.stop.value) ==> s.log == before + watched.log && s.stop == watched.stop
  {
    var step, look := d.steps[i], e.look(w);
    var action := Materialize(step.action, inputs);
    before, w' := [], w;
    if look.snapshot.Ok? && action.Some? {
      var g := e.act(look.world, action.value, step.action.target);
      before := [Observed(i, SeenOf(look.snapshot)), Called(i, action.value, step.action.target, g.outcome, g.events)];
      w' := g.world;
    }
  }

  lemma StepEnds<W(!new)>(
    e: Engine<W>, d: Definition, inputs: Inputs, decides: (Snapshot, ReplayResult) -> bool, i: nat, w: W)
    requires i < |d.steps| && LooksDecide(d, inputs, decides)
    ensures var s := RunStep(e, d, inputs, i, w); s.stop.Some? ==> EndsOn(decides, s.log, s.stop.value)
  {
    var s := RunStep(e, d, inputs, i, w);
    if s.stop.Some? && IsEnd(s.stop.value) {
      var before, w' := EndingStepWatches(e, d, inputs, i, w);
      WatchEnds(e, d, inputs, decides, i, w');
      EndsLater(decides, before, Watch(e, d, inputs, i, 0, w').log, s.stop.value);
    }
  }

  lemma EndsLater(decides: (Snapshot, ReplayResult) -> bool, a: seq<Event>, b: seq<Event>, r: ReplayResult)
    requires EndsOn(decides, b, r)
    ensures EndsOn(decides, a + b, r)
  {
  }

  /**
   * A success rests on a collected snapshot where every success condition held and no declared outcome did,
   * with one typed output per declaration that its text spells; a business outcome on one where exactly one rule
   * held and the success conditions did not all hold.
   */
  lemma RunIsSound<W(!new)>(e: Engine<W>, d: Definition, inputs: Inputs, start: nat, w: W)
    ensures SoundRun(d, inputs, ExecuteFrom(e, d, inputs, start, w))
  {
    var decides := (s, r) => Decides(d, inputs, s, r);
    EngineLooksDecide(d, inputs, decides);
    RunEnds(e, d, inputs, decides, start, w);
    EndProves(d, inputs, decides, ExecuteFrom(e, d, inputs, start, w));
  }

  /** The same of a resumed run, which may also end on the snapshot it resumes from. */
  lemma ResumeIsSound<W(!new)>(e: Engine<W>, d: Definition, c: Checkpoint, inputs: Inputs, w: W)
    requires CheckpointFits(d, c)
    ensures SoundRun(d, inputs, ResumeAt(e, d, c, inputs, w))
  {
    var decides := (s, r) => Decides(d, inputs, s, r);
    EngineLooksDecide(d, inputs, decides);
    ResumeEnds(e, d, c, inputs, decides, w);
    EndProves(d, inputs, decides, ResumeAt(e, d, c, inputs, w));
  }

  ghost predicate SoundRun<W>(d: Definition, inputs: Inputs, r: Run<W>) {
    IsEnd(r.result) ==> LastSeen(r.log) && Proves(d, inputs, r.log[|r.log| - 1].seen.value, r.result)
  }

  lemma EngineLooksDecide(d: Definition, inputs: Inputs, decides: (Snapshot, ReplayResult) -> bool)
    requires forall s, r :: decides(s, r) == Decides(d, inputs, s, r)
    ensures LooksDecide(d, inputs, decides)
  {
    forall s, i | 0 <= i < |d.steps|
      ensures Look(d, inputs, i, s).Finish? && IsEnd(Look(d, inputs, i, s).result) ==>
        decides(s, Look(d, inputs, i, s).result)
    {
      LookDecides(d, inputs, i, s);
    }
  }

  lemma EndProves<W>(d: Definition, inputs: Inputs, decides: (Snapshot, ReplayResult) -> bool, r: Run<W>)
    requires forall s, r :: decides(s, r) == Decides(d, inputs, s, r)
    requires EndsOn(decides, r.log, r.result)
    ensures SoundRun(d, inputs, r)
  {
    if IsEnd(r.result) {
      DecisionProves(d, inputs, r.log[|r.log| - 1].seen.value, r.result);
    }
  }

  lemma ResumeEnds<W(!new)>(
    e: Engine<W>, d: Definition, c: Checkpoint, inputs: Inputs, decides: (Snapshot, ReplayResult) -> bool, w: W)
    requires CheckpointFits(d, c) && LooksDecide(d, inputs, decides)
    requires forall s, r :: Decides(d, inputs, s, r) ==> decides(s, r)
    ensures var r := ResumeAt(e, d, c, inputs, w); EndsOn(decides, r.log, r.result)
  {
    var current := e.look(w);
    if current.snapshot.Ok? {
      TerminalDecides(d, inputs, current.snapshot.value, c.blockedStepId, c.blockedIndex);
      match ResumePosition(d, c, current.snapshot.value, inputs)
      case StartAt(index) => RunEnds(e, d, inputs, decides, index, current.world);
      case Ended(_) =>
    }
  }

  ghost predicate Proves(d: Definition, inputs: Inputs, s: Snapshot, r: ReplayResult) {
    match r
    case Succeeded(outputs, _) => IsSuccess(d, s, inputs) && AllRead(d.outputs, s, outputs)
    case Business(code, _) => IsOutcome(d, s, inputs, code)
    case _ => false
  }

  lemma DecisionProves(d: Definition, inputs: Inputs, s: Snapshot, r: ReplayResult)
    requires Decides(d, inputs, s, r)
    ensures Proves(d, inputs, s, r)
  {
    TerminalMeans(d, s, inputs);
    ExtractionMeans(d.outputs, s);
  }

  // ---- No run gets stuck on its own definition -------------------------------------------------

  ghost predicate Clear(d: Definition, inputs: Inputs, s: Snapshot) {
    && (forall k :: 0 <= k < |d.success| ==> EvaluateCondition(d.success[k], s, inputs).issue == None)
    && (forall k, l :: 0 <= k < |d.outcomes| && 0 <= l < |d.outcomes[k].conditions| ==>
          EvaluateCondition(d.outcomes[k].conditions[l], s, inputs).issue == None)
    && (forall k :: 0 <= k < |d.steps| ==> StepClear(d.steps[k], inputs, s))
  }

  predicate StepClear(step: Step, inputs: Inputs, s: Snapshot) {
    && (step.precondition.Some? ==> EvaluateCondition(step.precondition.value, s, inputs).issue == None)
    && (step.postcondition.Some? ==> EvaluateCondition(step.postcondition.value, s, inputs).issue == None)
  }

  /** The failures that blame the definition, its inputs or its bindings. */
  predicate BlamesDefinition(r: ReplayResult) {
    || r.Crashed?
    || (r.Stopped? && (r.reason == InvalidInput || r.reason == MissingInput || r.reason == ProfileIncompatible
                       || r.reason == BindingMissing || r.reason == ByGateway(TargetBindingNotFound)))
  }

  ghost predicate AllClear(d: Definition, inputs: Inputs, log: seq<Event>) {
    forall p :: 0 <= p < |log| && log[p].Observed? && log[p].seen.Some? ==> Clear(d, inputs, log[p].seen.value)
  }

  /** An engine whose snapshots are clear for the definition, and whose gateway knows the step targets. */
  ghost predicate Equipped<W(!new)>(e: Engine<W>, d: Definition, clear: Snapshot -> bool) {
    && (forall w: W :: e.look(w).snapshot.Ok? ==> clear(e.look(w).snapshot.value))
    && (forall w: W :: e.look(w).snapshot.Err? ==> IsUnread(e.look(w).snapshot.error))
    && (forall w: W, a, k :: 0 <= k < |d.steps| ==>
          e.act(w, a, d.steps[k].action.target).reason != TargetBindingNotFound)
  }

  ghost predicate Judges(d: Definition, inputs: Inputs, clear: Snapshot -> bool) {
    && (forall s, k :: clear(s) && 0 <= k < |d.steps| ==> StepClear(d.steps[k], inputs, s))
    && (forall s, k :: clear(s) && 0 <= k < |d.steps| && Look(d, inputs, k, s).Finish? ==>
          !BlamesDefinition(Look(d, inputs, k, s).result))
    && (forall k :: 0 <= k < |d.steps| ==> Materialize(d.steps[k].action, inputs).Some?)
  }

  ghost predicate Unstuck(clear: Snapshot -> bool, log: seq<Event>) {
    forall p :: 0 <= p < |log| && log[p].Observed? && log[p].seen.Some? ==> clear(log[p].seen.value)
  }

  ghost predicate StepUnstuck<W>(clear: Snapshot -> bool, s: StepRun<W>) {
    Unstuck(clear, s.log) && (s.stop.Some? ==> !BlamesDefinition(s.stop.value))
  }

  lemma WatchIsUnstuck<W(!new)>(e: Engine<W>, d: Definition, inputs: Inputs, clear: Snapshot -> bool, i: nat, w: W)
    requires Equipped(e, d, clear) && Judges(d, inputs, clear) && i < |d.steps|
    ensures StepUnstuck(clear, Watch(e, d, inputs, i, 0, w))
  {
    var claim: WatchClaim := (k: nat, stop: Option<ReplayResult>, log: seq<Event>) =>
      Unstuck(clear, log) && (stop.Some? ==> !BlamesDefinition(stop.value));
    forall k: nat, w: W | k < MaxObservations(d.steps[i])
      ensures LookProves(claim, d, inputs, i, k, e.look(w).snapshot)
    {
      LookIsUnstuck(d, inputs, clear, i, claim, k, e.look(w).snapshot);
    }
    assert Unstuck(clear, []);
    WatchInduction(e, d, inputs, i, claim, 0, w);
  }

  lemma LookIsUnstuck(
    d: Definition, inputs: Inputs, clear: Snapshot -> bool, i: nat, claim: WatchClaim, attempt: nat,
    snapshot: Result<Snapshot, Reason>)
    requires i < |d.steps| && Judges(d, inputs, clear)
    requires snapshot.Ok? ==> clear(snapshot.value)
    requires snapshot.Err? ==> IsUnread(snapshot.error)
    requires forall k, stop: Option<ReplayResult>, log ::
      claim(k, stop, log) == (Unstuck(clear, log) && (stop.Some? ==> !BlamesDefinition(stop.value)))
    ensures LookProves(claim, d, inputs, i, attempt, snapshot)
  {
    var seen := [Observed(i, SeenOf(snapshot))];
    assert Unstuck(clear, seen);
    if snapshot.Ok? && Look(d, inputs, i, snapshot.value).LookAgain? {
      forall stop, log | claim(attempt + 1, stop, log)
        ensures claim(attempt, stop, seen + log)
      {
        UnstuckJoin(clear, seen, log);
      }
    }
  }

  lemma StepIsUnstuck<W(!new)>(e: Engine<W>, d: Definition, inputs: Inputs, clear: Snapshot -> bool, i: nat, w: W)
    requires Equipped(e, d, clear) && Judges(d, inputs, clear) && i < |d.steps|
    ensures StepUnstuck(clear, RunStep(e, d, inputs, i, w))
  {
    var step, before := d.steps[i], e.look(w);
    var action := Materialize(step.action, inputs);
    if before.snapshot.Ok? {
      assert StepClear(step, inputs, before.snapshot.value);
      var g := e.act(before.world, action.value, step.action.target);
      assert g.reason != TargetBindingNotFound;
      WatchIsUnstuck(e, d, inputs, clear, i, g.world);
    }
  }

  lemma RunIsUnstuck<W(!new)>(e: Engine<W>, d: Definition, inputs: Inputs, clear: Snapshot -> bool, start: nat, w: W)
    requires forall i: nat, w: W :: i < |d.steps| ==> StepUnstuck(clear, RunStep(e, d, inputs, i, w))
    ensures var r := ExecuteFrom(e, d, inputs, start, w);
      Unstuck(clear, r.log) && !BlamesDefinition(r.result)
  {
    var claim: Claim := (i: nat, result: ReplayResult, log: seq<Event>) => Unstuck(clear, log) && !BlamesDefinition(result);
    assert Unstuck(clear, []) && !BlamesDefinition(Stopped(NotFinished, None, |d.steps|, None));
    forall i: nat, w: W | i < |d.steps|
      ensures StepProves(claim, i, RunStep(e, d, inputs, i, w))
    {
      UnstuckGoesOn(clear, claim, i, RunStep(e, d, inputs, i, w));
    }
    RunInduction(e, d, inputs, claim, start, w);
  }

  lemma UnstuckGoesOn<W>(clear: Snapshot -> bool, claim: Claim, i: nat, s: StepRun<W>)
    requires StepUnstuck(clear, s)
    requires forall i, result, log :: claim(i, result, log) == (Unstuck(clear, log) && !BlamesDefinition(result))
    ensures StepProves(claim, i, s)
  {
    if s.stop.None? {
      forall result, log | claim(i + 1, result, log)
        ensures claim(i, result, s.log + log)
      {
        UnstuckJoin(clear, s.log, log);
      }
    }
  }

  lemma UnstuckJoin(clear: Snapshot -> bool, a: seq<Event>, b: seq<Event>)
    requires Unstuck(clear, a) && Unstuck(clear, b)
    ensures Unstuck(clear, a + b)
  {
  }

  // The definition's targets are observed, and its references resolve.

  lemma {:induction false} InsertKeeps(t: Target, sorted: seq<Target>)
    ensures forall x :: x in InsertTarget(t, sorted) <==> x == t || x in sorted
  {
    if sorted != [] {
      InsertKeeps(t, sorted[1..]);
      assert sorted == [sorted[0]] + sorted[1..];
    }
  }

  lemma {:induction false} InsertAllKeeps(ts: seq<Target>, sorted: seq<Target>)
    ensures forall x :: x in InsertTargets(ts, sorted) <==> x in ts || x in sorted
  {
    if ts != [] {
      InsertKeeps(ts[0], sorted);
      InsertAllKeeps(ts[1..], InsertTarget(ts[0], sorted));
      assert ts == [ts[0]] + ts[1..];
    }
  }

  lemma {:induction false} OutcomeTargetsHold(rules: seq<OutcomeRule>, k: nat, l: nat)
    requires k < |rules| && l < |rules[k].conditions|
    ensures rules[k].conditions[l].target in OutcomeTargets(rules)
  {
    if k == 0 {
      assert ConditionTargets(rules[0].conditions)[l] == rules[0].conditions[l].target;
    } else {
      OutcomeTargetsHold(rules[1..], k - 1, l);
    }
  }

  lemma {:induction false} StepsTargetsHold(steps: seq<Step>, k: nat)
    requires k < |steps|
    ensures forall t :: t in StepTargets(steps[k]) ==> t in StepsTargets(steps)
  {
    if k > 0 {
      StepsTargetsHold(steps[1..], k - 1);
    }
  }

  /** Every target the definition mentions is collected. */
  lemma TargetsAreComplete(d: Definition)
    ensures forall k :: 0 <= k < |d.outputs| ==> d.outputs[k].target in TargetsFor(d)
    ensures forall k :: 0 <= k < |d.success| ==> d.success[k].target in TargetsFor(d)
    ensures forall k, l :: 0 <= k < |d.outcomes| && 0 <= l < |d.outcomes[k].conditions| ==>
      d.outcomes[k].conditions[l].target in TargetsFor(d)
    ensures forall k, t :: 0 <= k < |d.steps| && t in StepTargets(d.steps[k]) ==> t in TargetsFor(d)
  {
    var outputs := seq(|d.outputs|, i requires 0 <= i < |d.outputs| => d.outputs[i].target);
    var all := outputs + ConditionTargets(d.success) + OutcomeTargets(d.outcomes) + StepsTargets(d.steps);
    InsertAllKeeps(all, []);
    forall k | 0 <= k < |d.outputs|
      ensures d.outputs[k].target in all
    {
      assert outputs[k] in outputs;
    }
    forall k | 0 <= k < |d.success|
      ensures d.success[k].target in all
    {
      assert ConditionTargets(d.success)[k] in ConditionTargets(d.success);
    }
    forall k, l | 0 <= k < |d.outcomes| && 0 <= l < |d.outcomes[k].conditions|
      ensures d.outcomes[k].conditions[l].target in all
    {
      OutcomeTargetsHold(d.outcomes, k, l);
    }
    forall k, t | 0 <= k < |d.steps| && t in StepTargets(d.steps[k])
      ensures t in all
    {
      StepsTargetsHold(d.steps, k);
    }
  }

  lemma {:induction false} CollectCovers<W>(ports: Ports<W>, profile: Profile, targets: seq<Target>, w: W)
    ensures var c := Collect(ports, profile, targets, w).snapshot;
      && (c.Ok? ==> forall t :: t in targets ==> FindObservation(t, c.value).Some?)
      && (c.Err? && (forall t :: t in targets ==> t in profile.bindings) ==> IsUnread(c.error))
  {
    if targets != [] && targets[0] in profile.bindings {
      var (inspected, w') := ports.inspect(w, targets[0]);
      CollectCovers(ports, profile, targets[1..], w');
      assert targets == [targets[0]] + targets[1..];
      var c := Collect(ports, profile, targets, w).snapshot;
      if c.Ok? {
        var rest := Collect(ports, profile, targets[1..], w').snapshot.value;
        assert c.value[1..] == rest;
      }
    }
  }

  ghost predicate Covers(d: Definition, s: Snapshot) {
    forall t :: t in TargetsFor(d) ==> FindObservation(t, s).Some?
  }

  lemma ClosedConditionIsClear(c: Condition, s: Snapshot, inputs: Inputs, names: set<string>)
    requires FindObservation(c.target, s).Some? && ClosedCondition(c, names) && names <= inputs.Keys
    ensures EvaluateCondition(c, s, inputs).issue == None
  {
  }

  lemma CoveredIsClear(d: Definition, inputs: Inputs, s: Snapshot)
    requires WellFormed(d) && Declared(d.inputs) <= inputs.Keys && Covers(d, s)
    ensures Clear(d, inputs, s)
  {
    TargetsAreComplete(d);
    var names := Declared(d.inputs);
    forall k | 0 <= k < |d.success|
      ensures EvaluateCondition(d.success[k], s, inputs).issue == None
    {
      ClosedConditionIsClear(d.success[k], s, inputs, names);
    }
    forall k, l | 0 <= k < |d.outcomes| && 0 <= l < |d.outcomes[k].conditions|
      ensures EvaluateCondition(d.outcomes[k].conditions[l], s, inputs).issue == None
    {
      ClosedConditionIsClear(d.outcomes[k].conditions[l], s, inputs, names);
    }
    forall k | 0 <= k < |d.steps|
      ensures StepClear(d.steps[k], inputs, s)
    {
      StepIsClear(d.steps[k], s, inputs, names);
    }
  }

  lemma StepIsClear(step: Step, s: Snapshot, inputs: Inputs, names: set<string>)
    requires forall t :: t in StepTargets(step) ==> FindObservation(t, s).Some?
    requires ClosedStep(step, names) && names <= inputs.Keys
    ensures StepClear(step, inputs, s)
  {
    if step.precondition.Some? {
      assert step.precondition.value.target in StepTargets(step);
      ClosedConditionIsClear(step.precondition.value, s, inputs, names);
    }
    if step.postcondition.Some? {
      assert step.postcondition.value.target in StepTargets(step);
      ClosedConditionIsClear(step.postcondition.value, s, inputs, names);
    }
  }

  lemma {:induction false} InputsAreGiven(items: seq<InputSpec>, inputs: Inputs)
    requires InputProblem(items, inputs) == None
    requires forall k :: 0 <= k < |items| ==> items[k].required
    ensures Declared(items) <= inputs.Keys
  {
    if items != [] {
      InputsAreGiven(items[1..], inputs);
      assert forall k :: 0 < k < |items| ==> items[k] == items[1..][k - 1];
    }
  }

  lemma LookBlamesNothing(d: Definition, inputs: Inputs, k: nat, s: Snapshot)
    requires k < |d.steps| && StepClear(d.steps[k], inputs, s)
    ensures Look(d, inputs, k, s).Finish? ==> !BlamesDefinition(Look(d, inputs, k, s).result)
  {
  }

  /**
   * A validated capability whose inputs are all required, given inputs and a profile that pass the checks,
   * never reads a missing input, never evaluates a condition on a target it did not observe, and never
   * reports a missing binding.
   */
  lemma NoStuckReplay<W(!new)>(ports: Ports<W>, d: Definition, inputs: Inputs, ctx: Context, start: nat, w: W)
    requires WellFormed(d) && forall k :: 0 <= k < |d.inputs| ==> d.inputs[k].required
    requires ValidateInputs(d.inputs, inputs) == None && ValidateProfile(d, ctx.profile) == None
    ensures var r := ExecuteFrom(EngineFor(ports, d, ctx), d, inputs, start, w);
      !BlamesDefinition(r.result) && AllClear(d, inputs, r.log)
  {
    var e := EngineFor(ports, d, ctx);
    InputsAreGiven(d.inputs, inputs);
    var clear := (s: Snapshot) => Covers(d, s);
    EngineIsEquipped(ports, d, ctx);
    CoveringJudges(d, inputs);
    forall i: nat, w: W | i < |d.steps|
      ensures StepUnstuck(clear, RunStep(e, d, inputs, i, w))
    {
      StepIsUnstuck(e, d, inputs, clear, i, w);
    }
    RunIsUnstuck(e, d, inputs, clear, start, w);
    var r := ExecuteFrom(e, d, inputs, start, w);
    forall p | 0 <= p < |r.log| && r.log[p].Observed? && r.log[p].seen.Some?
      ensures Clear(d, inputs, r.log[p].seen.value)
    {
      CoveredIsClear(d, inputs, r.log[p].seen.value);
    }
  }

  lemma EngineIsEquipped<W(!new)>(ports: Ports<W>, d: Definition, ctx: Context)
    requires ValidateProfile(d, ctx.profile) == None
    ensures Equipped(EngineFor(ports, d, ctx), d, (s: Snapshot) => Covers(d, s))
  {
    var e := EngineFor(ports, d, ctx);
    forall w: W
      ensures e.look(w).snapshot.Ok? ==> Covers(d, e.look(w).snapshot.value)
      ensures e.look(w).snapshot.Err? ==> IsUnread(e.look(w).snapshot.error)
    {
      CollectCovers(ports, ctx.profile, TargetsFor(d), w);
    }
    TargetsAreComplete(d);
    forall w: W, a, k | 0 <= k < |d.steps|
      ensures e.act(w, a, d.steps[k].action.target).reason != TargetBindingNotFound
    {
      ReasonTellsSurfaceCall(ports, ctx.profile, ctx.generation, a, d.steps[k].action.target, w);
      assert d.steps[k].action.target in StepTargets(d.steps[k]);
    }
  }

  lemma CoveringJudges(d: Definition, inputs: Inputs)
    requires WellFormed(d) && Declared(d.inputs) <= inputs.Keys
    ensures Judges(d, inputs, (s: Snapshot) => Covers(d, s))
  {
    forall s: Snapshot, k | Covers(d, s) && 0 <= k < |d.steps|
      ensures StepClear(d.steps[k], inputs, s)
      ensures Look(d, inputs, k, s).Finish? ==> !BlamesDefinition(Look(d, inputs, k, s).result)
    {
      CoveredIsClear(d, inputs, s);
      LookBlamesNothing(d, inputs, k, s);
    }
    assert forall k :: 0 <= k < |d.steps| ==> ClosedStep(d.steps[k], Declared(d.inputs));
  }

  // ---- What is validated is what is resumed --------------------------------------------------------

  predicate Unverified(r: ReplayResult) { r.Stopped? && r.reason == ResumeStateUnverified }

  /** Looking fails only on a target that is unbound or cannot be read. */
  ghost predicate LooksPlainly<W(!new)>(e: Engine<W>) {
    forall w: W :: e.look(w).snapshot.Err? ==>
      e.look(w).snapshot.error == BindingMissing || IsUnread(e.look(w).snapshot.error)
  }

  lemma {:induction false} CollectFailsPlainly<W>(ports: Ports<W>, profile: Profile, targets: seq<Target>, w: W)
    ensures var c := Collect(ports, profile, targets, w).snapshot;
      c.Err? ==> c.error == BindingMissing || IsUnread(c.error)
  {
    if targets != [] && targets[0] in profile.bindings {
      CollectFailsPlainly(ports, profile, targets[1..], ports.inspect(w, targets[0]).1);
    }
  }

  lemma WatchIsVerified<W(!new)>(e: Engine<W>, d: Definition, inputs: Inputs, i: nat, w: W)
    requires LooksPlainly(e) && i < |d.steps|
    ensures var s := Watch(e, d, inputs, i, 0, w); s.stop.Some? ==> !Unverified(s.stop.value)
  {
    var claim: WatchClaim := (k: nat, stop: Option<ReplayResult>, log: seq<Event>) => stop.Some? ==> !Unverified(stop.value);
    forall k: nat, w: W | k < MaxObservations(d.steps[i])
      ensures LookProves(claim, d, inputs, i, k, e.look(w).snapshot)
    {
      if e.look(w).snapshot.Ok? {
        LookIsVerified(d, inputs, i, e.look(w).snapshot.value);
      }
    }
    WatchInduction(e, d, inputs, i, claim, 0, w);
  }

  lemma LookIsVerified(d: Definition, inputs: Inputs, i: nat, s: Snapshot)
    requires i < |d.steps|
    ensures Look(d, inputs, i, s).Finish? ==> !Unverified(Look(d, inputs, i, s).result)
  {
  }

  lemma RunIsVerified<W(!new)>(e: Engine<W>, d: Definition, inputs: Inputs, start: nat, w: W)
    requires LooksPlainly(e)
    ensures !Unverified(ExecuteFrom(e, d, inputs, start, w).result)
  {
    var claim: Claim := (i: nat, result: ReplayResult, log: seq<Event>) => !Unverified(result);
    forall i: nat, w: W | i < |d.steps|
      ensures StepProves(claim, i, RunStep(e, d, inputs, i, w))
    {
      StepIsVerified(e, d, inputs, i, w);
    }
    RunInduction(e, d, inputs, claim, start, w);
  }

  lemma StepIsVerified<W(!new)>(e: Engine<W>, d: Definition, inputs: Inputs, i: nat, w: W)
    requires LooksPlainly(e) && i < |d.steps|
    ensures var s := RunStep(e, d, inputs, i, w); s.stop.Some? ==> !Unverified(s.stop.value)
  {
    var step, before := d.steps[i], e.look(w);
    var action := Materialize(step.action, inputs);
    if before.snapshot.Ok? && action.Some? {
      WatchIsVerified(e, d, inputs, i, e.act(before.world, action.value, step.action.target).world);
    }
  }

  /** Whether the resumption takes the decision that the validation took on the same snapshot. */
  ghost predicate AgreesWith<W>(
    e: Engine<W>, d: Definition, c: Checkpoint, inputs: Inputs, s: Snapshot, v: Validation, current: Collected<W>, r: Run<W>)
    requires CheckpointFits(d, c)
  {
    var seen := Observed(c.blockedIndex, Some(s));
    match ResumePosition(d, c, s, inputs)
    case StartAt(index) => v == Valid(false) && r == After([seen], ExecuteFrom(e, d, inputs, index, current.world))
    case Ended(Stopped(reason, id, n, checkpoint)) =>
      v == Invalid(reason) && r.result == Stopped(reason, id, n, checkpoint) && r.log == [seen]
    case Ended(result) => v == Valid(true) && IsEnd(result) && r.result == result && r.log == [seen]
  }

  /**
   * When resumption sees the snapshot that validation saw, it takes the same start index, the same terminal
   * result, or the same refusal; and it ends unverified only if validation had refused.
   */
  lemma ValidatedIsResumed<W(!new)>(
    ports: Ports<W>, d: Definition, c: Checkpoint, inputs: Inputs, before: Context, after: Context, w: W, w': W)
    requires CheckpointFits(d, c) && after.generation > c.suspendedGeneration && after.profile == before.profile
    requires ValidateInputs(d.inputs, inputs) == None && ValidateProfile(d, before.profile) == None
    requires Collect(ports, before.profile, TargetsFor(d), w).snapshot.Ok?
    requires Collect(ports, before.profile, TargetsFor(d), w).snapshot == Collect(ports, after.profile, TargetsFor(d), w').snapshot
    ensures var v := ValidateResume(ports, d, c, inputs, before, w).answer;
      var r := Resume(ports, d, c, inputs, after, w');
      var current := Collect(ports, after.profile, TargetsFor(d), w');
      && AgreesWith(EngineFor(ports, d, after), d, c, inputs, current.snapshot.value, v, current, r)
      && (Unverified(r.result) ==> v == Invalid(ResumeStateUnverified))
  {
    var e := EngineFor(ports, d, after);
    forall w: W
      ensures e.look(w).snapshot.Err? ==>
        e.look(w).snapshot.error == BindingMissing || IsUnread(e.look(w).snapshot.error)
    {
      CollectFailsPlainly(ports, after.profile, TargetsFor(d), w);
    }
    var current := e.look(w');
    ResumeAgrees(e, d, c, inputs, current.snapshot.value, w');
  }

  lemma ResumeAgrees<W(!new)>(e: Engine<W>, d: Definition, c: Checkpoint, inputs: Inputs, s: Snapshot, w: W)
    requires LooksPlainly(e) && CheckpointFits(d, c) && e.look(w).snapshot == Ok(s)
    ensures var r := ResumeAt(e, d, c, inputs, w);
      var p := ResumePosition(d, c, s, inputs);
      && AgreesWith(e, d, c, inputs, s, Judgement(p), e.look(w), r)
      && (Unverified(r.result) ==> Judgement(p) == Invalid(ResumeStateUnverified))
  {
    match ResumePosition(d, c, s, inputs)
    case StartAt(index) => RunIsVerified(e, d, inputs, index, e.look(w).world);
    case Ended(_) => TerminalDecides(d, inputs, s, c.blockedStepId, c.blockedIndex);
  }

  /** What validation answers for a position. */
  function Judgement(p: Position): Validation {
    match p
    case StartAt(_) => Valid(false)
    case Ended(Stopped(reason, _, _, _)) => Invalid(reason)
    case Ended(_) => Valid(true)
  }
}
