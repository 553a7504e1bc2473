/** How every step and every run of a replay ends, told by what it observed and what the gateway answered. */
module ReplayEnds {
  import opened Contracts
  import opened Evaluator
  import opened Meanings
  import opened Gateway
  import opened Replay

  // ---- One snapshot -----------------------------------------------------------------------

  /** The result that a snapshot which ends the run ends it with. */
  ghost predicate EndedBy(d: Definition, s: Snapshot, inputs: Inputs, stepId: string, attempted: nat, r: ReplayResult) {
    || (exists code :: IsOutcome(d, s, inputs, code) && r == Business(code, attempted))
    || (IsConflict(d, s, inputs) && r == Stopped(TerminalStateConflict, Some(stepId), attempted, None))
    || (IsSuccess(d, s, inputs) && exists values :: AllRead(d.outputs, s, values) && r == Succeeded(values, attempted))
    || (IsSuccess(d, s, inputs) && (exists issue :: FirstHasIssue(d.outputs, s, issue))
        && r == Stopped(OutputExtractionFailed, Some(stepId), attempted, None))
  }

  /** A snapshot ends the run exactly when something declared as an end holds on it, and then as declared. */
  lemma SnapshotEnds(d: Definition, s: Snapshot, inputs: Inputs, stepId: string, attempted: nat)
    ensures var r := TerminalResult(d, s, inputs, stepId, attempted);
      if r.None? then NothingEnds(d, s, inputs)
      else !NothingEnds(d, s, inputs) && EndedBy(d, s, inputs, stepId, attempted, r.value)
  {
    TerminalMeans(d, s, inputs);
    ExtractionMeans(d.outputs, s);
    var terminal := EvaluateTerminal(d, s, inputs);
    if terminal.BusinessOutcome? {
      assert IsOutcome(d, s, inputs, terminal.code);
    }
  }

  // ---- One step ---------------------------------------------------------------------------

  /** The action does what its template says, with the value the inputs give. */
  predicate Does(a: ActionTemplate, inputs: Inputs, action: Action) {
    match a
    case ClickTemplate(_) => action == Click
    case FillTemplate(_, v) => action.Fill? && StandsFor(v, inputs, action.value)
  }

  predicate NeedsMissing(a: ActionTemplate, inputs: Inputs) {
    a.FillTemplate? && a.value.Input? && a.value.name !in inputs
  }

  ghost predicate MayStart(step: Step, s: Snapshot, inputs: Inputs) {
    step.precondition.Some? ==> HoldsOn(step.precondition.value, s, inputs)
  }

  /** How a step that does not call the gateway ends the run. */
  ghost predicate EndsBefore(d: Definition, inputs: Inputs, i: nat, seen: Option<Snapshot>, r: ReplayResult)
    requires i < |d.steps|
  {
    var step := d.steps[i];
    match seen
    case None => r.Stopped? && r == Stopped(r.reason, Some(step.stepId), i + 1, None)
    case Some(s) =>
      if MayStart(step, s, inputs) then NeedsMissing(step.action, inputs) && r == Crashed(Some(step.stepId))
      else if LacksInput(step.precondition.value, s, inputs) then r == Stopped(InvalidInput, Some(step.stepId), i, None)
      else r == Stopped(PreconditionFailed, Some(step.stepId), i, None)
  }

  /** A call that is not executed ends the run; one that needs approval leaves a checkpoint of its step. */
  predicate EndsRefused(d: Definition, generation: nat, i: nat, outcome: GatewayOutcome, r: ReplayResult)
    requires i < |d.steps|
  {
    && r.Stopped? && r.reason.ByGateway? && r.stepId == Some(d.steps[i].stepId) && r.attempted == i + 1
    && r.checkpoint ==
         if outcome == ApprovalRequired
         then Some(Checkpoint(d.capabilityId, d.version, d.steps[i].stepId, i, generation))
         else None
  }

  function Allowed(step: Step): nat {
    match step.retry
    case Some(policy) => policy.maxAttempts
    case None => 1
  }

  /** After the action nothing is decided yet. */
  ghost predicate Undecided(step: Step, s: Snapshot, inputs: Inputs) {
    step.postcondition.Some? ==>
      var post := step.postcondition.value;
      !HoldsOn(post, s, inputs) && !LacksInput(post, s, inputs) && (step.retry.None? ==> !FailsOn(post, s, inputs))
  }

  /** What the snapshot seen last after the action decides; `all` when no further look is allowed. */
  ghost predicate LastDecides(
    d: Definition, inputs: Inputs, i: nat, s: Snapshot, all: bool, stop: Option<ReplayResult>)
    requires i < |d.steps|
  {
    var step := d.steps[i];
    if !NothingEnds(d, s, inputs) then stop.Some? && EndedBy(d, s, inputs, step.stepId, i + 1, stop.value)
    else if Undecided(step, s, inputs) then
      all && stop == if step.retry.Some? && step.postcondition.Some?
                     then Some(Stopped(StepTimeout, Some(step.stepId), i + 1, None)) else None
    else if HoldsOn(step.postcondition.value, s, inputs) then stop == None
    else if LacksInput(step.postcondition.value, s, inputs) then
      stop == Some(Stopped(InvalidInput, Some(step.stepId), i + 1, None))
    else stop == Some(Stopped(PostconditionFailed, Some(step.stepId), i + 1, None))
  }

  /** The looks after an action, `before` of which came earlier: all but the last leave it undecided. */
  ghost predicate LooksTold(
    d: Definition, inputs: Inputs, i: nat, before: nat, looks: seq<Event>, stop: Option<ReplayResult>)
    requires i < |d.steps|
  {
    && looks != [] && before + |looks| <= Allowed(d.steps[i])
    && (forall k :: 0 <= k < |looks| ==> looks[k].Observed? && looks[k].step == i)
    && (forall k :: 0 <= k < |looks| - 1 ==>
          looks[k].seen.Some? && NothingEnds(d, looks[k].seen.value, inputs)
          && Undecided(d.steps[i], looks[k].seen.value, inputs))
    && match looks[|looks| - 1].seen
       case None => stop.Some? && stop.value.Stopped?
                    && stop.value == Stopped(stop.value.reason, Some(d.steps[i].stepId), i + 1, None)
       case Some(s) => LastDecides(d, inputs, i, s, before + |looks| == Allowed(d.steps[i]), stop)
  }

  /**
   * The whole of a step, told by its log: it looks, calls the gateway once if the precondition holds and the inputs
   * are given, and then looks until the snapshot decides or no further look is allowed.
   */
  ghost predicate StepTold(
    d: Definition, inputs: Inputs, generation: nat, i: nat, log: seq<Event>, stop: Option<ReplayResult>)
    requires i < |d.steps|
  {
    && log != [] && log[0].Observed? && log[0].step == i
    && if |log| == 1 then stop.Some? && EndsBefore(d, inputs, i, log[0].seen, stop.value)
       else
         && log[0].seen.Some? && MayStart(d.steps[i], log[0].seen.value, inputs)
         && log[1].Called? && log[1].step == i
         && Does(d.steps[i].action, inputs, log[1].action) && log[1].target == d.steps[i].action.target
         && if log[1].outcome == Executed then LooksTold(d, inputs, i, 0, log[2..], stop)
            else |log| == 2 && stop.Some? && EndsRefused(d, generation, i, log[1].outcome, stop.value)
  }

  /** One look after the action, decided from the conditions. */
  lemma LookMeans(d: Definition, inputs: Inputs, i: nat, s: Snapshot)
    requires i < |d.steps|
    ensures match Look(d, inputs, i, s)
      case Finish(r) => LastDecides(d, inputs, i, s, false, Some(r))
      case PostMet => LastDecides(d, inputs, i, s, false, None)
      case LookAgain => NothingEnds(d, s, inputs) && Undecided(d.steps[i], s, inputs)
  {
    var step := d.steps[i];
    SnapshotEnds(d, s, inputs, step.stepId, i + 1);
    if step.postcondition.Some? {
      ConditionMeans(step.postcondition.value, s, inputs);
    }
  }

  /** A claim about the looks from an attempt on. */
  ghost predicate WatchTold(d: Definition, inputs: Inputs, i: nat, attempt: nat, stop: Option<ReplayResult>, looks: seq<Event>)
    requires i < |d.steps|
  {
    if looks == [] then attempt == Allowed(d.steps[i]) && stop == Exhausted(d.steps[i], i)
    else LooksTold(d, inputs, i, attempt, looks, stop)
  }

  lemma OneMoreLook(
    d: Definition, inputs: Inputs, i: nat, attempt: nat, s: Snapshot, stop: Option<ReplayResult>, looks: seq<Event>)
    requires i < |d.steps| && NothingEnds(d, s, inputs) && Undecided(d.steps[i], s, inputs)
    requires WatchTold(d, inputs, i, attempt + 1, stop, looks)
    ensures WatchTold(d, inputs, i, attempt, stop, [Observed(i, Some(s))] + looks)
  {
    var more := [Observed(i, Some(s))] + looks;
    if looks != [] {
      assert more[|more| - 1] == looks[|looks| - 1];
    }
  }

  lemma LookTold(d: Definition, inputs: Inputs, i: nat, claim: WatchClaim, attempt: nat, snapshot: Result<Snapshot, Reason>)
    requires i < |d.steps| && attempt < Allowed(d.steps[i])
    requires forall k, stop, looks :: claim(k, stop, looks) == WatchTold(d, inputs, i, k, stop, looks)
    ensures LookProves(claim, d, inputs, i, attempt, snapshot)
  {
    if snapshot.Ok? {
      LookMeans(d, inputs, i, snapshot.value);
      if Look(d, inputs, i, snapshot.value).LookAgain? {
        forall stop, looks | claim(attempt + 1, stop, looks)
          ensures claim(attempt, stop, [Observed(i, Some(snapshot.value))] + looks)
        {
          OneMoreLook(d, inputs, i, attempt, snapshot.value, stop, looks);
        }
      }
    }
  }

  lemma WatchTells<W(!new)>(e: Engine<W>, d: Definition, inputs: Inputs, i: nat, w: W)
    requires i < |d.steps|
    ensures var s := Watch(e, d, inputs, i, 0, w); LooksTold(d, inputs, i, 0, s.log, s.stop)
  {
    var claim: WatchClaim := (k: nat, stop: Option<ReplayResult>, looks: seq<Event>) => WatchTold(d, inputs, i, k, stop, looks);
    forall k: nat, w: W | k < MaxObservations(d.steps[i])
      ensures LookProves(claim, d, inputs, i, k, e.look(w).snapshot)
    {
      LookTold(d, inputs, i, claim, k, e.look(w).snapshot);
    }
    WatchInduction(e, d, inputs, i, claim, 0, w);
  }

  lemma MaterializeMeans(a: ActionTemplate, inputs: Inputs)
    ensures var action := Materialize(a, inputs);
      if action.None? then NeedsMissing(a, inputs) else Does(a, inputs, action.value) && !NeedsMissing(a, inputs)
  {
  }

  /** The step can act: its state can be collected, its precondition holds there, and its inputs are given. */
  ghost predicate MayAct(d: Definition, inputs: Inputs, i: nat, before: Result<Snapshot, Reason>)
    requires i < |d.steps|
  {
    before.Ok? && MayStart(d.steps[i], before.value, inputs) && !NeedsMissing(d.steps[i].action, inputs)
  }

  lemma StepTells<W(!new)>(e: Engine<W>, d: Definition, inputs: Inputs, i: nat, w: W)
    requires i < |d.steps|
    ensures var s := RunStep(e, d, inputs, i, w); StepTold(d, inputs, e.generation, i, s.log, s.stop)
  {
    if MayAct(d, inputs, i, e.look(w).snapshot) {
      MaterializeMeans(d.steps[i].action, inputs);
      StepCalls(e, d, inputs, i, w);
      CallTells(e, d, inputs, i, e.look(w), Materialize(d.steps[i].action, inputs).value,
        e.act(e.look(w).world, Materialize(d.steps[i].action, inputs).value, d.steps[i].action.target));
    } else {
      StepEndsBefore(e, d, inputs, i, w);
    }
  }

  lemma StepEndsBefore<W>(e: Engine<W>, d: Definition, inputs: Inputs, i: nat, w: W)
    requires i < |d.steps| && !MayAct(d, inputs, i, e.look(w).snapshot)
    ensures var s, before := RunStep(e, d, inputs, i, w), e.look(w);
      && s.log == [Observed(i, SeenOf(before.snapshot))] && s.world == before.world
      && s.stop.Some? && EndsBefore(d, inputs, i, SeenOf(before.snapshot), s.stop.value)
  {
    var step, before := d.steps[i], e.look(w);
    MaterializeMeans(step.action, inputs);
    if before.snapshot.Ok? && step.precondition.Some? {
      ConditionMeans(step.precondition.value, before.snapshot.value, inputs);
    }
  }

  lemma StepCalls<W>(e: Engine<W>, d: Definition, inputs: Inputs, i: nat, w: W)
    requires i < |d.steps| && MayAct(d, inputs, i, e.look(w).snapshot) && Materialize(d.steps[i].action, inputs).Some?
    ensures
      var step, before, action := d.steps[i], e.look(w), Materialize(d.steps[i].action, inputs).value;
      var g := e.act(before.world, action, step.action.target);
      var called := [Observed(i, SeenOf(before.snapshot))] + [Called(i, action, step.action.target, g.outcome, g.events)];
      var watched := Watch(e, d, inputs, i, 0, g.world);
      RunStep(e, d, inputs, i, w) ==
        if g.outcome == Executed then StepRun(watched.stop, watched.world, called + watched.log)
        else StepRun(Some(Stopped(ByGateway(g.reason), Some(step.stepId), i + 1, CheckpointFor(d, e.generation, i, g.outcome))),
                     g.world, called)
  {
    var step, before := d.steps[i], e.look(w);
    if step.precondition.Some? {
      ConditionMeans(step.precondition.value, before.snapshot.value, inputs);
    }
  }

  /**
   * A step calls the gateway exactly when it can act, with the action its template and the inputs spell, on its own
   * target, and once; a refusal ends it there, for the gateway's reason. Otherwise it ends the run without a call.
   */
  lemma StepActsExactlyWhen<W>(e: Engine<W>, d: Definition, inputs: Inputs, i: nat, w: W, action: Action)
    requires i < |d.steps| && (Does(d.steps[i].action, inputs, action) || NeedsMissing(d.steps[i].action, inputs))
    ensures var s, before, target := RunStep(e, d, inputs, i, w), e.look(w), d.steps[i].action.target;
      var seen := Observed(i, SeenOf(before.snapshot));
      if MayAct(d, inputs, i, before.snapshot) then
        var g := e.act(before.world, action, target);
        var called := [seen, Called(i, action, target, g.outcome, g.events)];
        && called <= s.log
        && (g.outcome != Executed ==>
              s.log == called && s.world == g.world && s.stop.Some? && s.stop.value.Stopped?
              && s.stop.value.reason == ByGateway(g.reason))
      else s.stop.Some? && s.log == [seen] && s.world == before.world
  {
    MaterializeMeans(d.steps[i].action, inputs);
    if MayAct(d, inputs, i, e.look(w).snapshot) {
      StepCalls(e, d, inputs, i, w);
    } else {
      StepEndsBefore(e, d, inputs, i, w);
    }
  }

  lemma CallTells<W(!new)>(
    e: Engine<W>, d: Definition, inputs: Inputs, i: nat, before: Collected<W>, action: Action, g: GatewayRun<W>)
    requires i < |d.steps| && before.snapshot.Ok? && MayStart(d.steps[i], before.snapshot.value, inputs)
    requires Does(d.steps[i].action, inputs, action)
    ensures
      var called := [Observed(i, SeenOf(before.snapshot)), Called(i, action, d.steps[i].action.target, g.outcome, g.events)];
      var watched := Watch(e, d, inputs, i, 0, g.world);
      && (g.outcome == Executed ==> StepTold(d, inputs, e.generation, i, called + watched.log, watched.stop))
      && (g.outcome != Executed ==> forall reason :: StepTold(d, inputs, e.generation, i, called,
            Some(Stopped(ByGateway(reason), Some(d.steps[i].stepId), i + 1, CheckpointFor(d, e.generation, i, g.outcome)))))
  {
    WatchTells(e, d, inputs, i, g.world);
    var called := [Observed(i, SeenOf(before.snapshot)), Called(i, action, d.steps[i].action.target, g.outcome, g.events)];
    var watched := Watch(e, d, inputs, i, 0, g.world);
    assert (called + watched.log)[2..] == watched.log;
  }

  // ---- One run ------------------------------------------------------------------------------

  /** What is told of a step's log, and of how it stops. */
  type Told = (nat, seq<Event>, Option<ReplayResult>) -> bool

  /** Step after step, until one ends the run or none of the `n` is left. */
  ghost predicate Steps(told: Told, n: nat, i: nat, log: seq<Event>, r: ReplayResult)
    decreases n - i
  {
    if i >= n then log == [] && r == Stopped(NotFinished, None, n, None)
    else told(i, log, Some(r)) || exists cut: nat :: Parts(told, n, i, log, cut, r)
  }

  ghost predicate Parts(told: Told, n: nat, i: nat, log: seq<Event>, cut: nat, r: ReplayResult)
    requires i < n
    decreases n - i, 0
  {
    cut <= |log| && told(i, log[..cut], None) && Steps(told, n, i + 1, log[cut..], r)
  }

  ghost function StepsOf(d: Definition, inputs: Inputs, generation: nat): Told {
    (i: nat, log: seq<Event>, stop: Option<ReplayResult>) =>
      i < |d.steps| && StepTold(d, inputs, generation, i, log, stop)
  }

  /** The whole of a run, told by its log. */
  ghost predicate RunTold(d: Definition, inputs: Inputs, generation: nat, i: nat, log: seq<Event>, r: ReplayResult) {
    Steps(StepsOf(d, inputs, generation), |d.steps|, i, log, r)
  }

  /** Every run is what its log tells. */
  lemma RunTells<W(!new)>(e: Engine<W>, d: Definition, inputs: Inputs, start: nat, w: W)
    ensures var r := ExecuteFrom(e, d, inputs, start, w); RunTold(d, inputs, e.generation, start, r.log, r.result)
  {
    var told := StepsOf(d, inputs, e.generation);
    forall i: nat, w: W | i < |d.steps|
      ensures told(i, RunStep(e, d, inputs, i, w).log, RunStep(e, d, inputs, i, w).stop)
    {
      StepTells(e, d, inputs, i, w);
    }
    StepsAreTold(told, e, d, inputs, start, w);
  }

  lemma {:induction false} StepsAreTold<W(!new)>(told: Told, e: Engine<W>, d: Definition, inputs: Inputs, start: nat, w: W)
    requires forall i: nat, w: W :: i < |d.steps| ==> told(i, RunStep(e, d, inputs, i, w).log, RunStep(e, d, inputs, i, w).stop)
    ensures var r := ExecuteFrom(e, d, inputs, start, w); Steps(told, |d.steps|, start, r.log, r.result)
    decreases |d.steps| - start
  {
    if start < |d.steps| {
      var s := RunStep(e, d, inputs, start, w);
      RunUnfolds(e, d, inputs, start, w);
      if s.stop.None? {
        StepsAreTold(told, e, d, inputs, start + 1, s.world);
        var rest := ExecuteFrom(e, d, inputs, start + 1, s.world);
        var log, cut := s.log + rest.log, |s.log|;
        assert log[..cut] == s.log && log[cut..] == rest.log;
        assert Parts(told, |d.steps|, start, log, cut, rest.result);
      }
    }
  }

  /** Induction over the steps told: a claim that the last step makes, and that every step before it carries back. */
  lemma {:induction false} StepsInduction(
    told: Told, n: nat, claim: (nat, seq<Event>, ReplayResult) -> bool, i: nat, log: seq<Event>, r: ReplayResult)
    requires Steps(told, n, i, log, r) && i <= n
    requires claim(n, [], Stopped(NotFinished, None, n, None))
    requires forall k: nat, log, r :: k < n && told(k, log, Some(r)) ==> claim(k, log, r)
    requires forall k: nat, a, b, r :: k < n && told(k, a, None) && claim(k + 1, b, r) ==> claim(k, a + b, r)
    ensures claim(i, log, r)
    decreases n - i
  {
    if i < n && !told(i, log, Some(r)) {
      var cut: nat :| Parts(told, n, i, log, cut, r);
      StepsInduction(told, n, claim, i + 1, log[cut..], r);
      assert log[..cut] + log[cut..] == log;
    }
  }

  /** What single events of a run tell about its end. */
  ghost predicate EventsTell(d: Definition, inputs: Inputs, generation: nat, log: seq<Event>, r: ReplayResult) {
    && (forall p :: 0 <= p < |log| ==> log[p].step < |d.steps| && EventTells(d, generation, log, p, r))
    && (forall p, q :: 0 <= p < q < |log| && q == p + 1 ==> SnapshotTells(d, inputs, log, p, q, r))
  }

  /** A call that is not executed, or a look that fails, is the last event of its run. */
  ghost predicate EventTells(d: Definition, generation: nat, log: seq<Event>, p: nat, r: ReplayResult)
    requires p < |log| && log[p].step < |d.steps|
  {
    match log[p]
    case Called(i, _, _, outcome, _) => outcome != Executed ==> p == |log| - 1 && EndsRefused(d, generation, i, outcome, r)
    case Observed(i, seen) => seen.None? ==> p == |log| - 1 && r.Stopped? && r.stepId == Some(d.steps[i].stepId) && r.checkpoint == None
  }

  /** A snapshot seen after a step's action ends the run exactly when something declared as an end holds on it. */
  ghost predicate SnapshotTells(d: Definition, inputs: Inputs, log: seq<Event>, p: nat, q: nat, r: ReplayResult)
    requires p < q < |log| && log[q].step < |d.steps|
  {
    var i := log[q].step;
    log[q].Observed? && log[q].seen.Some? && log[p].step == i && !NothingEnds(d, log[q].seen.value, inputs) ==>
      q == |log| - 1 && EndedBy(d, log[q].seen.value, inputs, d.steps[i].stepId, i + 1, r)
  }

  lemma StepEvents(d: Definition, inputs: Inputs, generation: nat, i: nat, log: seq<Event>, r: ReplayResult)
    requires i < |d.steps| && StepTold(d, inputs, generation, i, log, Some(r))
    ensures EventsTell(d, inputs, generation, log, r)
  {
    LooksAreLate(d, inputs, generation, i, log, Some(r));
    forall p, q | 0 <= p < q < |log| && q == p + 1
      ensures SnapshotTells(d, inputs, log, p, q, r)
    {
      if q == |log| - 1 && |log| > 2 {
        assert log[q] == log[2..][|log[2..]| - 1];
      }
    }
  }

  /** The shape of a step: the call is its second event, and what is undecided comes before the last. */
  lemma LooksAreLate(
    d: Definition, inputs: Inputs, generation: nat, i: nat, log: seq<Event>, stop: Option<ReplayResult>)
    requires i < |d.steps| && StepTold(d, inputs, generation, i, log, stop)
    ensures forall p :: 0 <= p < |log| ==> log[p].step == i && (log[p].Called? <==> p == 1)
    ensures forall p :: 0 <= p < |log| - 1 && p != 1 ==> log[p].seen.Some?
    ensures forall p :: 2 <= p < |log| - 1 ==> NothingEnds(d, log[p].seen.value, inputs)
  {
    assert forall p :: 2 <= p < |log| ==> log[p] == log[2..][p - 2];
  }

  /** A step that goes on was executed, and nothing it saw after its action ends the run. */
  lemma StepGoesOn(d: Definition, inputs: Inputs, generation: nat, i: nat, log: seq<Event>)
    requires i < |d.steps| && StepTold(d, inputs, generation, i, log, None)
    ensures |log| > 2 && log[1].outcome == Executed && log[|log| - 1].Observed?
    ensures forall p :: 0 <= p < |log| ==> log[p].step == i && (log[p].Called? <==> p == 1)
    ensures forall p :: 0 <= p < |log| && p != 1 ==> log[p].seen.Some?
    ensures forall p :: 2 <= p < |log| ==> NothingEnds(d, log[p].seen.value, inputs)
  {
    LooksAreLate(d, inputs, generation, i, log, None);
    assert log[|log| - 1] == log[2..][|log[2..]| - 1];
  }

  lemma EventsGoOn(
    d: Definition, inputs: Inputs, generation: nat, i: nat, step: seq<Event>, rest: seq<Event>, r: ReplayResult)
    requires i < |d.steps| && StepTold(d, inputs, generation, i, step, None)
    requires EventsTell(d, inputs, generation, rest, r) && (rest != [] ==> rest[0].step == i + 1)
    ensures EventsTell(d, inputs, generation, step + rest, r)
  {
    StepGoesOn(d, inputs, generation, i, step);
    var log := step + rest;
    forall p | 0 <= p < |log|
      ensures log[p].step < |d.steps| && EventTells(d, generation, log, p, r)
    {
      if p >= |step| {
        assert log[p] == rest[p - |step|] && EventTells(d, generation, rest, p - |step|, r);
      }
    }
    forall p, q | 0 <= p < q < |log| && q == p + 1
      ensures SnapshotTells(d, inputs, log, p, q, r)
    {
      if p >= |step| {
        assert log[p] == rest[p - |step|] && log[q] == rest[q - |step|];
        assert SnapshotTells(d, inputs, rest, p - |step|, q - |step|, r);
      }
    }
  }

  lemma ToldEvents(d: Definition, inputs: Inputs, generation: nat, i: nat, log: seq<Event>, r: ReplayResult)
    requires RunTold(d, inputs, generation, i, log, r) && i <= |d.steps|
    ensures EventsTell(d, inputs, generation, log, r)
  {
    var told := StepsOf(d, inputs, generation);
    var claim := (k: nat, log: seq<Event>, r: ReplayResult) =>
      EventsTell(d, inputs, generation, log, r) && (log != [] ==> log[0].step == k);
    forall k: nat, log, r | k < |d.steps| && told(k, log, Some(r))
      ensures claim(k, log, r)
    {
      StepEvents(d, inputs, generation, k, log, r);
    }
    forall k: nat, a, b, r | k < |d.steps| && told(k, a, None) && claim(k + 1, b, r)
      ensures claim(k, a + b, r)
    {
      StepGoesOn(d, inputs, generation, k, a);
      EventsGoOn(d, inputs, generation, k, a, b, r);
    }
    StepsInduction(told, |d.steps|, claim, i, log, r);
  }

  /**
   * In every run: a call that needs approval ends it with a checkpoint of that very step; any other call that is not
   * executed ends it without one; and a snapshot seen after an action ends it exactly as declared: with the code of
   * the one rule that holds, with a success, or with a conflict.
   */
  lemma RunEndsAsTold<W(!new)>(e: Engine<W>, d: Definition, inputs: Inputs, start: nat, w: W)
    ensures var r := ExecuteFrom(e, d, inputs, start, w); EventsTell(d, inputs, e.generation, r.log, r.result)
  {
    RunTells(e, d, inputs, start, w);
    if start <= |d.steps| {
      var r := ExecuteFrom(e, d, inputs, start, w);
      ToldEvents(d, inputs, e.generation, start, r.log, r.result);
    }
  }

  ghost predicate AllAhead(k: nat, log: seq<Event>) { forall p :: 0 <= p < |log| ==> log[p].step >= k }

  lemma StepsStayAhead(told: Told, n: nat, i: nat, log: seq<Event>, r: ReplayResult)
    requires Steps(told, n, i, log, r) && i <= n
    requires forall k: nat, log, stop :: k < n && told(k, log, stop) ==> AllAhead(k, log)
    ensures AllAhead(i, log)
  {
    StepsInduction(told, n, (k: nat, log: seq<Event>, r: ReplayResult) => AllAhead(k, log), i, log, r);
  }

  /** A run never goes back behind the step it starts from. */
  lemma RunStaysAhead<W(!new)>(e: Engine<W>, d: Definition, inputs: Inputs, start: nat, w: W)
    ensures AllAhead(start, ExecuteFrom(e, d, inputs, start, w).log)
  {
    RunTells(e, d, inputs, start, w);
    if start <= |d.steps| {
      var told, r := StepsOf(d, inputs, e.generation), ExecuteFrom(e, d, inputs, start, w);
      forall k: nat, log, stop | k < |d.steps| && told(k, log, stop)
        ensures AllAhead(k, log)
      {
        LooksAreLate(d, inputs, e.generation, k, log, stop);
      }
      StepsStayAhead(told, |d.steps|, start, r.log, r.result);
    }
  }

  // ---- Resumption ------------------------------------------------------------------------------

  /**
   * A resumed run, told by the snapshot it starts on: it ends there when something declared as an end holds, goes on
   * behind the blocked step when that step's postcondition holds, at that step when the postcondition fails, and
   * stops without a call when neither can be told.
   */
  ghost predicate ResumesOn<W>(
    e: Engine<W>, d: Definition, c: Checkpoint, inputs: Inputs, current: Collected<W>, r: Run<W>)
    requires CheckpointFits(d, c)
  {
    var k, post := c.blockedIndex, d.steps[c.blockedIndex].postcondition;
    var seen := [Observed(k, SeenOf(current.snapshot))];
    match current.snapshot
    case Err(reason) => r == Run(Stopped(reason, Some(c.blockedStepId), k, None), current.world, seen)
    case Ok(s) =>
      if !NothingEnds(d, s, inputs) then
        r.log == seen && r.world == current.world && EndedBy(d, s, inputs, c.blockedStepId, k, r.result)
      else if post.Some? && HoldsOn(post.value, s, inputs) then
        r == After(seen, ExecuteFrom(e, d, inputs, k + 1, current.world)) && forall p :: 0 < p < |r.log| ==> r.log[p].step > k
      else if post.Some? && FailsOn(post.value, s, inputs) then
        r == After(seen, ExecuteFrom(e, d, inputs, k, current.world))
      else
        var why := if post.Some? && LacksInput(post.value, s, inputs) then InvalidInput else ResumeStateUnverified;
        r == Run(Stopped(why, Some(c.blockedStepId), k, None), current.world, seen)
  }

  /** The position a snapshot gives a resumed run. */
  lemma PositionMeans(d: Definition, c: Checkpoint, s: Snapshot, inputs: Inputs)
    requires CheckpointFits(d, c)
    ensures var p, k, post := ResumePosition(d, c, s, inputs), c.blockedIndex, d.steps[c.blockedIndex].postcondition;
      if !NothingEnds(d, s, inputs) then p.Ended? && EndedBy(d, s, inputs, c.blockedStepId, k, p.result)
      else if post.Some? && HoldsOn(post.value, s, inputs) then p == StartAt(k + 1)
      else if post.Some? && FailsOn(post.value, s, inputs) then p == StartAt(k)
      else
        var why := if post.Some? && LacksInput(post.value, s, inputs) then InvalidInput else ResumeStateUnverified;
        p == Ended(Stopped(why, Some(c.blockedStepId), k, None))
  {
    SnapshotEnds(d, s, inputs, c.blockedStepId, c.blockedIndex);
    var post := d.steps[c.blockedIndex].postcondition;
    if post.Some? {
      ConditionMeans(post.value, s, inputs);
    }
  }

  lemma ResumptionFollowsSnapshot<W(!new)>(e: Engine<W>, d: Definition, c: Checkpoint, inputs: Inputs, w: W)
    requires CheckpointFits(d, c)
    ensures ResumesOn(e, d, c, inputs, e.look(w), ResumeAt(e, d, c, inputs, w))
  {
    var current := e.look(w);
    if current.snapshot.Ok? {
      PositionMeans(d, c, current.snapshot.value, inputs);
      StaysBehind(e, d, inputs, c.blockedIndex, [Observed(c.blockedIndex, SeenOf(current.snapshot))], current.world);
    }
  }

  lemma StaysBehind<W(!new)>(e: Engine<W>, d: Definition, inputs: Inputs, k: nat, seen: seq<Event>, w: W)
    requires |seen| == 1
    ensures var r := After(seen, ExecuteFrom(e, d, inputs, k + 1, w)); forall p :: 0 < p < |r.log| ==> r.log[p].step > k
  {
    RunStaysAhead(e, d, inputs, k + 1, w);
  }
}
