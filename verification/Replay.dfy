/** Model-free execution of a validated capability, with checkpoints and resumption. */
module Replay {
  import opened Contracts
  import opened Evaluator
  import opened Gateway
  import opened Validator

  datatype Reason =
    | InvalidInput | MissingInput | ProfileIncompatible | BindingMissing | AmbiguousTarget | InspectionRaised
    | PreconditionFailed | PostconditionFailed | StepTimeout | NotFinished | TerminalStateConflict
    | OutputExtractionFailed | ResumeStateUnverified | InvalidReplayCheckpoint | CheckpointStale
    | ByGateway(reason: GatewayReason)

  datatype Checkpoint = Checkpoint(
    capabilityId: string, version: string, blockedStepId: string, blockedIndex: nat, suspendedGeneration: nat)

  /** A crash is the unhandled lookup of an input that the caller left out. */
  datatype ReplayResult =
    | Succeeded(outputs: seq<Extracted>, attempted: nat)
    | Business(code: string, attempted: nat)
    | Stopped(reason: Reason, stepId: Option<string>, attempted: nat, checkpoint: Option<Checkpoint>)
    | Crashed(stepId: Option<string>)
  {
    function Suspension(): Option<Checkpoint> {
      if Stopped? then checkpoint else None
    }
  }

  /** What a run did, in order. `seen` is None when the snapshot could not be collected. */
  datatype Event =
    | Observed(step: nat, seen: Option<Snapshot>)
    | Called(step: nat, action: Action, target: Target, outcome: GatewayOutcome, calls: seq<GatewayEvent>)

  datatype Run<W> = Run(result: ReplayResult, world: W, log: seq<Event>)

  function Fail(reason: Reason, stepId: string, attempted: nat): ReplayResult {
    Stopped(reason, Some(stepId), attempted, None)
  }

  // ---- Targets and snapshots --------------------------------------------------------

  /** Lexicographic order of strings. */
  predicate Before(a: string, b: string) {
    b != "" && (a == "" || a[0] < b[0] || (a[0] == b[0] && Before(a[1..], b[1..])))
  }

  function InsertTarget(t: Target, sorted: seq<Target>): seq<Target> {
    if sorted == [] then [t]
    else if sorted[0] == t then sorted
    else if Before(t, sorted[0]) then [t] + sorted
    else [sorted[0]] + InsertTarget(t, sorted[1..])
  }

  function InsertTargets(ts: seq<Target>, sorted: seq<Target>): seq<Target> {
    if ts == [] then sorted else InsertTargets(ts[1..], InsertTarget(ts[0], sorted))
  }

  function ConditionTargets(cs: seq<Condition>): seq<Target> {
    seq(|cs|, i requires 0 <= i < |cs| => cs[i].target)
  }

  function OutcomeTargets(rules: seq<OutcomeRule>): seq<Target> {
    if rules == [] then [] else ConditionTargets(rules[0].conditions) + OutcomeTargets(rules[1..])
  }

  function StepTargets(s: Step): seq<Target> {
    [s.action.target]
    + (if s.precondition.Some? then [s.precondition.value.target] else [])
    + (if s.postcondition.Some? then [s.postcondition.value.target] else [])
  }

  function StepsTargets(steps: seq<Step>): seq<Target> {
    if steps == [] then [] else StepTargets(steps[0]) + StepsTargets(steps[1..])
  }

  /** Every target the definition mentions, once, in order. */
  function TargetsFor(d: Definition): seq<Target> {
    var outputs := seq(|d.outputs|, i requires 0 <= i < |d.outputs| => d.outputs[i].target);
    InsertTargets(
      outputs + ConditionTargets(d.success) + OutcomeTargets(d.outcomes) + StepsTargets(d.steps), [])
  }

  lemma {:induction false} BeforeIsOrder(a: string, b: string, c: string)
    ensures Before(a, b) && Before(b, c) ==> Before(a, c)
    ensures a != b ==> Before(a, b) || Before(b, a)
    ensures !Before(a, a)
  {
    if a != "" && b != "" && c != "" {
      BeforeIsOrder(a[1..], b[1..], c[1..]);
      assert a == [a[0]] + a[1..] && b == [b[0]] + b[1..];
    } else if a != "" && b != "" {
      BeforeIsOrder(a[1..], b[1..], "");
      assert a == [a[0]] + a[1..] && b == [b[0]] + b[1..];
    } else if a != "" {
      BeforeIsOrder(a[1..], "", "");
    }
  }

  ghost predicate Sorted(ts: seq<Target>) {
    forall i, j :: 0 <= i < j < |ts| ==> Before(ts[i], ts[j])
  }

  lemma {:induction false} InsertSorts(t: Target, sorted: seq<Target>)
    requires Sorted(sorted)
    ensures Sorted(InsertTarget(t, sorted))
    ensures forall x :: x in InsertTarget(t, sorted) ==> x == t || x in sorted
  {
    if sorted != [] && sorted[0] != t {
      BeforeIsOrder(t, sorted[0], "");
      if Before(t, sorted[0]) {
        forall j | 0 < j < |sorted|
          ensures Before(t, sorted[j])
        {
          BeforeIsOrder(t, sorted[0], sorted[j]);
        }
      } else {
        InsertSorts(t, sorted[1..]);
        var rest := InsertTarget(t, sorted[1..]);
        forall j | 0 <= j < |rest|
          ensures Before(sorted[0], rest[j])
        {
          assert rest[j] in rest;
        }
      }
    }
  }

  lemma {:induction false} InsertAllSorts(ts: seq<Target>, sorted: seq<Target>)
    requires Sorted(sorted)
    ensures Sorted(InsertTargets(ts, sorted))
  {
    if ts != [] {
      InsertSorts(ts[0], sorted);
      InsertAllSorts(ts[1..], InsertTarget(ts[0], sorted));
    }
  }

  /** The targets come in strict order, so a snapshot of them observes no target twice. */
  lemma TargetsAreSorted(d: Definition)
    ensures Sorted(TargetsFor(d))
    ensures Distinct(TargetsFor(d))
  {
    var outputs := seq(|d.outputs|, i requires 0 <= i < |d.outputs| => d.outputs[i].target);
    InsertAllSorts(
      outputs + ConditionTargets(d.success) + OutcomeTargets(d.outcomes) + StepsTargets(d.steps), []);
    var ts := TargetsFor(d);
    forall i, j | 0 <= i < j < |ts|
      ensures ts[i] != ts[j]
    {
      BeforeIsOrder(ts[i], ts[i], "");
    }
  }

  function ToObservation(t: Target, i: Inspection): Observation
    requires i.Readable()
  {
    match i
    case SeenVisible(text) => Observation(t, Visible, text)
    case SeenHidden => Observation(t, NotVisible, None)
    case SeenUnavailable => Observation(t, Unavailable, None)
  }

  /** The observation shows what the inspection saw; what could not be read is unavailable. */
  predicate Pictures(o: Observation, t: Target, i: Inspection) {
    && o.target == t && (o.state == Visible <==> i.SeenVisible?) && (o.state == NotVisible <==> i.SeenHidden?)
    && o.text == if i.SeenVisible? then i.text else None
  }

  /** Ambiguity fails the collection; what an inspection raises leaves the engine, as the end of the run. */
  function WhyUnread(i: Inspection): Reason
    requires !i.Readable()
  {
    if i.Ambiguous? then AmbiguousTarget else InspectionRaised
  }

  predicate IsUnread(r: Reason) { r == AmbiguousTarget || r == InspectionRaised }

  datatype Collected<W> = Collected(snapshot: Result<Snapshot, Reason>, world: W)

  /** One inspection per target, in order, until one is unbound or cannot be read. */
  function Collect<W>(ports: Ports<W>, profile: Profile, targets: seq<Target>, w: W): Collected<W> {
    if targets == [] then Collected(Ok([]), w)
    else if targets[0] !in profile.bindings then Collected(Err(BindingMissing), w)
    else
      var (inspected, w') := ports.inspect(w, targets[0]);
      if !inspected.Readable() then Collected(Err(WhyUnread(inspected)), w')
      else
        var rest := Collect(ports, profile, targets[1..], w');
        if rest.snapshot.Err? then rest
        else Collected(Ok([ToObservation(targets[0], inspected)] + rest.snapshot.value), rest.world)
  }

  function SeenOf(r: Result<Snapshot, Reason>): Option<Snapshot> {
    if r.Ok? then Some(r.value) else None
  }

  // ---- Checks before a run ------------------------------------------------------------

  predicate InputFits(item: InputSpec, value: string) {
    && (item.minLength.Some? ==> |value| >= item.minLength.value)
    && (item.maxLength.Some? ==> |value| <= item.maxLength.value)
    && (item.pattern.Some? ==> item.pattern.value(value))
  }

  /** The first problem met in declaration order, after the check for undeclared names. */
  function InputProblem(items: seq<InputSpec>, inputs: Inputs): Option<Reason> {
    if items == [] then None
    else if items[0].name !in inputs then
      if items[0].required then Some(MissingInput) else InputProblem(items[1..], inputs)
    else if !InputFits(items[0], inputs[items[0].name]) then Some(InvalidInput)
    else InputProblem(items[1..], inputs)
  }

  function ValidateInputs(items: seq<InputSpec>, inputs: Inputs): Option<Reason> {
    if inputs.Keys <= Declared(items) then InputProblem(items, inputs) else Some(InvalidInput)
  }

  /** Inputs pass exactly when they are declared, the required ones are there, and each fits its declaration. */
  lemma InputsAreChecked(items: seq<InputSpec>, inputs: Inputs)
    ensures ValidateInputs(items, inputs) == None <==>
      inputs.Keys <= Declared(items) && forall k :: 0 <= k < |items| ==> InputPasses(items[k], inputs)
  {
    InputsPass(items, inputs);
  }

  predicate InputPasses(item: InputSpec, inputs: Inputs) {
    if item.name in inputs then InputFits(item, inputs[item.name]) else !item.required
  }

  lemma {:induction false} InputsPass(items: seq<InputSpec>, inputs: Inputs)
    ensures InputProblem(items, inputs) == None <==> forall k :: 0 <= k < |items| ==> InputPasses(items[k], inputs)
  {
    if items != [] {
      InputsPass(items[1..], inputs);
      assert forall k :: 0 < k < |items| ==> items[k] == items[1..][k - 1];
      assert forall k :: 0 <= k < |items[1..]| ==> items[1..][k] == items[k + 1];
    }
  }

  function ValidateProfile(d: Definition, profile: Profile): Option<Reason> {
    if d.family != profile.family then Some(ProfileIncompatible)
    else if forall t | t in TargetsFor(d) :: t in profile.bindings then None
    else Some(BindingMissing)
  }

  predicate CheckpointFits(d: Definition, c: Checkpoint) {
    && c.capabilityId == d.capabilityId && c.version == d.version
    && c.blockedIndex < |d.steps| && d.steps[c.blockedIndex].stepId == c.blockedStepId
  }

  // ---- Decisions on a snapshot -----------------------------------------------------------

  /** The result a snapshot ends the run with, or None when the run goes on. */
  function TerminalResult(d: Definition, snapshot: Snapshot, inputs: Inputs, stepId: string, attempted: nat)
    : Option<ReplayResult>
  {
    match EvaluateTerminal(d, snapshot, inputs)
    case BusinessOutcome(code) => Some(Business(code, attempted))
    case Conflict => Some(Fail(TerminalStateConflict, stepId, attempted))
    case Success =>
      var outputs := ExtractOutputs(d.outputs, snapshot);
      Some(if outputs.Ok? then Succeeded(outputs.value, attempted) else Fail(OutputExtractionFailed, stepId, attempted))
    case _ => None
  }

  datatype Position = StartAt(index: nat) | Ended(result: ReplayResult)

  /** Where a resumed run starts, decided from a fresh snapshot. */
  function ResumePosition(d: Definition, c: Checkpoint, snapshot: Snapshot, inputs: Inputs): Position
    requires CheckpointFits(d, c)
  {
    var terminal := TerminalResult(d, snapshot, inputs, c.blockedStepId, c.blockedIndex);
    if terminal.Some? then Ended(terminal.value)
    else
      var blocked := d.steps[c.blockedIndex];
      if blocked.postcondition.None? then Ended(Fail(ResumeStateUnverified, c.blockedStepId, c.blockedIndex))
      else
        var e := EvaluateCondition(blocked.postcondition.value, snapshot, inputs);
        if e.issue == Some(RuntimeInputMissing) then Ended(Fail(InvalidInput, c.blockedStepId, c.blockedIndex))
        else if e.result == Unknown then Ended(Fail(ResumeStateUnverified, c.blockedStepId, c.blockedIndex))
        else StartAt(if e.result == True then c.blockedIndex + 1 else c.blockedIndex)
  }

  /** The action with its runtime value, or None where the input is missing. */
  function Materialize(a: ActionTemplate, inputs: Inputs): Option<Action> {
    match a
    case ClickTemplate(_) => Some(Click)
    case FillTemplate(_, Literal(text)) => Some(Fill(text))
    case FillTemplate(_, Input(name)) => if name in inputs then Some(Fill(inputs[name])) else None
  }

  // ---- Execution ----------------------------------------------------------------------------

  /** What the loop is given: how to look at the surface, how to act on it, and its generation. */
  datatype Engine<!W> = Engine(
    generation: nat, look: W -> Collected<W>, act: (W, Action, Target) -> GatewayRun<W>)

  function EngineFor<W>(ports: Ports<W>, d: Definition, ctx: Context): Engine<W> {
    Engine(
      ctx.generation,
      w => Collect(ports, ctx.profile, TargetsFor(d), w),
      (w, action, target) => Execute(ports, ctx.profile, ctx.generation, action, target, w))
  }

  function MaxObservations(s: Step): nat {
    if s.retry.Some? then s.retry.value.maxAttempts else 1
  }

  /** What one observation after the action decides. */
  datatype Verdict3 = Finish(result: ReplayResult) | PostMet | LookAgain

  function Look(d: Definition, inputs: Inputs, i: nat, after: Snapshot): Verdict3
    requires i < |d.steps|
  {
    var step := d.steps[i];
    var terminal := TerminalResult(d, after, inputs, step.stepId, i + 1);
    if terminal.Some? then Finish(terminal.value)
    else if step.postcondition.None? then LookAgain
    else
      var post := EvaluateCondition(step.postcondition.value, after, inputs);
      if post.issue == Some(RuntimeInputMissing) then Finish(Fail(InvalidInput, step.stepId, i + 1))
      else if post.result == True then PostMet
      else if post.result == False && step.retry.None? then Finish(Fail(PostconditionFailed, step.stepId, i + 1))
      else LookAgain
  }

  datatype StepRun<W> = StepRun(stop: Option<ReplayResult>, world: W, log: seq<Event>)

  /** The observations after the action of step `i`, from the given attempt on. */
  function Watch<W>(e: Engine<W>, d: Definition, inputs: Inputs, i: nat, attempt: nat, w: W)
    : StepRun<W>
    requires i < |d.steps| && attempt <= MaxObservations(d.steps[i])
    decreases MaxObservations(d.steps[i]) - attempt
  {
    var step := d.steps[i];
    if attempt == MaxObservations(step) then
      if step.retry.Some? && step.postcondition.Some?
      then StepRun(Some(Fail(StepTimeout, step.stepId, i + 1)), w, [])
      else StepRun(None, w, [])
    else
      var c := e.look(w);
      var seen := [Observed(i, SeenOf(c.snapshot))];
      if c.snapshot.Err? then StepRun(Some(Fail(c.snapshot.error, step.stepId, i + 1)), c.world, seen)
      else
        match Look(d, inputs, i, c.snapshot.value)
        case Finish(result) => StepRun(Some(result), c.world, seen)
        case PostMet => StepRun(None, c.world, seen)
        case LookAgain =>
          var rest := Watch(e, d, inputs, i, attempt + 1, c.world);
          StepRun(rest.stop, rest.world, seen + rest.log)
  }

  /** One step: observe, check the precondition, call the gateway once, watch. */
  function RunStep<W>(e: Engine<W>, d: Definition, inputs: Inputs, i: nat, w: W): StepRun<W>
    requires i < |d.steps|
  {
    var step := d.steps[i];
    var before := e.look(w);
    var seen := [Observed(i, SeenOf(before.snapshot))];
    if before.snapshot.Err? then StepRun(Some(Fail(before.snapshot.error, step.stepId, i + 1)), before.world, seen)
    else
      var pre := if step.precondition.Some?
                 then EvaluateCondition(step.precondition.value, before.snapshot.value, inputs)
                 else Evaluation(True, None);
      if pre.issue == Some(RuntimeInputMissing) then
        StepRun(Some(Fail(InvalidInput, step.stepId, i)), before.world, seen)
      else if pre.result != True then
        StepRun(Some(Fail(PreconditionFailed, step.stepId, i)), before.world, seen)
      else
        var action := Materialize(step.action, inputs);
        if action.None? then StepRun(Some(Crashed(Some(step.stepId))), before.world, seen)
        else
          var g := e.act(before.world, action.value, step.action.target);
          var called := seen + [Called(i, action.value, step.action.target, g.outcome, g.events)];
          if g.outcome != Executed then
            StepRun(Some(Stopped(ByGateway(g.reason), Some(step.stepId), i + 1, CheckpointFor(d, e.generation, i, g.outcome))),
                    g.world, called)
          else
            var watched := Watch(e, d, inputs, i, 0, g.world);
            StepRun(watched.stop, watched.world, called + watched.log)
  }

  function CheckpointFor(d: Definition, generation: nat, i: nat, outcome: GatewayOutcome): Option<Checkpoint>
    requires i < |d.steps|
  {
    if outcome == ApprovalRequired
    then Some(Checkpoint(d.capabilityId, d.version, d.steps[i].stepId, i, generation))
    else None
  }

  function ExecuteFrom<W>(e: Engine<W>, d: Definition, inputs: Inputs, start: nat, w: W): Run<W>
    decreases |d.steps| - start
  {
    if start >= |d.steps| then Run(Stopped(NotFinished, None, |d.steps|, None), w, [])
    else
      var s := RunStep(e, d, inputs, start, w);
      if s.stop.Some? then Run(s.stop.value, s.world, s.log)
      else
        var rest := ExecuteFrom(e, d, inputs, start + 1, s.world);
        Run(rest.result, rest.world, s.log + rest.log)
  }

  function RunOf<W>(e: Engine<W>, d: Definition, inputs: Inputs): (nat, W) -> Run<W> {
    (i: nat, w: W) => ExecuteFrom(e, d, inputs, i, w)
  }

  /** `run` goes from step to step until one stops it, or none is left. */
  ghost predicate Unrolls<W(!new)>(run: (nat, W) -> Run<W>, e: Engine<W>, d: Definition, inputs: Inputs) {
    && (forall w: W :: run(|d.steps|, w) == Run(Stopped(NotFinished, None, |d.steps|, None), w, []))
    && (forall i: nat, w: W {:trigger RunStep(e, d, inputs, i, w)} :: i < |d.steps| ==>
          var s := RunStep(e, d, inputs, i, w);
          run(i, w) == if s.stop.Some? then Run(s.stop.value, s.world, s.log) else After(s.log, run(i + 1, s.world)))
  }

  lemma RunOfUnrolls<W(!new)>(e: Engine<W>, d: Definition, inputs: Inputs)
    ensures Unrolls(RunOf(e, d, inputs), e, d, inputs)
  {
    forall i: nat, w: W | i < |d.steps|
      ensures var s := RunStep(e, d, inputs, i, w);
        RunOf(e, d, inputs)(i, w) ==
          if s.stop.Some? then Run(s.stop.value, s.world, s.log)
          else After(s.log, RunOf(e, d, inputs)(i + 1, s.world))
    {
      RunUnfolds(e, d, inputs, i, w);
    }
  }

  method ExecuteSteps<W(!new)>(e: Engine<W>, d: Definition, inputs: Inputs, start: nat, w: W) returns (r: Run<W>)
    requires start <= |d.steps|
    ensures r == ExecuteFrom(e, d, inputs, start, w)
  {
    RunOfUnrolls(e, d, inputs);
    r := ExecuteLoop(RunOf(e, d, inputs), e, d, inputs, start, w);
  }

  /** The engine's loop over the steps. */
  method ExecuteLoop<W(!new)>(
    ghost run: (nat, W) -> Run<W>, e: Engine<W>, d: Definition, inputs: Inputs, start: nat, w0: W) returns (r: Run<W>)
    requires start <= |d.steps| && Unrolls(run, e, d, inputs)
    ensures r == run(start, w0)
  {
    var w, log := w0, [];
    AfterNothing(run(start, w0));
    for i := start to |d.steps|
      invariant run(start, w0) == After(log, run(i, w))
    {
      var s := NextStep(run, log, e, d, inputs, i, w);
      w, log := s.world, log + s.log;
      if s.stop.Some? {
        return Run(s.stop.value, w, log);
      }
    }
    return Run(Stopped(NotFinished, None, |d.steps|, None), w, log);
  }

  /** The step at `i`, and where the run goes from it. */
  method NextStep<W(!new)>(
    ghost run: (nat, W) -> Run<W>, ghost log: seq<Event>, e: Engine<W>, d: Definition, inputs: Inputs, i: nat, w: W)
    returns (s: StepRun<W>)
    requires i < |d.steps| && Unrolls(run, e, d, inputs)
    ensures After(log, run(i, w)) ==
      if s.stop.Some? then Run(s.stop.value, s.world, log + s.log)
      else After(log + s.log, run(i + 1, s.world))
  {
    s := PerformStep(e, d, inputs, i, w);
    AfterTwice(log, s.log, run(i + 1, s.world));
  }

  method PerformStep<W>(e: Engine<W>, d: Definition, inputs: Inputs, i: nat, w: W)
    returns (s: StepRun<W>)
    requires i < |d.steps|
    ensures s == RunStep(e, d, inputs, i, w)
  {
    var step := d.steps[i];
    var before := e.look(w);
    var log := [Observed(i, SeenOf(before.snapshot))];
    if before.snapshot.Err? {
      return StepRun(Some(Fail(before.snapshot.error, step.stepId, i + 1)), before.world, log);
    }
    if step.precondition.Some? {
      var condition := EvaluateCondition(step.precondition.value, before.snapshot.value, inputs);
      if condition.issue == Some(RuntimeInputMissing) {
        return StepRun(Some(Fail(InvalidInput, step.stepId, i)), before.world, log);
      }
      if condition.result != True {
        return StepRun(Some(Fail(PreconditionFailed, step.stepId, i)), before.world, log);
      }
    }
    var action := Materialize(step.action, inputs);
    if action.None? {
      return StepRun(Some(Crashed(Some(step.stepId))), before.world, log);
    }
    var g := e.act(before.world, action.value, step.action.target);
    log := log + [Called(i, action.value, step.action.target, g.outcome, g.events)];
    if g.outcome != Executed {
      var checkpoint := CheckpointFor(d, e.generation, i, g.outcome);
      return StepRun(Some(Stopped(ByGateway(g.reason), Some(step.stepId), i + 1, checkpoint)), g.world, log);
    }
    var watched := WatchStep(e, d, inputs, i, g.world);
    return StepRun(watched.stop, watched.world, log + watched.log);
  }

  /** The loop over the observations after the action, which stops early on a verdict. */
  method WatchStep<W>(e: Engine<W>, d: Definition, inputs: Inputs, i: nat, w0: W)
    returns (s: StepRun<W>)
    requires i < |d.steps|
    ensures s == Watch(e, d, inputs, i, 0, w0)
  {
    var step := d.steps[i];
    var w, log := w0, [];
    var maxObservations := MaxObservations(step);
    var postconditionMet := step.postcondition.None?;
    ghost var whole := Watch(e, d, inputs, i, 0, w0);
    assert [] + whole.log == whole.log;
    var attempt := 0;
    while attempt < maxObservations
      invariant attempt <= maxObservations
      invariant postconditionMet == step.postcondition.None?
      invariant whole == Behind(log, Watch(e, d, inputs, i, attempt, w))
      decreases maxObservations - attempt
    {
      UnfoldWatch(log, e, d, inputs, i, attempt, w);
      var after := e.look(w);
      w, log := after.world, log + [Observed(i, SeenOf(after.snapshot))];
      if after.snapshot.Err? {
        return StepRun(Some(Fail(after.snapshot.error, step.stepId, i + 1)), w, log);
      }
      var terminal := TerminalResult(d, after.snapshot.value, inputs, step.stepId, i + 1);
      if terminal.Some? {
        return StepRun(terminal, w, log);
      }
      if step.postcondition.Some? {
        var condition := EvaluateCondition(step.postcondition.value, after.snapshot.value, inputs);
        if condition.issue == Some(RuntimeInputMissing) {
          return StepRun(Some(Fail(InvalidInput, step.stepId, i + 1)), w, log);
        }
        if condition.result == True {
          postconditionMet := true;
          break;
        }
        if condition.result == False && step.retry.None? {
          return StepRun(Some(Fail(PostconditionFailed, step.stepId, i + 1)), w, log);
        }
      }
      attempt := attempt + 1;
    }
    if step.retry.Some? && !postconditionMet {
      return StepRun(Some(Fail(StepTimeout, step.stepId, i + 1)), w, log);
    }
    return StepRun(None, w, log);
  }

  ghost function Behind<W>(log: seq<Event>, s: StepRun<W>): StepRun<W> {
    s.(log := log + s.log)
  }

  lemma UnfoldWatch<W>(
    log: seq<Event>, e: Engine<W>, d: Definition, inputs: Inputs, i: nat, attempt: nat, w: W)
    requires i < |d.steps| && attempt < MaxObservations(d.steps[i])
    ensures
      var c := e.look(w);
      var log' := log + [Observed(i, SeenOf(c.snapshot))];
      Behind(log, Watch(e, d, inputs, i, attempt, w)) ==
        if c.snapshot.Err? then StepRun(Some(Fail(c.snapshot.error, d.steps[i].stepId, i + 1)), c.world, log')
        else match Look(d, inputs, i, c.snapshot.value)
          case Finish(result) => StepRun(Some(result), c.world, log')
          case PostMet => StepRun(None, c.world, log')
          case LookAgain => Behind(log', Watch(e, d, inputs, i, attempt + 1, c.world))
  {
    var c := e.look(w);
    var seen := [Observed(i, SeenOf(c.snapshot))];
    var rest := Watch(e, d, inputs, i, attempt + 1, c.world);
    assert log + (seen + rest.log) == (log + seen) + rest.log;
  }

  /** A run that comes after the events already logged. */
  function After<W>(log: seq<Event>, r: Run<W>): Run<W> {
    r.(log := log + r.log)
  }

  lemma RunUnfolds<W>(e: Engine<W>, d: Definition, inputs: Inputs, i: nat, w: W)
    requires i < |d.steps|
    ensures var s, r := RunStep(e, d, inputs, i, w), ExecuteFrom(e, d, inputs, i, w);
      if s.stop.Some? then r == Run(s.stop.value, s.world, s.log)
      else r == After(s.log, ExecuteFrom(e, d, inputs, i + 1, s.world))
  {
  }

  lemma AfterNothing<W>(r: Run<W>)
    ensures After([], r) == r
  {
    assert [] + r.log == r.log;
  }

  lemma AfterTwice<W>(a: seq<Event>, b: seq<Event>, r: Run<W>)
    ensures After(a, After(b, r)) == After(a + b, r)
  {
    assert a + (b + r.log) == (a + b) + r.log;
  }

  /** What a run's result and log are claimed to be, for the step it starts from. */
  type Claim = (nat, ReplayResult, seq<Event>) -> bool

  /** A step that stops the run establishes the claim; any other carries it back from the step after it. */
  ghost predicate StepProves<W>(claim: Claim, i: nat, s: StepRun<W>) {
    if s.stop.Some? then claim(i, s.stop.value, s.log)
    else forall result, log :: claim(i + 1, result, log) ==> claim(i, result, s.log + log)
  }

  /** Induction over the steps of a run. */
  lemma {:induction false} RunInduction<W(!new)>(
    e: Engine<W>, d: Definition, inputs: Inputs, claim: Claim, start: nat, w: W)
    requires forall i: nat :: claim(i, Stopped(NotFinished, None, |d.steps|, None), [])
    requires forall i: nat, w: W :: i < |d.steps| ==> StepProves(claim, i, RunStep(e, d, inputs, i, w))
    ensures var r := ExecuteFrom(e, d, inputs, start, w); claim(start, r.result, r.log)
    decreases |d.steps| - start
  {
    if start < |d.steps| {
      var s := RunStep(e, d, inputs, start, w);
      assert StepProves(claim, start, s);
      RunUnfolds(e, d, inputs, start, w);
      if s.stop.None? {
        RunInduction(e, d, inputs, claim, start + 1, s.world);
      }
    }
  }

  /** What the observations after an action are claimed to be, for the attempt they start from. */
  type WatchClaim = (nat, Option<ReplayResult>, seq<Event>) -> bool

  function Exhausted(step: Step, i: nat): Option<ReplayResult> {
    if step.retry.Some? && step.postcondition.Some? then Some(Fail(StepTimeout, step.stepId, i + 1)) else None
  }

  /** One look establishes the claim, or carries it back from the next attempt. */
  ghost predicate LookProves(
    claim: WatchClaim, d: Definition, inputs: Inputs, i: nat, attempt: nat, snapshot: Result<Snapshot, Reason>)
    requires i < |d.steps|
  {
    var seen := [Observed(i, SeenOf(snapshot))];
    if snapshot.Err? then claim(attempt, Some(Fail(snapshot.error, d.steps[i].stepId, i + 1)), seen)
    else
      match Look(d, inputs, i, snapshot.value)
      case Finish(result) => claim(attempt, Some(result), seen)
      case PostMet => claim(attempt, None, seen)
      case LookAgain => forall stop, log :: claim(attempt + 1, stop, log) ==> claim(attempt, stop, seen + log)
  }

  /** Induction over the attempts of a step. */
  lemma {:induction false} WatchInduction<W(!new)>(
    e: Engine<W>, d: Definition, inputs: Inputs, i: nat, claim: WatchClaim, attempt: nat, w: W)
    requires i < |d.steps| && attempt <= MaxObservations(d.steps[i])
    requires claim(MaxObservations(d.steps[i]), Exhausted(d.steps[i], i), [])
    requires forall k: nat, w: W :: k < MaxObservations(d.steps[i]) ==>
      LookProves(claim, d, inputs, i, k, e.look(w).snapshot)
    ensures var s := Watch(e, d, inputs, i, attempt, w); claim(attempt, s.stop, s.log)
    decreases MaxObservations(d.steps[i]) - attempt
  {
    if attempt < MaxObservations(d.steps[i]) {
      var c := e.look(w);
      assert LookProves(claim, d, inputs, i, attempt, c.snapshot);
      if c.snapshot.Ok? && Look(d, inputs, i, c.snapshot.value).LookAgain? {
        WatchInduction(e, d, inputs, i, claim, attempt + 1, c.world);
      }
    }
  }

  // ---- Entry points --------------------------------------------------------------------------

  function Refused<W>(reason: Reason, w: W): Run<W> {
    Run(Stopped(reason, None, 0, None), w, [])
  }

  function Start<W>(ports: Ports<W>, d: Definition, inputs: Inputs, ctx: Context, w: W): Run<W> {
    var inputProblem := ValidateInputs(d.inputs, inputs);
    if inputProblem.Some? then Refused(inputProblem.value, w)
    else
      var profileProblem := ValidateProfile(d, ctx.profile);
      if profileProblem.Some? then Refused(profileProblem.value, w)
      else ExecuteFrom(EngineFor(ports, d, ctx), d, inputs, 0, w)
  }

  function Resume<W>(ports: Ports<W>, d: Definition, c: Checkpoint, inputs: Inputs, ctx: Context, w: W): Run<W> {
    var inputProblem := ValidateInputs(d.inputs, inputs);
    if inputProblem.Some? then Refused(inputProblem.value, w)
    else
      var profileProblem := ValidateProfile(d, ctx.profile);
      if profileProblem.Some? then Refused(profileProblem.value, w)
      else if !CheckpointFits(d, c) then
        Run(Fail(InvalidReplayCheckpoint, c.blockedStepId, c.blockedIndex), w, [])
      else if ctx.generation <= c.suspendedGeneration then
        Run(Fail(CheckpointStale, c.blockedStepId, c.blockedIndex), w, [])
      else
        ResumeAt(EngineFor(ports, d, ctx), d, c, inputs, w)
  }

  /** Look again, and go on from where the fresh snapshot says. */
  function ResumeAt<W>(e: Engine<W>, d: Definition, c: Checkpoint, inputs: Inputs, w: W): Run<W>
    requires CheckpointFits(d, c)
  {
    var current := e.look(w);
    var seen := [Observed(c.blockedIndex, SeenOf(current.snapshot))];
    if current.snapshot.Err? then
      Run(Fail(current.snapshot.error, c.blockedStepId, c.blockedIndex), current.world, seen)
    else
      match ResumePosition(d, c, current.snapshot.value, inputs)
      case Ended(result) => Run(result, current.world, seen)
      case StartAt(index) => After(seen, ExecuteFrom(e, d, inputs, index, current.world))
  }

  datatype Validation = Valid(terminal: bool) | Invalid(reason: Reason)

  datatype Validated<W> = Validated(answer: Validation, world: W)

  /** Whether the state an operator handed back is safe to resume from. */
  function ValidateResume<W>(ports: Ports<W>, d: Definition, c: Checkpoint, inputs: Inputs, ctx: Context, w: W)
    : Validated<W>
  {
    var inputProblem, profileProblem := ValidateInputs(d.inputs, inputs), ValidateProfile(d, ctx.profile);
    if inputProblem.Some? then Validated(Invalid(inputProblem.value), w)
    else if profileProblem.Some? then Validated(Invalid(profileProblem.value), w)
    else if !CheckpointFits(d, c) then Validated(Invalid(InvalidReplayCheckpoint), w)
    else
      var current := Collect(ports, ctx.profile, TargetsFor(d), w);
      if current.snapshot.Err? then Validated(Invalid(current.snapshot.error), current.world)
      else
        match ResumePosition(d, c, current.snapshot.value, inputs)
        case StartAt(_) => Validated(Valid(false), current.world)
        case Ended(Stopped(reason, _, _, _)) => Validated(Invalid(reason), current.world)
        case Ended(_) => Validated(Valid(true), current.world)
  }
}
