/** Which runs and resumptions are refused before they look, why, and what validation answers. */
module ReplayGuards {
  import opened Contracts
  import opened Evaluator
  import opened Meanings
  import opened Gateway
  import opened Validator
  import opened Replay
  import opened ReplayEnds
  import ReplaySoundness

  // ---- The targets of a definition ----------------------------------------------------------

  predicate Mentions(d: Definition, t: Target) {
    || (exists k | 0 <= k < |d.outputs| :: d.outputs[k].target == t)
    || (exists k | 0 <= k < |d.success| :: d.success[k].target == t)
    || (exists k | 0 <= k < |d.outcomes| :: exists l | 0 <= l < |d.outcomes[k].conditions| :: d.outcomes[k].conditions[l].target == t)
    || (exists k | 0 <= k < |d.steps| :: StepMentions(d.steps[k], t))
  }

  predicate StepMentions(s: Step, t: Target) {
    || s.action.target == t
    || (s.precondition.Some? && s.precondition.value.target == t)
    || (s.postcondition.Some? && s.postcondition.value.target == t)
  }

  lemma {:induction false} OutcomeTargetsMean(rules: seq<OutcomeRule>, t: Target)
    ensures t in OutcomeTargets(rules) ==>
      exists k :: 0 <= k < |rules| && exists l :: 0 <= l < |rules[k].conditions| && rules[k].conditions[l].target == t
  {
    if t in OutcomeTargets(rules) {
      var first := ConditionTargets(rules[0].conditions);
      if t in first {
        var l :| 0 <= l < |first| && first[l] == t;
        assert rules[0].conditions[l].target == t;
      } else {
        OutcomeTargetsMean(rules[1..], t);
        var k :| 0 <= k < |rules[1..]| && exists l :: 0 <= l < |rules[1..][k].conditions| && rules[1..][k].conditions[l].target == t;
        assert rules[k + 1] == rules[1..][k];
      }
    }
  }

  lemma {:induction false} StepsTargetsMean(steps: seq<Step>, t: Target)
    ensures t in StepsTargets(steps) ==> exists k :: 0 <= k < |steps| && StepMentions(steps[k], t)
  {
    if t in StepsTargets(steps) && t !in StepTargets(steps[0]) {
      StepsTargetsMean(steps[1..], t);
      var k :| 0 <= k < |steps[1..]| && StepMentions(steps[1..][k], t);
      assert steps[k + 1] == steps[1..][k];
    }
  }

  /** A replay looks at exactly the targets its definition mentions. */
  lemma TargetsAreMentioned(d: Definition, t: Target)
    ensures t in TargetsFor(d) <==> Mentions(d, t)
  {
    ReplaySoundness.TargetsAreComplete(d);
    if Mentions(d, t) {
      StepTargetsMention(d, t);
    }
    if t in TargetsFor(d) {
      var outputs := seq(|d.outputs|, i requires 0 <= i < |d.outputs| => d.outputs[i].target);
      ReplaySoundness.InsertAllKeeps(
        outputs + ConditionTargets(d.success) + OutcomeTargets(d.outcomes) + StepsTargets(d.steps), []);
      OutcomeTargetsMean(d.outcomes, t);
      StepsTargetsMean(d.steps, t);
    }
  }

  lemma StepTargetsMention(d: Definition, t: Target)
    ensures forall k :: 0 <= k < |d.steps| && StepMentions(d.steps[k], t) ==> t in StepTargets(d.steps[k])
  {
  }

  // ---- The inputs -------------------------------------------------------------------------------

  predicate IsUndeclared(items: seq<InputSpec>, name: string) {
    forall k :: 0 <= k < |items| ==> items[k].name != name
  }

  /** A given input is within its limits and pattern, a required one is given. */
  predicate Fulfils(item: InputSpec, inputs: Inputs) {
    if item.name !in inputs then !item.required
    else
      var value := inputs[item.name];
      && (item.minLength == None || item.minLength.value <= |value|)
      && (item.maxLength == None || |value| <= item.maxLength.value)
      && (item.pattern == None || item.pattern.value(value))
  }

  ghost predicate InputsFit(items: seq<InputSpec>, inputs: Inputs) {
    && (forall name :: name in inputs ==> !IsUndeclared(items, name))
    && (forall k :: 0 <= k < |items| ==> Fulfils(items[k], inputs))
  }

  ghost predicate FirstFault(items: seq<InputSpec>, inputs: Inputs, k: nat) {
    k < |items| && !Fulfils(items[k], inputs) && forall j :: 0 <= j < k ==> Fulfils(items[j], inputs)
  }

  /** Undeclared names come first; otherwise the first declaration that is not fulfilled tells. */
  ghost predicate InputFault(items: seq<InputSpec>, inputs: Inputs, reason: Reason) {
    if exists name :: name in inputs && IsUndeclared(items, name) then reason == InvalidInput
    else exists k: nat :: FirstFault(items, inputs, k) && reason == if items[k].name in inputs then InvalidInput else MissingInput
  }

  lemma {:induction false} ProblemIsFirstFault(items: seq<InputSpec>, inputs: Inputs)
    ensures var problem := InputProblem(items, inputs);
      if problem.None? then forall k :: 0 <= k < |items| ==> Fulfils(items[k], inputs)
      else exists k: nat :: FirstFault(items, inputs, k) && problem.value == if items[k].name in inputs then InvalidInput else MissingInput
  {
    if items != [] {
      if !Fulfils(items[0], inputs) {
        assert FirstFault(items, inputs, 0);
      } else {
        ProblemIsFirstFault(items[1..], inputs);
        assert forall k :: 0 < k < |items| ==> items[k] == items[1..][k - 1];
        var problem := InputProblem(items[1..], inputs);
        if problem.Some? {
          var k: nat :| FirstFault(items[1..], inputs, k)
                   && problem.value == if items[1..][k].name in inputs then InvalidInput else MissingInput;
          assert FirstFault(items, inputs, k + 1);
        }
      }
    }
  }

  /** A declaration without a pattern can be fulfilled by some text exactly when its lengths are in order. */
  lemma LengthsCanBeMet(item: InputSpec)
    requires item.pattern.None?
    ensures LengthsInOrder(item) <==> exists value: string :: Fulfils(item, map[item.name := value])
  {
    if LengthsInOrder(item) {
      var n := if item.minLength.Some? then item.minLength.value else 0;
      var value: string := seq(n, i => 'a');
      assert Fulfils(item, map[item.name := value]);
    }
  }

  lemma InputsMean(items: seq<InputSpec>, inputs: Inputs)
    ensures var problem := ValidateInputs(items, inputs);
      if problem.None? then InputsFit(items, inputs) else !InputsFit(items, inputs) && InputFault(items, inputs, problem.value)
  {
    ProblemIsFirstFault(items, inputs);
    forall name | name in inputs
      ensures name in Declared(items) <==> !IsUndeclared(items, name)
    {
    }
    assert inputs.Keys <= Declared(items) <==> forall name :: name in inputs ==> !IsUndeclared(items, name);
  }

  // ---- Starting ----------------------------------------------------------------------------------

  ghost predicate MayRun(d: Definition, inputs: Inputs, profile: Profile) {
    && InputsFit(d.inputs, inputs) && d.family == profile.family
    && forall t :: Mentions(d, t) ==> t in profile.bindings
  }

  /** Why a run is refused: its inputs, then the profile's family, then its bindings. */
  ghost predicate IsRefused(d: Definition, inputs: Inputs, profile: Profile, reason: Reason) {
    if !InputsFit(d.inputs, inputs) then InputFault(d.inputs, inputs, reason)
    else if d.family != profile.family then reason == ProfileIncompatible
    else (exists t :: Mentions(d, t) && t !in profile.bindings) && reason == BindingMissing
  }

  lemma ChecksMean(d: Definition, inputs: Inputs, profile: Profile)
    ensures var inputProblem, profileProblem := ValidateInputs(d.inputs, inputs), ValidateProfile(d, profile);
      && (MayRun(d, inputs, profile) <==> inputProblem.None? && profileProblem.None?)
      && (inputProblem.Some? ==> IsRefused(d, inputs, profile, inputProblem.value))
      && (inputProblem.None? && profileProblem.Some? ==> IsRefused(d, inputs, profile, profileProblem.value))
  {
    InputsMean(d.inputs, inputs);
    forall t
      ensures t in TargetsFor(d) <==> Mentions(d, t)
    {
      TargetsAreMentioned(d, t);
    }
  }

  /** The run was refused before it looked at anything. */
  ghost predicate RefusedFor<W>(d: Definition, inputs: Inputs, profile: Profile, w: W, r: Run<W>) {
    exists reason :: IsRefused(d, inputs, profile, reason) && r == Run(Stopped(reason, None, 0, None), w, [])
  }

  /** A run starts at its first step exactly when its inputs fit and the profile binds what it mentions. */
  lemma StartsExactlyWhen<W>(ports: Ports<W>, d: Definition, inputs: Inputs, ctx: Context, w: W)
    ensures var r := Start(ports, d, inputs, ctx, w);
      if MayRun(d, inputs, ctx.profile) then r == ExecuteFrom(EngineFor(ports, d, ctx), d, inputs, 0, w)
      else RefusedFor(d, inputs, ctx.profile, w, r)
  {
    ChecksMean(d, inputs, ctx.profile);
  }

  /** The checkpoint names a step of this definition. */
  predicate NamesStep(d: Definition, c: Checkpoint) {
    && c.capabilityId == d.capabilityId && c.version == d.version
    && 0 <= c.blockedIndex < |d.steps| && c.blockedStepId == d.steps[c.blockedIndex].stepId
  }

  /**
   * A suspended run is resumed exactly when it could be started, its checkpoint names a step of the definition, and
   * the generation is newer than the one it was suspended at.
   */
  lemma ResumesExactlyWhen<W(!new)>(ports: Ports<W>, d: Definition, c: Checkpoint, inputs: Inputs, ctx: Context, w: W)
    ensures var r := Resume(ports, d, c, inputs, ctx, w);
      if !MayRun(d, inputs, ctx.profile) then RefusedFor(d, inputs, ctx.profile, w, r)
      else if !NamesStep(d, c) then
        r == Run(Stopped(InvalidReplayCheckpoint, Some(c.blockedStepId), c.blockedIndex, None), w, [])
      else if ctx.generation <= c.suspendedGeneration then
        r == Run(Stopped(CheckpointStale, Some(c.blockedStepId), c.blockedIndex, None), w, [])
      else CheckpointFits(d, c) && var e := EngineFor(ports, d, ctx); ResumesOn(e, d, c, inputs, e.look(w), r)
  {
    ChecksMean(d, inputs, ctx.profile);
    if CheckpointFits(d, c) {
      ResumptionFollowsSnapshot(EngineFor(ports, d, ctx), d, c, inputs, w);
    }
  }

  /** What validation answers for a fresh snapshot. */
  ghost predicate IsValidated(d: Definition, c: Checkpoint, inputs: Inputs, s: Snapshot, v: Validation)
    requires NamesStep(d, c)
  {
    var post := d.steps[c.blockedIndex].postcondition;
    if !NothingEnds(d, s, inputs) then
      exists r :: EndedBy(d, s, inputs, c.blockedStepId, c.blockedIndex, r)
                  && v == if r.Stopped? then Invalid(r.reason) else Valid(true)
    else if post.Some? && (HoldsOn(post.value, s, inputs) || FailsOn(post.value, s, inputs)) then v == Valid(false)
    else v == Invalid(if post.Some? && LacksInput(post.value, s, inputs) then InvalidInput else ResumeStateUnverified)
  }

  /** Validation refuses what resumption would refuse, but for the generation, and decides on the snapshot alone. */
  lemma ValidationMeans<W(!new)>(ports: Ports<W>, d: Definition, c: Checkpoint, inputs: Inputs, ctx: Context, w: W)
    ensures var v := ValidateResume(ports, d, c, inputs, ctx, w).answer;
      if !MayRun(d, inputs, ctx.profile) then v.Invalid? && IsRefused(d, inputs, ctx.profile, v.reason)
      else if !NamesStep(d, c) then v == Invalid(InvalidReplayCheckpoint)
      else
        var current := Collect(ports, ctx.profile, TargetsFor(d), w).snapshot;
        if current.Err? then v == Invalid(current.error) else IsValidated(d, c, inputs, current.value, v)
  {
    ChecksMean(d, inputs, ctx.profile);
    if MayRun(d, inputs, ctx.profile) && NamesStep(d, c) {
      var current := Collect(ports, ctx.profile, TargetsFor(d), w).snapshot;
      if current.Ok? {
        PositionMeans(d, c, current.value, inputs);
      }
    }
  }
}
