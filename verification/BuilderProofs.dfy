/** A built capability performs the traced actions, and only with what the goal said. */
module BuilderProofs {
  import opened Contracts
  import opened Validator
  import opened Discovery
  import opened Builder
  import E = Evaluator
  import R = Replay

  // ---- What the goal says -----------------------------------------------------------------

  /** The part of the goal a span points at, cut off at the goal's end. */
  function SpanText(goal: string, span: Span): string {
    var end := if span.end <= |goal| then span.end else |goal|;
    if span.start <= end then goal[span.start..end] else ""
  }

  predicate IsFill(e: Entry) { e.ActEntry? && e.kind == FillKind }

  /** The runtime inputs bound to the goal: each fill's input name with the text its source points at. */
  function GoalInputs(goal: string, acts: seq<Entry>): E.Inputs {
    if acts == [] then map[]
    else
      var last := acts[|acts| - 1];
      var before := GoalInputs(goal, acts[..|acts| - 1]);
      if IsFill(last) && last.source.Some?
      then before[LastSegment(last.target) := SpanText(goal, last.source.value)] else before
  }

  /** The action an entry tells of, with the value the goal gives it. */
  function TracedAction(e: Entry, goal: string): Action
    requires e.ActEntry?
  {
    if e.kind == FillKind then Fill(if e.source.Some? then SpanText(goal, e.source.value) else "") else Click
  }

  /** Fills that share an input name share their source. */
  ghost predicate OneSourcePerName(acts: seq<Entry>) {
    && (forall k :: 0 <= k < |acts| && IsFill(acts[k]) ==> acts[k].source.Some?)
    && (forall j, k :: 0 <= j < |acts| && 0 <= k < |acts| && SameName(acts[j], acts[k]) ==>
          acts[j].source == acts[k].source)
  }

  predicate SameName(a: Entry, b: Entry) {
    IsFill(a) && IsFill(b) && LastSegment(a.target) == LastSegment(b.target)
  }

  ghost predicate NamedBy(n: string, entries: seq<Entry>) {
    exists k :: 0 <= k < |entries| && IsFill(entries[k]) && LastSegment(entries[k].target) == n
  }

  lemma GoalInputsAgree(goal: string, acts: seq<Entry>)
    requires OneSourcePerName(acts)
    ensures var inputs := GoalInputs(goal, acts);
      && (forall k :: 0 <= k < |acts| && IsFill(acts[k]) ==> Binds(inputs, goal, acts[k]))
      && (forall n :: n in inputs <==> NamedBy(n, acts))
  {
    forall k | 0 <= k < |acts| && IsFill(acts[k])
      ensures Binds(GoalInputs(goal, acts), goal, acts[k])
    {
      GoalInputBinds(goal, acts, k);
    }
    forall n
      ensures n in GoalInputs(goal, acts) <==> NamedBy(n, acts)
    {
      GoalInputIsNamed(goal, acts, n);
    }
  }

  /** The entry's input is the text its own source points at. */
  predicate Binds(inputs: E.Inputs, goal: string, e: Entry) {
    && e.ActEntry? && e.source.Some?
    && LastSegment(e.target) in inputs && inputs[LastSegment(e.target)] == SpanText(goal, e.source.value)
  }

  lemma {:induction false} GoalInputBinds(goal: string, acts: seq<Entry>, k: nat)
    requires OneSourcePerName(acts) && k < |acts| && IsFill(acts[k])
    ensures Binds(GoalInputs(goal, acts), goal, acts[k])
  {
    var last := |acts| - 1;
    if k < last && !SameName(acts[k], acts[last]) {
      assert forall j :: 0 <= j < last ==> acts[..last][j] == acts[j];
      GoalInputBinds(goal, acts[..last], k);
    }
  }

  lemma {:induction false} GoalInputIsNamed(goal: string, acts: seq<Entry>, n: string)
    requires forall k :: 0 <= k < |acts| && IsFill(acts[k]) ==> acts[k].source.Some?
    ensures n in GoalInputs(goal, acts) <==> NamedBy(n, acts)
  {
    if acts != [] {
      var last := |acts| - 1;
      GoalInputIsNamed(goal, acts[..last], n);
      if NamedBy(n, acts[..last]) {
        var k :| 0 <= k < last && IsFill(acts[..last][k]) && LastSegment(acts[..last][k].target) == n;
        assert acts[k] == acts[..last][k];
      } else {
        assert forall k :: 0 <= k < last ==> acts[..last][k] == acts[k];
      }
    }
  }

  // ---- Inputs ----------------------------------------------------------------------------------

  /** The specs declare each named source once, as a required text without limits. */
  ghost predicate SpecsFit(t: InputTable) {
    && Distinct(InputNames(t.specs))
    && (forall n :: n in t.sources <==> n in InputNames(t.specs))
    && (forall i :: 0 <= i < |t.specs| ==>
          t.specs[i].required && t.specs[i].minLength.None? && t.specs[i].maxLength.None? && t.specs[i].pattern.None?)
  }

  ghost predicate NamesFit(t: InputTable) {
    forall x :: x in t.names ==> t.names[x] == LastSegment(x) && t.names[x] in t.sources
  }

  ghost predicate Recorded(t: InputTable, e: Entry) {
    IsFill(e) ==>
      && e.source.Some? && e.target in t.names
      && LastSegment(e.target) in t.sources && t.sources[LastSegment(e.target)] == e.source.value
  }

  /** Nothing the table knew is lost or changed. */
  predicate Extends(t: InputTable, u: InputTable) {
    && (forall x :: x in t.names ==> x in u.names)
    && (forall n :: n in t.sources ==> n in u.sources && u.sources[n] == t.sources[n])
  }

  lemma AddInputNames(t: InputTable, e: Entry, sensitivity: map<Target, bool>)
    requires NamesFit(t) && AddInput(t, e, sensitivity).Ok?
    ensures var u := AddInput(t, e, sensitivity).value;
      NamesFit(u) && Extends(t, u) && Recorded(u, e)
      && (forall x :: x in u.names ==> x in t.names || (IsFill(e) && x == e.target))
  {
  }

  lemma AddInputSpecs(t: InputTable, e: Entry, sensitivity: map<Target, bool>)
    requires SpecsFit(t) && AddInput(t, e, sensitivity).Ok?
    ensures SpecsFit(AddInput(t, e, sensitivity).value)
  {
    var u := AddInput(t, e, sensitivity).value;
    if u.specs != t.specs {
      SpecsGrow(t, u, u.specs[|t.specs|]);
    } else if u != t {
      SpecsStay(t, u, LastSegment(e.target));
    }
  }

  lemma SpecsStay(t: InputTable, u: InputTable, name: string)
    requires SpecsFit(t) && u.specs == t.specs && exists i :: 0 <= i < |t.specs| && t.specs[i].name == name
    requires forall n :: n in u.sources <==> n in t.sources || n == name
    ensures SpecsFit(u)
  {
    var i :| 0 <= i < |t.specs| && t.specs[i].name == name;
    assert InputNames(t.specs)[i] == name;
  }

  lemma SpecsGrow(t: InputTable, u: InputTable, spec: InputSpec)
    requires SpecsFit(t) && u.specs == t.specs + [spec]
    requires forall i :: 0 <= i < |t.specs| ==> t.specs[i].name != spec.name
    requires forall n :: n in u.sources <==> n in t.sources || n == spec.name
    requires spec.required && spec.minLength.None? && spec.maxLength.None? && spec.pattern.None?
    ensures SpecsFit(u)
  {
    assert InputNames(u.specs) == InputNames(t.specs) + [spec.name];
  }

  lemma {:induction false} AddInputsFits(t: InputTable, entries: seq<Entry>, sensitivity: map<Target, bool>)
    requires SpecsFit(t) && NamesFit(t) && AddInputs(t, entries, sensitivity).Ok?
    ensures var u := AddInputs(t, entries, sensitivity).value;
      && SpecsFit(u) && NamesFit(u) && Extends(t, u)
      && (forall k :: 0 <= k < |entries| ==> Recorded(u, entries[k]))
      && (forall x :: x in u.names ==> x in t.names || FilledBy(x, entries))
    decreases |entries|
  {
    if entries != [] {
      AddInputNames(t, entries[0], sensitivity);
      AddInputSpecs(t, entries[0], sensitivity);
      var next := AddInput(t, entries[0], sensitivity).value;
      AddInputsFits(next, entries[1..], sensitivity);
      var u := AddInputs(t, entries, sensitivity).value;
      forall k | 0 <= k < |entries|
        ensures Recorded(u, entries[k])
      {
        if k > 0 {
          assert entries[1..][k - 1] == entries[k];
        }
      }
      forall x | x in u.names && x !in t.names
        ensures FilledBy(x, entries)
      {
        if FilledBy(x, entries[1..]) {
          var k :| 0 <= k < |entries[1..]| && IsFill(entries[1..][k]) && entries[1..][k].target == x;
          assert entries[k + 1].target == x;
        }
      }
    }
  }

  ghost predicate FilledBy(x: Target, entries: seq<Entry>) {
    exists k :: 0 <= k < |entries| && IsFill(entries[k]) && entries[k].target == x
  }

  /** The inputs declared for the fills are exactly the ones the goal binds, and the bound values pass their checks. */
  lemma GoalInputsPass(goal: string, acts: seq<Entry>, sensitivity: map<Target, bool>)
    requires AddInputs(NoInputs, acts, sensitivity).Ok?
    ensures var t := AddInputs(NoInputs, acts, sensitivity).value;
      && OneSourcePerName(acts)
      && Declared(t.specs) == GoalInputs(goal, acts).Keys
      && R.ValidateInputs(t.specs, GoalInputs(goal, acts)) == None
      && (forall x :: x in t.names ==> t.names[x] == LastSegment(x) && t.names[x] in GoalInputs(goal, acts))
  {
    AddInputsFits(NoInputs, acts, sensitivity);
    var t, inputs := AddInputs(NoInputs, acts, sensitivity).value, GoalInputs(goal, acts);
    OneSourceEach(t, acts);
    GoalInputsAgree(goal, acts);
    forall n
      ensures n in Declared(t.specs) <==> n in inputs
      ensures n in t.sources <==> n in inputs
    {
      SourcesAreFilled(acts, sensitivity, n);
      DeclaredNames(t.specs, n);
    }
    DeclaredInputsPass(t.specs, inputs);
  }

  lemma OneSourceEach(t: InputTable, acts: seq<Entry>)
    requires forall k :: 0 <= k < |acts| ==> Recorded(t, acts[k])
    ensures OneSourcePerName(acts)
  {
  }

  lemma DeclaredInputsPass(specs: seq<InputSpec>, inputs: E.Inputs)
    requires forall n :: n in Declared(specs) <==> n in inputs
    requires forall i :: 0 <= i < |specs| ==>
      specs[i].minLength.None? && specs[i].maxLength.None? && specs[i].pattern.None?
    ensures R.ValidateInputs(specs, inputs) == None
  {
    forall i | 0 <= i < |specs|
      ensures specs[i].name in inputs
    {
      assert specs[i].name in Declared(specs);
    }
    UnlimitedInputsPass(specs, inputs);
  }

  lemma DeclaredNames(specs: seq<InputSpec>, n: string)
    ensures n in Declared(specs) <==> n in InputNames(specs)
  {
    if n in Declared(specs) {
      var i :| 0 <= i < |specs| && specs[i].name == n;
      assert InputNames(specs)[i] == n;
    }
  }

  /** Every named source comes from a fill. */
  lemma SourcesAreFilled(acts: seq<Entry>, sensitivity: map<Target, bool>, n: string)
    requires AddInputs(NoInputs, acts, sensitivity).Ok?
    ensures n in AddInputs(NoInputs, acts, sensitivity).value.sources <==> NamedBy(n, acts)
  {
    AddInputsFits(NoInputs, acts, sensitivity);
    AddSources(NoInputs, acts, sensitivity, n);
    var t := AddInputs(NoInputs, acts, sensitivity).value;
    forall k | 0 <= k < |acts| && IsFill(acts[k]) && LastSegment(acts[k].target) == n
      ensures n in t.sources
    {
      assert Recorded(t, acts[k]);
    }
  }

  lemma {:induction false} AddSources(t: InputTable, entries: seq<Entry>, sensitivity: map<Target, bool>, n: string)
    requires AddInputs(t, entries, sensitivity).Ok?
    ensures n in AddInputs(t, entries, sensitivity).value.sources ==> n in t.sources || NamedBy(n, entries)
    decreases |entries|
  {
    if entries != [] {
      var next := AddInput(t, entries[0], sensitivity).value;
      AddSources(next, entries[1..], sensitivity, n);
      if NamedBy(n, entries[1..]) {
        var k :| 0 <= k < |entries[1..]| && IsFill(entries[1..][k]) && LastSegment(entries[1..][k].target) == n;
        assert IsFill(entries[k + 1]) && LastSegment(entries[k + 1].target) == n;
      }
    }
  }

  lemma {:induction false} UnlimitedInputsPass(items: seq<InputSpec>, inputs: E.Inputs)
    requires forall i :: 0 <= i < |items| ==>
      items[i].name in inputs && items[i].minLength.None? && items[i].maxLength.None? && items[i].pattern.None?
    ensures R.InputProblem(items, inputs) == None
  {
    if items != [] {
      UnlimitedInputsPass(items[1..], inputs);
    }
  }

  // ---- Steps -------------------------------------------------------------------------------------

  /** How many of the actions are of this kind on this target. */
  function Count(acts: seq<Entry>, kind: ActionKind, target: Target): nat {
    if acts == [] then 0
    else
      var last := acts[|acts| - 1];
      Count(acts[..|acts| - 1], kind, target) + if last.ActEntry? && last.kind == kind && last.target == target then 1 else 0
  }

  function SelectorOf(acts: seq<Entry>, k: nat): Selector
    requires k < |acts| && acts[k].ActEntry?
  {
    Selector(acts[k].kind, acts[k].target, Count(acts[..k + 1], acts[k].kind, acts[k].target))
  }

  function TemplateOf(e: Entry, names: map<Target, string>): ActionTemplate
    requires Fillable(e, names)
  {
    if e.kind == FillKind then FillTemplate(e.target, Input(names[e.target])) else ClickTemplate(e.target)
  }

  /** The step carries the metadata of its own occurrence, and none otherwise. */
  predicate Carries(step: Step, selector: Selector, placements: Placements) {
    if selector in placements then
      var m := placements[selector];
      step.precondition == m.precondition && step.postcondition == m.postcondition && step.retry == m.retry
    else step.precondition == None && step.postcondition == None && step.retry == None
  }

  ghost predicate StepFits(step: Step, acts: seq<Entry>, k: nat, names: map<Target, string>, placements: Placements)
    requires k < |acts| && Fillable(acts[k], names)
  {
    step.action == TemplateOf(acts[k], names) && Carries(step, SelectorOf(acts, k), placements)
  }

  ghost predicate AllFillable(acts: seq<Entry>, names: map<Target, string>) {
    forall k :: 0 <= k < |acts| ==> Fillable(acts[k], names)
  }

  /** The table after the actions `done`: their steps, their counts, and the metadata not yet used. */
  ghost predicate TableAt(t: StepTable, done: seq<Entry>, names: map<Target, string>, placements: Placements)
  {
    && AllFillable(done, names) && |t.steps| == |done|
    && (forall k :: 0 <= k < |done| ==> StepFits(t.steps[k], done, k, names, placements))
    && CountsFit(t, done) && LeftFits(t.left, done, placements)
  }

  ghost predicate CountsFit(t: StepTable, done: seq<Entry>) {
    forall kind, target :: Get(t.occurrences, (kind, target)) == Count(done, kind, target)
  }

  ghost predicate LeftFits(left: Placements, done: seq<Entry>, placements: Placements) {
    forall s :: (s in left <==> s in placements && !Used(s, done)) && (s in left ==> left[s] == placements[s])
  }

  /** The selector's occurrence is one of those counted. */
  predicate Used(s: Selector, done: seq<Entry>) { 1 <= s.occurrence <= Count(done, s.kind, s.target) }

  lemma CountOfMore(done: seq<Entry>, e: Entry, kind: ActionKind, target: Target)
    ensures Count(done + [e], kind, target) ==
      Count(done, kind, target) + if e.ActEntry? && e.kind == kind && e.target == target then 1 else 0
  {
    var more := done + [e];
    assert more[..|more| - 1] == done;
  }

  /** Selectors of earlier actions do not change, and the next action's is the next occurrence. */
  lemma SelectorsGrow(done: seq<Entry>, e: Entry, k: nat)
    requires k <= |done| && (done + [e])[k].ActEntry?
    ensures SelectorOf(done + [e], k) ==
      if k < |done| then SelectorOf(done, k) else Selector(e.kind, e.target, Count(done, e.kind, e.target) + 1)
  {
    var more := done + [e];
    if k < |done| {
      assert more[..k + 1] == done[..k + 1];
    } else {
      assert more[..k + 1] == more;
      CountOfMore(done, e, e.kind, e.target);
    }
  }

  /** Every counted occurrence belongs to an action. */
  lemma {:induction false} UsedByAnAction(s: Selector, done: seq<Entry>) returns (k: nat)
    requires Used(s, done)
    ensures k < |done| && done[k].ActEntry? && SelectorOf(done, k) == s
  {
    var before := done[..|done| - 1];
    assert done == before + [done[|done| - 1]];
    CountOfMore(before, done[|done| - 1], s.kind, s.target);
    if Used(s, before) {
      k := UsedByAnAction(s, before);
    } else {
      k := |done| - 1;
    }
    SelectorsGrow(before, done[|done| - 1], k);
  }

  lemma CountsGrow(t: StepTable, done: seq<Entry>, e: Entry, names: map<Target, string>)
    requires CountsFit(t, done) && Fillable(e, names)
    ensures CountsFit(AddStep(t, e, names), done + [e])
  {
    var u := AddStep(t, e, names);
    forall kind, target
      ensures Get(u.occurrences, (kind, target)) == Count(done + [e], kind, target)
    {
      assert Get(t.occurrences, (kind, target)) == Count(done, kind, target);
      CountOfMore(done, e, kind, target);
    }
  }

  lemma LeftShrinks(left: Placements, done: seq<Entry>, e: Entry, placements: Placements)
    requires LeftFits(left, done, placements) && e.ActEntry?
    ensures LeftFits(left - {Selector(e.kind, e.target, Count(done, e.kind, e.target) + 1)}, done + [e], placements)
  {
    var u := left - {Selector(e.kind, e.target, Count(done, e.kind, e.target) + 1)};
    forall s
      ensures s in u <==> s in placements && !Used(s, done + [e])
      ensures s in u ==> u[s] == placements[s]
    {
      CountOfMore(done, e, s.kind, s.target);
    }
  }

  lemma AddStepFits(t: StepTable, done: seq<Entry>, e: Entry, names: map<Target, string>, placements: Placements)
    requires Fillable(e, names) && TableAt(t, done, names, placements)
    ensures TableAt(AddStep(t, e, names), done + [e], names, placements)
  {
    var u, more := AddStep(t, e, names), done + [e];
    CountsGrow(t, done, e, names);
    LeftShrinks(t.left, done, e, placements);
    assert Get(t.occurrences, (e.kind, e.target)) == Count(done, e.kind, e.target);
    forall k | 0 <= k < |more|
      ensures StepFits(u.steps[k], more, k, names, placements)
    {
      SelectorsGrow(done, e, k);
      if k < |done| {
        assert StepFits(t.steps[k], done, k, names, placements);
      } else {
        NewStepFits(t, e, names, placements, Count(done, e.kind, e.target) + 1);
      }
    }
  }

  lemma NewStepFits(t: StepTable, e: Entry, names: map<Target, string>, placements: Placements, occurrence: nat)
    requires Fillable(e, names) && Get(t.occurrences, (e.kind, e.target)) + 1 == occurrence
    requires var s := Selector(e.kind, e.target, occurrence);
      (s in t.left <==> s in placements) && (s in t.left ==> t.left[s] == placements[s])
    ensures var u := AddStep(t, e, names);
      && u.steps == t.steps + [u.steps[|t.steps|]]
      && u.steps[|t.steps|].action == TemplateOf(e, names)
      && Carries(u.steps[|t.steps|], Selector(e.kind, e.target, occurrence), placements)
  {
  }

  lemma AddStepsFits(acts: seq<Entry>, names: map<Target, string>, placements: Placements)
    requires AllFillable(acts, names)
    ensures TableAt(AddSteps(StepTable([], map[], map[], placements), acts, names), acts, names, placements)
  {
    var fits := (t, done) => TableAt(t, done, names, placements);
    forall t, k | 0 <= k < |acts| && fits(t, acts[..k])
      ensures fits(Adder(names)(t, acts[k]), acts[..k + 1])
    {
      AddStepFits(t, acts[..k], acts[k], names, placements);
      assert acts[..k] + [acts[k]] == acts[..k + 1];
    }
    FoldInduction(Adder(names), fits, StepTable([], map[], map[], placements), acts, |acts|);
    assert acts[..|acts|] == acts;
  }

  lemma {:induction false} FoldInduction<T>(
    add: (T, Entry) -> T, fits: (T, seq<Entry>) -> bool, t: T, entries: seq<Entry>, n: nat)
    requires n <= |entries| && fits(t, [])
    requires forall t, k :: 0 <= k < |entries| && fits(t, entries[..k]) ==> fits(add(t, entries[k]), entries[..k + 1])
    ensures fits(Fold(add, t, entries[..n]), entries[..n])
  {
    if n > 0 {
      FoldInduction(add, fits, t, entries, n - 1);
      assert entries[..n][..n - 1] == entries[..n - 1];
      assert entries[..n - 1 + 1] == entries[..n];
    }
  }

  lemma {:induction false} PlacementsAreDeclared(metadata: seq<Metadata>)
    requires PlacementMap(metadata).Ok?
    ensures var m := PlacementMap(metadata).value;
      && (forall i :: 0 <= i < |metadata| ==> metadata[i].selector in m && m[metadata[i].selector] == metadata[i])
      && (forall s :: s in m ==> Selects(metadata, s))
  {
    if metadata != [] {
      var last := |metadata| - 1;
      PlacementsAreDeclared(metadata[..last]);
      var before := PlacementMap(metadata[..last]).value;
      forall s | s in before
        ensures Selects(metadata, s)
      {
        var i :| 0 <= i < last && metadata[..last][i].selector == s;
        assert metadata[i].selector == s;
      }
    }
  }

  predicate Selects(metadata: seq<Metadata>, s: Selector) {
    exists i | 0 <= i < |metadata| :: metadata[i].selector == s
  }

  // ---- The build ------------------------------------------------------------------------------------

  /** The parts a definition was assembled from. */
  datatype Parts = Parts(sensitivity: map<Target, bool>, inputs: InputTable, placements: Placements, success: seq<Condition>)

  ghost predicate BuiltFrom(q: BuildRequest, fingerprint: string -> string, d: Definition, parts: Parts) {
    var acts, names := Acts(q.discovery.trace), parts.inputs.names;
    && Successful(q.discovery) && AllExecuted(acts) && |acts| == q.discovery.actions
    && SensitivityMap(q.sensitivity) == Ok(parts.sensitivity)
    && AddInputs(NoInputs, acts, parts.sensitivity) == Ok(parts.inputs)
    && PlacementMap(q.metadata) == Ok(parts.placements)
    && AllFillable(acts, names)
    && BuildConditions(q.templates, q.discovery.evidence, names, fingerprint) == Ok(parts.success)
    && OutputsVerified(q.outputs, q.discovery.evidence)
    && WellFormed(d)
    && var t := AddSteps(StepTable([], map[], map[], parts.placements), acts, names);
       t.left == map[] && d == Assembled(q, parts.inputs.specs, t.steps, parts.success)
  }

  lemma BuildHasParts(q: BuildRequest, fingerprint: string -> string) returns (parts: Parts)
    requires Build(q, fingerprint).Ok?
    ensures BuiltFrom(q, fingerprint, Build(q, fingerprint).value, parts)
  {
    var acts, sensitivity := Acts(q.discovery.trace), SensitivityMap(q.sensitivity).value;
    var inputs := AddInputs(NoInputs, acts, sensitivity).value;
    FillsAreNamed(NoInputs, acts, sensitivity);
    parts := Parts(
      sensitivity, inputs, PlacementMap(q.metadata).value,
      BuildConditions(q.templates, q.discovery.evidence, inputs.names, fingerprint).value);
  }

  lemma StepsFit(q: BuildRequest, fingerprint: string -> string, d: Definition, parts: Parts)
    requires BuiltFrom(q, fingerprint, d, parts)
    ensures var acts := Acts(q.discovery.trace);
      && |d.steps| == |acts|
      && (forall k :: 0 <= k < |acts| ==> StepFits(d.steps[k], acts, k, parts.inputs.names, parts.placements))
      && LeftFits(map[], acts, parts.placements)
  {
    AddStepsFits(Acts(q.discovery.trace), parts.inputs.names, parts.placements);
  }

  /** Step `step` does what the entry tells of, once the inputs are bound. */
  predicate Performs(step: Step, e: Entry, goal: string, inputs: E.Inputs) {
    && e.ActEntry? && step.action.Kind() == e.kind && step.action.target == e.target
    && R.Materialize(step.action, inputs) == Some(TracedAction(e, goal))
  }

  /**
   * Compilation preserves actions: the steps are the executed actions, one for one and in order, and under the
   * inputs that the goal binds, which are exactly the declared ones and pass their checks, each fill gets the part
   * of the goal that its own entry points at.
   */
  lemma CompilationPreservesActions(q: BuildRequest, fingerprint: string -> string, goal: string)
    requires Build(q, fingerprint).Ok?
    ensures var d := Build(q, fingerprint).value;
      var acts := Acts(q.discovery.trace);
      var inputs := GoalInputs(goal, acts);
      && |d.steps| == |acts| == q.discovery.actions && WellFormed(d)
      && (forall k :: 0 <= k < |acts| ==> Performs(d.steps[k], acts[k], goal, inputs))
      && Declared(d.inputs) == inputs.Keys && R.ValidateInputs(d.inputs, inputs) == None
  {
    var d := Build(q, fingerprint).value;
    var parts := BuildHasParts(q, fingerprint);
    var acts := Acts(q.discovery.trace);
    StepsFit(q, fingerprint, d, parts);
    GoalInputsPass(goal, acts, parts.sensitivity);
    GoalInputsAgree(goal, acts);
    forall k | 0 <= k < |acts|
      ensures Performs(d.steps[k], acts[k], goal, GoalInputs(goal, acts))
    {
      FittingStepPerforms(d.steps[k], acts, k, parts.inputs.names, parts.placements, goal, GoalInputs(goal, acts));
    }
  }

  lemma FittingStepPerforms(
    step: Step, acts: seq<Entry>, k: nat, names: map<Target, string>, placements: Placements, goal: string, inputs: E.Inputs)
    requires k < |acts| && Fillable(acts[k], names) && StepFits(step, acts, k, names, placements)
    requires IsFill(acts[k]) ==> Binds(inputs, goal, acts[k]) && names[acts[k].target] == LastSegment(acts[k].target)
    ensures Performs(step, acts[k], goal, inputs)
  {
  }

  /** Each piece of metadata sits on the one step it selects, and no step has any other. */
  lemma MetadataIsPlaced(q: BuildRequest, fingerprint: string -> string)
    requires Build(q, fingerprint).Ok?
    ensures var d := Build(q, fingerprint).value;
      var acts := Acts(q.discovery.trace);
      && |d.steps| == |acts| && (forall k :: 0 <= k < |acts| ==> acts[k].ActEntry?)
      && (forall k, m :: 0 <= k < |acts| && m in q.metadata && m.selector == SelectorOf(acts, k) ==> Has(d.steps[k], m))
      && (forall k :: 0 <= k < |acts| && !Selects(q.metadata, SelectorOf(acts, k)) ==> Bare(d.steps[k]))
      && (forall m :: m in q.metadata ==> exists k :: 0 <= k < |acts| && m.selector == SelectorOf(acts, k))
  {
    var d := Build(q, fingerprint).value;
    var parts := BuildHasParts(q, fingerprint);
    var acts := Acts(q.discovery.trace);
    StepsFit(q, fingerprint, d, parts);
    PlacementsAreDeclared(q.metadata);
    forall k | 0 <= k < |acts|
      ensures StepFits(d.steps[k], acts, k, parts.inputs.names, parts.placements)
    {
    }
    forall m | m in q.metadata
      ensures exists k :: 0 <= k < |acts| && m.selector == SelectorOf(acts, k)
    {
      assert m.selector in parts.placements;
      var k := UsedByAnAction(m.selector, acts);
    }
  }

  predicate Has(step: Step, m: Metadata) {
    step.precondition == m.precondition && step.postcondition == m.postcondition && step.retry == m.retry
  }

  predicate Bare(step: Step) { step.precondition == None && step.postcondition == None && step.retry == None }
}
