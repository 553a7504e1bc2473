/** Compiling the trace of a verified discovery into a capability definition. */
module Builder {
  import opened Contracts
  import opened Discovery
  import opened Validator
  import Gateway
  import Money

  datatype SuccessTemplate =
    | InputEquality(target: Target, source: Target)
    | LiteralEquality(target: Target, expected: string)
    | VisibleTemplate(target: Target)

  datatype Sensitivity = Sensitivity(target: Target, sensitive: bool)

  /** What selects a step: the `occurrence`-th action of a kind on a target. */
  datatype Selector = Selector(kind: ActionKind, target: Target, occurrence: nat)

  datatype Metadata = Metadata(
    selector: Selector, precondition: Option<Condition>, postcondition: Option<Condition>, retry: Option<RetryPolicy>)

  datatype BuildRequest = BuildRequest(
    capabilityId: string, version: string, family: string, discovery: DiscoveryResult,
    sensitivity: seq<Sensitivity>, templates: seq<SuccessTemplate>,
    outputs: seq<OutputSpec>, outcomes: seq<OutcomeRule>, metadata: seq<Metadata>)

  datatype BuildError =
    | DiscoveryNotSuccessful | TraceActionNotExecuted | InputNameConflict | InputSpecInvalid
    | EvidenceMissing | OutputSpecInvalid | MetadataInvalid | ValidationFailed

  // ---- Names --------------------------------------------------------------------------------

  function LastSegment(target: Target): string {
    if target == "" || target[|target| - 1] == '.' then ""
    else LastSegment(target[..|target| - 1]) + [target[|target| - 1]]
  }

  predicate IsLower(c: char) { 'a' <= c <= 'z' }

  predicate IsInputName(s: string) {
    && 1 <= |s| <= 80 && IsLower(s[0])
    && forall i :: 0 <= i < |s| ==> IsLower(s[i]) || Money.IsDigit(s[i]) || s[i] == '_'
  }

  function Underscored(target: Target): string {
    seq(|target|, i requires 0 <= i < |target| => if target[i] == '.' then '_' else target[i])
  }

  function BaseStepId(kind: ActionKind, target: Target): string {
    (if kind == FillKind then "fill_" else "click_") + Underscored(target)
  }

  function StepId(base: string, ordinal: nat): string {
    if ordinal == 1 then base else base + "_" + Money.Digits(ordinal)
  }

  // ---- Inputs ---------------------------------------------------------------------------------

  function SensitivityMap(declarations: seq<Sensitivity>): Result<map<Target, bool>, BuildError> {
    if declarations == [] then Ok(map[])
    else
      var last := declarations[|declarations| - 1];
      var before := SensitivityMap(declarations[..|declarations| - 1]);
      if before.Err? then before
      else if last.target in before.value then Err(InputSpecInvalid)
      else Ok(before.value[last.target := last.sensitive])
  }

  method BuildSensitivityMap(declarations: seq<Sensitivity>) returns (r: Result<map<Target, bool>, BuildError>)
    ensures r == SensitivityMap(declarations)
  {
    var result: map<Target, bool> := map[];
    for i := 0 to |declarations|
      invariant SensitivityMap(declarations[..i]) == Ok(result)
    {
      assert declarations[..i + 1][..i] == declarations[..i];
      if declarations[i].target in result {
        FirstDuplicateRefuses(declarations, i + 1);
        return Err(InputSpecInvalid);
      }
      result := result[declarations[i].target := declarations[i].sensitive];
    }
    assert declarations[..|declarations|] == declarations;
    return Ok(result);
  }

  lemma {:induction false} FirstDuplicateRefuses(declarations: seq<Sensitivity>, n: nat)
    requires n <= |declarations| && SensitivityMap(declarations[..n]) == Err(InputSpecInvalid)
    ensures SensitivityMap(declarations) == Err(InputSpecInvalid)
    decreases |declarations|
  {
    if n < |declarations| {
      assert declarations[..|declarations| - 1][..n] == declarations[..n];
      FirstDuplicateRefuses(declarations[..|declarations| - 1], n);
    } else {
      assert declarations[..n] == declarations;
    }
  }

  /** The input of each fill target, the goal span of each input, and the declared inputs. */
  datatype InputTable = InputTable(names: map<Target, string>, sources: map<string, Span>, specs: seq<InputSpec>)

  /** One action's contribution. A known name must come from the same span, even for a known target. */
  function AddInput(t: InputTable, e: Entry, sensitivity: map<Target, bool>): Result<InputTable, BuildError> {
    if !e.ActEntry? || e.kind != FillKind then Ok(t)
    else if e.source.None? then Err(InputSpecInvalid)
    else
      var name := LastSegment(e.target);
      if !IsInputName(name) then Err(InputSpecInvalid)
      else if name in t.sources && t.sources[name] != e.source.value then Err(InputNameConflict)
      else if e.target in t.names then Ok(t)
      else if e.target !in sensitivity then Err(InputSpecInvalid)
      else
        var declared := exists i | 0 <= i < |t.specs| :: t.specs[i].name == name;
        Ok(InputTable(
             t.names[e.target := name],
             t.sources[name := e.source.value],
             if declared then t.specs
             else t.specs + [InputSpec(name, true, sensitivity[e.target], None, None, None)]))
  }

  function AddInputs(t: InputTable, entries: seq<Entry>, sensitivity: map<Target, bool>): Result<InputTable, BuildError>
    decreases |entries|
  {
    if entries == [] then Ok(t)
    else
      var next := AddInput(t, entries[0], sensitivity);
      if next.Err? then next else AddInputs(next.value, entries[1..], sensitivity)
  }

  const NoInputs := InputTable(map[], map[], [])

  method BuildInputs(entries: seq<Entry>, sensitivity: map<Target, bool>) returns (r: Result<InputTable, BuildError>)
    ensures r == AddInputs(NoInputs, entries, sensitivity)
  {
    var names: map<Target, string> := map[];
    var sources: map<string, Span> := map[];
    var specs: seq<InputSpec> := [];
    assert entries[0..] == entries;
    for i := 0 to |entries|
      invariant AddInputs(NoInputs, entries, sensitivity)
             == AddInputs(InputTable(names, sources, specs), entries[i..], sensitivity)
    {
      var e := entries[i];
      assert entries[i..][0] == e && entries[i..][1..] == entries[i + 1..];
      if !e.ActEntry? || e.kind != FillKind {
        continue;
      }
      if e.source.None? {
        return Err(InputSpecInvalid);
      }
      var name := LastSegment(e.target);
      if !IsInputName(name) {
        return Err(InputSpecInvalid);
      }
      if name in sources && sources[name] != e.source.value {
        return Err(InputNameConflict);
      }
      if e.target in names {
        continue;
      }
      if e.target !in sensitivity {
        return Err(InputSpecInvalid);
      }
      names := names[e.target := name];
      sources := sources[name := e.source.value];
      if !exists i | 0 <= i < |specs| :: specs[i].name == name {
        specs := specs + [InputSpec(name, true, sensitivity[e.target], None, None, None)];
      }
    }
    return Ok(InputTable(names, sources, specs));
  }

  // ---- Steps ----------------------------------------------------------------------------------

  type Placements = map<Selector, Metadata>

  function PlacementMap(metadata: seq<Metadata>): Result<Placements, BuildError> {
    if metadata == [] then Ok(map[])
    else
      var rest := PlacementMap(metadata[..|metadata| - 1]);
      var last := metadata[|metadata| - 1];
      if rest.Err? then rest
      else if last.selector in rest.value then Err(MetadataInvalid)
      else Ok(rest.value[last.selector := last])
  }

  method BuildPlacements(metadata: seq<Metadata>) returns (r: Result<Placements, BuildError>)
    ensures r == PlacementMap(metadata)
  {
    var result: Placements := map[];
    for i := 0 to |metadata|
      invariant PlacementMap(metadata[..i]) == Ok(result)
    {
      assert metadata[..i + 1][..i] == metadata[..i];
      if metadata[i].selector in result {
        FirstRepeatRefuses(metadata, i + 1);
        return Err(MetadataInvalid);
      }
      result := result[metadata[i].selector := metadata[i]];
    }
    assert metadata[..|metadata|] == metadata;
    return Ok(result);
  }

  lemma {:induction false} FirstRepeatRefuses(metadata: seq<Metadata>, n: nat)
    requires n <= |metadata| && PlacementMap(metadata[..n]) == Err(MetadataInvalid)
    ensures PlacementMap(metadata) == Err(MetadataInvalid)
    decreases |metadata|
  {
    if n < |metadata| {
      assert metadata[..|metadata| - 1][..n] == metadata[..n];
      FirstRepeatRefuses(metadata[..|metadata| - 1], n);
    } else {
      assert metadata[..n] == metadata;
    }
  }

  datatype StepTable = StepTable(
    steps: seq<Step>, ids: map<string, nat>, occurrences: map<(ActionKind, Target), nat>, left: Placements)

  predicate Fillable(e: Entry, names: map<Target, string>) {
    e.ActEntry? && (e.kind == FillKind ==> e.target in names)
  }

  function Get<K>(m: map<K, nat>, k: K): nat {
    if k in m then m[k] else 0
  }

  /** The step of an action, with the metadata trusted for it. */
  function StepFor(e: Entry, names: map<Target, string>, ordinal: nat, trusted: Option<Metadata>): Step
    requires Fillable(e, names)
  {
    var id := StepId(BaseStepId(e.kind, e.target), ordinal);
    var action := if e.kind == FillKind then FillTemplate(e.target, Input(names[e.target])) else ClickTemplate(e.target);
    match trusted
    case Some(m) => Step(id, action, m.precondition, m.postcondition, m.retry)
    case None => Step(id, action, None, None, None)
  }

  function Find<K, V>(m: map<K, V>, k: K): Option<V> {
    if k in m then Some(m[k]) else None
  }

  /** One action's step; the metadata of its occurrence is used up. */
  function AddStep(t: StepTable, e: Entry, names: map<Target, string>): StepTable
    requires Fillable(e, names)
  {
    var occurrence := Get(t.occurrences, (e.kind, e.target)) + 1;
    var selector := Selector(e.kind, e.target, occurrence);
    var base := BaseStepId(e.kind, e.target);
    var ordinal := Get(t.ids, base) + 1;
    StepTable(
      t.steps + [StepFor(e, names, ordinal, Find(t.left, selector))], t.ids[base := ordinal],
      t.occurrences[(e.kind, e.target) := occurrence], t.left - {selector})
  }

  function Fold<T>(add: (T, Entry) -> T, t: T, entries: seq<Entry>): T {
    if entries == [] then t
    else add(Fold(add, t, entries[..|entries| - 1]), entries[|entries| - 1])
  }

  function Adder(names: map<Target, string>): (StepTable, Entry) -> StepTable {
    (t, e) => if Fillable(e, names) then AddStep(t, e, names) else t
  }

  function AddSteps(t: StepTable, entries: seq<Entry>, names: map<Target, string>): StepTable {
    Fold(Adder(names), t, entries)
  }

  method BuildSteps(entries: seq<Entry>, names: map<Target, string>, metadata: Placements)
    returns (steps: seq<Step>, left: Placements)
    requires forall i :: 0 <= i < |entries| ==> Fillable(entries[i], names)
    ensures var t := AddSteps(StepTable([], map[], map[], metadata), entries, names); steps == t.steps && left == t.left
  {
    steps, left := [], metadata;
    var ids: map<string, nat> := map[];
    var occurrences: map<(ActionKind, Target), nat> := map[];
    ghost var empty := StepTable([], map[], map[], metadata);
    for i := 0 to |entries|
      invariant StepTable(steps, ids, occurrences, left) == AddSteps(empty, entries[..i], names)
    {
      assert entries[..i + 1][..i] == entries[..i];
      assert Fillable(entries[i], names);
      steps, ids, occurrences, left := BuildStep(entries[i], names, steps, ids, occurrences, left);
    }
    assert entries[..|entries|] == entries;
  }

  /** The body of the loop: counts the occurrence, takes its metadata, and numbers the step. */
  method BuildStep(
    e: Entry, names: map<Target, string>, steps0: seq<Step>, ids0: map<string, nat>,
    occurrences0: map<(ActionKind, Target), nat>, left0: Placements)
    returns (steps: seq<Step>, ids: map<string, nat>, occurrences: map<(ActionKind, Target), nat>, left: Placements)
    requires Fillable(e, names)
    ensures StepTable(steps, ids, occurrences, left) == AddStep(StepTable(steps0, ids0, occurrences0, left0), e, names)
  {
    var occurrence := Get(occurrences0, (e.kind, e.target)) + 1;
    occurrences := occurrences0[(e.kind, e.target) := occurrence];
    var selector := Selector(e.kind, e.target, occurrence);
    var trusted := Find(left0, selector);
    left := left0 - {selector};
    var base := BaseStepId(e.kind, e.target);
    var ordinal := Get(ids0, base) + 1;
    ids := ids0[base := ordinal];
    steps := steps0 + [StepFor(e, names, ordinal, trusted)];
  }

  // ---- Success conditions --------------------------------------------------------------------------

  /** The evidence for a target; the last one where several are given. */
  function EvidenceFor(target: Target, evidence: seq<Verified>): Option<Verified> {
    if evidence == [] then None
    else if evidence[|evidence| - 1].target == target then Some(evidence[|evidence| - 1])
    else EvidenceFor(target, evidence[..|evidence| - 1])
  }

  function BuildCondition(
    template: SuccessTemplate, evidence: seq<Verified>, names: map<Target, string>, fingerprint: string -> string)
    : Result<Condition, BuildError>
  {
    var verified := EvidenceFor(template.target, evidence);
    if verified.None? then Err(EvidenceMissing)
    else match template
      case InputEquality(target, source) =>
        if source !in names || verified.value.source != Some(source) then Err(EvidenceMissing)
        else Ok(TargetTextEquals(target, Input(names[source])))
      case LiteralEquality(target, expected) =>
        if verified.value.fingerprint != fingerprint(expected) then Err(EvidenceMissing)
        else Ok(TargetTextEquals(target, Literal(expected)))
      case VisibleTemplate(target) => Ok(TargetVisible(target))
  }

  function BuildConditions(
    templates: seq<SuccessTemplate>, evidence: seq<Verified>, names: map<Target, string>, fingerprint: string -> string)
    : Result<seq<Condition>, BuildError>
  {
    if templates == [] then Ok([])
    else
      var last := |templates| - 1;
      var before := BuildConditions(templates[..last], evidence, names, fingerprint);
      if before.Err? then before
      else
        var c := BuildCondition(templates[last], evidence, names, fingerprint);
        if c.Err? then Err(c.error) else Ok(before.value + [c.value])
  }

  method BuildSuccessConditions(
    templates: seq<SuccessTemplate>, evidence: seq<Verified>, names: map<Target, string>, fingerprint: string -> string)
    returns (r: Result<seq<Condition>, BuildError>)
    ensures r == BuildConditions(templates, evidence, names, fingerprint)
  {
    var conditions: seq<Condition> := [];
    for i := 0 to |templates|
      invariant BuildConditions(templates[..i], evidence, names, fingerprint) == Ok(conditions)
    {
      assert templates[..i + 1][..i] == templates[..i];
      var c := BuildCondition(templates[i], evidence, names, fingerprint);
      if c.Err? {
        FirstGapRefuses(templates, evidence, names, fingerprint, i + 1);
        return Err(EvidenceMissing);
      }
      conditions := conditions + [c.value];
    }
    assert templates[..|templates|] == templates;
    return Ok(conditions);
  }

  lemma {:induction false} FirstGapRefuses(
    templates: seq<SuccessTemplate>, evidence: seq<Verified>, names: map<Target, string>,
    fingerprint: string -> string, n: nat)
    requires n <= |templates| && BuildConditions(templates[..n], evidence, names, fingerprint) == Err(EvidenceMissing)
    ensures BuildConditions(templates, evidence, names, fingerprint) == Err(EvidenceMissing)
    decreases |templates|
  {
    if n < |templates| {
      assert templates[..|templates| - 1][..n] == templates[..n];
      FirstGapRefuses(templates[..|templates| - 1], evidence, names, fingerprint, n);
    } else {
      assert templates[..n] == templates;
    }
  }

  // ---- The build --------------------------------------------------------------------------------------

  predicate Successful(r: DiscoveryResult) {
    && r.outcome == Discovered && r.reason == Completed && r.evidence != []
    && (exists i | 0 <= i < |r.trace| :: r.trace[i].CompleteEntry?)
    && (forall i | 0 <= i < |r.trace| :: !r.trace[i].HelpEntry? && !r.trace[i].DeclineEntry?)
  }

  predicate AllExecuted(acts: seq<Entry>) {
    forall i | 0 <= i < |acts| :: acts[i].ActEntry? && acts[i].outcome == Gateway.Executed
  }

  function Assembled(q: BuildRequest, inputs: seq<InputSpec>, steps: seq<Step>, success: seq<Condition>): Definition {
    Definition(q.capabilityId, q.version, q.family, inputs, q.outputs, steps, success, q.outcomes)
  }

  /** Whether every output is read from a target with verified evidence. */
  predicate OutputsVerified(outputs: seq<OutputSpec>, evidence: seq<Verified>) {
    forall i | 0 <= i < |outputs| :: EvidenceFor(outputs[i].target, evidence).Some?
  }

  /** Every fill met by AddInputs has its name in the table. */
  lemma {:induction false} FillsAreNamed(t: InputTable, entries: seq<Entry>, sensitivity: map<Target, bool>)
    requires forall i :: 0 <= i < |entries| ==> entries[i].ActEntry?
    requires AddInputs(t, entries, sensitivity).Ok?
    ensures var r := AddInputs(t, entries, sensitivity).value;
      t.names.Keys <= r.names.Keys && forall i :: 0 <= i < |entries| ==> Fillable(entries[i], r.names)
    decreases |entries|
  {
    if entries != [] {
      FillsAreNamed(AddInput(t, entries[0], sensitivity).value, entries[1..], sensitivity);
      assert forall i :: 0 < i < |entries| ==> entries[i] == entries[1..][i - 1];
    }
  }

  /** What the trace of a successful discovery compiles to, or the first reason why not. */
  function Build(q: BuildRequest, fingerprint: string -> string): Result<Definition, BuildError> {
    var acts := Acts(q.discovery.trace);
    if !Successful(q.discovery) then Err(DiscoveryNotSuccessful)
    else if !AllExecuted(acts) || |acts| != q.discovery.actions then Err(TraceActionNotExecuted)
    else
      var sensitivity := SensitivityMap(q.sensitivity);
      if sensitivity.Err? then Err(sensitivity.error)
      else
        var inputs := AddInputs(NoInputs, acts, sensitivity.value);
        if inputs.Err? then Err(inputs.error)
        else if sensitivity.value.Keys != inputs.value.names.Keys then Err(InputSpecInvalid)
        else
          var placements := PlacementMap(q.metadata);
          if placements.Err? then Err(placements.error)
          else
            FillsAreNamed(NoInputs, acts, sensitivity.value);
            var steps := AddSteps(StepTable([], map[], map[], placements.value), acts, inputs.value.names);
            if steps.left != map[] then Err(MetadataInvalid)
            else
              var success := BuildConditions(q.templates, q.discovery.evidence, inputs.value.names, fingerprint);
              if success.Err? then Err(success.error)
              else if !OutputsVerified(q.outputs, q.discovery.evidence) then Err(OutputSpecInvalid)
              else
                var d := Assembled(q, inputs.value.specs, steps.steps, success.value);
                if WellFormed(d) then Ok(d) else Err(ValidationFailed)
  }

  method BuildCapability(q: BuildRequest, fingerprint: string -> string) returns (r: Result<Definition, BuildError>)
    ensures r == Build(q, fingerprint)
  {
    if !Successful(q.discovery) {
      return Err(DiscoveryNotSuccessful);
    }
    var acts := Acts(q.discovery.trace);
    if !AllExecuted(acts) {
      return Err(TraceActionNotExecuted);
    }
    if |acts| != q.discovery.actions {
      return Err(TraceActionNotExecuted);
    }
    var sensitivity := BuildSensitivityMap(q.sensitivity);
    if sensitivity.Err? {
      return Err(sensitivity.error);
    }
    var inputs := BuildInputs(acts, sensitivity.value);
    if inputs.Err? {
      return Err(inputs.error);
    }
    if sensitivity.value.Keys != inputs.value.names.Keys {
      return Err(InputSpecInvalid);
    }
    var placements := BuildPlacements(q.metadata);
    if placements.Err? {
      return Err(placements.error);
    }
    FillsAreNamed(NoInputs, acts, sensitivity.value);
    var steps, left := BuildSteps(acts, inputs.value.names, placements.value);
    if left != map[] {
      return Err(MetadataInvalid);
    }
    var success := BuildSuccessConditions(q.templates, q.discovery.evidence, inputs.value.names, fingerprint);
    if success.Err? {
      return Err(success.error);
    }
    if !OutputsVerified(q.outputs, q.discovery.evidence) {
      return Err(OutputSpecInvalid);
    }
    var d := Assembled(q, inputs.value.specs, steps, success.value);
    var errors := Validate(d);
    return if errors == [] then Ok(d) else Err(ValidationFailed);
  }
}
