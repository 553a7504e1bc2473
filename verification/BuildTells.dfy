/** What a built definition holds, part by part, and which gap each refusal of a request stands for. */
module BuildTells {
  import opened Contracts
  import opened Validator
  import opened Discovery
  import opened Builder
  import opened BuilderProofs
  import opened Buildable
  import opened EndToEnd
  import Money

  // ---- The parts ---------------------------------------------------------------------------------

  /** The condition a template stands for, with the evidence it rests on. */
  ghost predicate ConditionFits(
    template: SuccessTemplate, c: Condition, evidence: seq<Verified>, acts: seq<Entry>, fingerprint: string -> string)
  {
    exists v :: v in evidence && v.target == template.target &&
      match template
      case InputEquality(target, source) =>
        FilledBy(source, acts) && v.source == Some(source) && c == TargetTextEquals(target, Input(LastSegment(source)))
      case LiteralEquality(target, expected) =>
        v.fingerprint == fingerprint(expected) && c == TargetTextEquals(target, Literal(expected))
      case VisibleTemplate(target) => c == TargetVisible(target)
  }

  lemma ConditionIsBuilt(
    template: SuccessTemplate, evidence: seq<Verified>, names: map<Target, string>, acts: seq<Entry>,
    fingerprint: string -> string)
    requires BuildCondition(template, evidence, names, fingerprint).Ok? && NamesFills(names, acts)
    ensures ConditionFits(template, BuildCondition(template, evidence, names, fingerprint).value, evidence, acts, fingerprint)
  {
    EvidenceIsFound(template.target, evidence);
    assert EvidenceFor(template.target, evidence).value in evidence;
  }

  /** The first fill of the name, in order. */
  ghost predicate FirstNamed(acts: seq<Entry>, k: nat, name: string) {
    && k < |acts| && IsFill(acts[k]) && LastSegment(acts[k].target) == name
    && forall j :: 0 <= j < k && IsFill(acts[j]) ==> LastSegment(acts[j].target) != name
  }

  /** A declared input is required, without limits, and as sensitive as the target of its first fill was declared. */
  ghost predicate SpecFits(spec: InputSpec, acts: seq<Entry>, sensitivity: map<Target, bool>) {
    exists k: nat :: FirstNamed(acts, k, spec.name) && acts[k].target in sensitivity
      && spec == InputSpec(spec.name, true, sensitivity[acts[k].target], None, None, None)
  }

  ghost predicate SpecsTell(t: InputTable, acts: seq<Entry>, sensitivity: map<Target, bool>) {
    && (forall s :: s in t.specs ==> SpecFits(s, acts, sensitivity))
    && (forall k :: 0 <= k < |acts| && IsFill(acts[k]) ==> exists s :: s in t.specs && s.name == LastSegment(acts[k].target))
  }

  lemma FirstStays(acts: seq<Entry>, e: Entry, spec: InputSpec, sensitivity: map<Target, bool>)
    requires SpecFits(spec, acts, sensitivity)
    ensures SpecFits(spec, acts + [e], sensitivity)
  {
    var k: nat :| FirstNamed(acts, k, spec.name) && acts[k].target in sensitivity
      && spec == InputSpec(spec.name, true, sensitivity[acts[k].target], None, None, None);
    assert FirstNamed(acts + [e], k, spec.name);
  }

  lemma NamedSpec(t: InputTable, n: string) returns (s: InputSpec)
    requires SpecsFit(t) && n in t.sources
    ensures s in t.specs && s.name == n
  {
    var i :| 0 <= i < |t.specs| && InputNames(t.specs)[i] == n;
    s := t.specs[i];
  }

  lemma NewSpecIsFirst(t: InputTable, acts: seq<Entry>, e: Entry, sensitivity: map<Target, bool>)
    requires SpecsTell(t, acts, sensitivity) && AddInput(t, e, sensitivity).Ok?
    requires AddInput(t, e, sensitivity).value.specs != t.specs
    ensures FirstNamed(acts + [e], |acts|, LastSegment(e.target))
  {
    var name := LastSegment(e.target);
    assert forall i :: 0 <= i < |t.specs| ==> t.specs[i].name != name;
    assert forall s :: s in t.specs ==> s.name != name;
    forall j | 0 <= j < |acts| && IsFill(acts[j])
      ensures exists s :: s in t.specs && s.name == LastSegment(acts[j].target)
    {
    }
  }

  lemma AddedSpecTells(t: InputTable, acts: seq<Entry>, e: Entry, sensitivity: map<Target, bool>)
    requires SpecsTell(t, acts, sensitivity) && AddInput(t, e, sensitivity).Ok? && NamesFit(t) && SpecsFit(t)
    ensures SpecsTell(AddInput(t, e, sensitivity).value, acts + [e], sensitivity)
  {
    var u, more := AddInput(t, e, sensitivity).value, acts + [e];
    if u.specs != t.specs {
      NewSpecIsFirst(t, acts, e, sensitivity);
    }
    forall s | s in u.specs
      ensures SpecFits(s, more, sensitivity)
    {
      if s in t.specs {
        FirstStays(acts, e, s, sensitivity);
      }
    }
    forall k | 0 <= k < |more| && IsFill(more[k])
      ensures exists s :: s in u.specs && s.name == LastSegment(more[k].target)
    {
      var name := LastSegment(more[k].target);
      if k < |acts| {
        var s :| s in t.specs && s.name == LastSegment(acts[k].target);
        assert s in u.specs;
      } else if e.target in t.names {
        var s := NamedSpec(t, name);
      } else if u.specs == t.specs {
        var i :| 0 <= i < |t.specs| && t.specs[i].name == name;
        assert t.specs[i] in u.specs;
      } else {
        assert u.specs[|t.specs|].name == name;
      }
    }
  }

  lemma {:induction false} AddedSpecsTell(t: InputTable, past: seq<Entry>, entries: seq<Entry>, sensitivity: map<Target, bool>)
    requires SpecsTell(t, past, sensitivity) && NamesFit(t) && SpecsFit(t) && AddInputs(t, entries, sensitivity).Ok?
    ensures SpecsTell(AddInputs(t, entries, sensitivity).value, past + entries, sensitivity)
    decreases |entries|
  {
    if entries == [] {
      assert past + entries == past;
    } else {
      AddInputNames(t, entries[0], sensitivity);
      AddInputSpecs(t, entries[0], sensitivity);
      AddedSpecTells(t, past, entries[0], sensitivity);
      AddedSpecsTell(AddInput(t, entries[0], sensitivity).value, past + [entries[0]], entries[1..], sensitivity);
      assert past + [entries[0]] + entries[1..] == past + entries;
    }
  }

  lemma {:induction false} SensitivityIsDeclared(declarations: seq<Sensitivity>)
    requires SensitivityMap(declarations).Ok?
    ensures forall x :: x in SensitivityMap(declarations).value ==>
      Sensitivity(x, SensitivityMap(declarations).value[x]) in declarations
  {
    if declarations != [] {
      SensitivityIsDeclared(declarations[..|declarations| - 1]);
    }
  }

  /** An input is declared for a name of a fill, required, without limits, as sensitive as its first target was declared. */
  ghost predicate InputFits(spec: InputSpec, acts: seq<Entry>, declarations: seq<Sensitivity>) {
    exists k: nat, sensitive :: FirstNamed(acts, k, spec.name) && Sensitivity(acts[k].target, sensitive) in declarations
      && spec == InputSpec(spec.name, true, sensitive, None, None, None)
  }

  /** What a built definition takes from the request, and what its inputs and success conditions are. */
  lemma BuiltParts(q: BuildRequest, fingerprint: string -> string)
    requires Build(q, fingerprint).Ok?
    ensures var d, acts := Build(q, fingerprint).value, Acts(q.discovery.trace);
      && d.capabilityId == q.capabilityId && d.version == q.version && d.family == q.family
      && d.outputs == q.outputs && d.outcomes == q.outcomes
      && (forall spec :: spec in d.inputs ==> InputFits(spec, acts, q.sensitivity))
      && |d.success| == |q.templates|
      && (forall k :: 0 <= k < |d.success| ==>
            ConditionFits(q.templates[k], d.success[k], q.discovery.evidence, acts, fingerprint))
      && |d.steps| == |acts| && AllActs(acts)
      && (forall k :: 0 <= k < |acts| ==> d.steps[k].stepId == IdOf(acts, k))
  {
    StepIdsTell(q, fingerprint);
    var d, acts := Build(q, fingerprint).value, Acts(q.discovery.trace);
    var parts := BuildHasParts(q, fingerprint);
    AddedInputsAreFills(acts, parts.sensitivity);
    AddInputsFits(NoInputs, acts, parts.sensitivity);
    ConditionsAreBuilt(q.templates, q.discovery.evidence, parts.inputs.names, fingerprint);
    forall k | 0 <= k < |d.success|
      ensures ConditionFits(q.templates[k], d.success[k], q.discovery.evidence, acts, fingerprint)
    {
      ConditionIsBuilt(q.templates[k], q.discovery.evidence, parts.inputs.names, acts, fingerprint);
    }
    InputsFit(acts, q.sensitivity, parts.inputs);
  }

  /** The kind and the target with its dots as underscores, numbered from the second such action on. */
  function IdOf(acts: seq<Entry>, k: nat): string
    requires k < |acts| && acts[k].ActEntry?
  {
    BaseSpelled(acts[k]) + if Ordinal(acts, k) == 1 then "" else "_" + Money.Digits(Ordinal(acts, k))
  }

  lemma StepIdsTell(q: BuildRequest, fingerprint: string -> string)
    requires Build(q, fingerprint).Ok?
    ensures var d, acts := Build(q, fingerprint).value, Acts(q.discovery.trace);
      |d.steps| == |acts| && AllActs(acts) && forall k :: 0 <= k < |acts| ==> d.steps[k].stepId == IdOf(acts, k)
  {
    var acts := Acts(q.discovery.trace);
    var parts := BuildHasParts(q, fingerprint);
    ActsAreAllActs(q.discovery.trace);
    StepsCarryIds(acts, parts.inputs.names, parts.placements);
    StepsFit(q, fingerprint, Build(q, fingerprint).value, parts);
    forall k | 0 <= k < |acts|
      ensures StepId(BaseOf(acts[k]), Ordinal(acts, k)) == IdOf(acts, k)
    {
      IdIsSpelled(acts[k], Ordinal(acts, k));
    }
  }

  lemma IdIsSpelled(e: Entry, n: nat)
    requires e.ActEntry?
    ensures StepId(BaseOf(e), n) == BaseSpelled(e) + if n == 1 then "" else "_" + Money.Digits(n)
  {
    Appended(BaseOf(e), Money.Digits(n));
  }

  lemma Appended(base: string, digits: string)
    ensures base + "" == base && base + "_" + digits == base + ("_" + digits)
  {
  }

  function BaseSpelled(e: Entry): string
    requires e.ActEntry?
  {
    (if e.kind == FillKind then "fill_" else "click_") + Underscored(e.target)
  }

  lemma InputsFit(acts: seq<Entry>, declarations: seq<Sensitivity>, t: InputTable)
    requires SensitivityMap(declarations).Ok? && AddInputs(NoInputs, acts, SensitivityMap(declarations).value) == Ok(t)
    ensures forall spec :: spec in t.specs ==> InputFits(spec, acts, declarations)
  {
    var sensitivity := SensitivityMap(declarations).value;
    SensitivityIsDeclared(declarations);
    AddedSpecsTell(NoInputs, [], acts, sensitivity);
    assert [] + acts == acts;
    forall spec | spec in t.specs
      ensures InputFits(spec, acts, declarations)
    {
      DeclaredSpecFits(spec, acts, declarations, sensitivity);
    }
  }

  lemma DeclaredSpecFits(
    spec: InputSpec, acts: seq<Entry>, declarations: seq<Sensitivity>, sensitivity: map<Target, bool>)
    requires SpecFits(spec, acts, sensitivity)
    requires forall x :: x in sensitivity ==> Sensitivity(x, sensitivity[x]) in declarations
    ensures InputFits(spec, acts, declarations)
  {
    var k: nat :| FirstNamed(acts, k, spec.name) && acts[k].target in sensitivity
      && spec == InputSpec(spec.name, true, sensitivity[acts[k].target], None, None, None);
    assert Sensitivity(acts[k].target, sensitivity[acts[k].target]) in declarations;
  }

  // ---- The refusals ------------------------------------------------------------------------------

  /** The fill takes its value from another part of the goal than an earlier fill of the same input. */
  ghost predicate Conflicts(acts: seq<Entry>, k: nat)
    requires k < |acts|
  {
    exists j :: 0 <= j < k && SameName(acts[j], acts[k]) && acts[j].source != acts[k].source
  }

  ghost predicate EntryGap(acts: seq<Entry>, k: nat, declared: seq<Target>)
    requires k < |acts|
  {
    IsFill(acts[k]) &&
    (|| acts[k].source.None? || !IsInputName(LastSegment(acts[k].target)) || Conflicts(acts, k)
     || acts[k].target !in declared)
  }

  ghost predicate FirstEntryGap(acts: seq<Entry>, k: nat, declared: seq<Target>) {
    k < |acts| && EntryGap(acts, k, declared) && forall j :: 0 <= j < k ==> !EntryGap(acts, j, declared)
  }

  /** A conflict is reported where the first fill with a gap has one; any other gap of the inputs is a wrong declaration. */
  ghost predicate InputGapIs(acts: seq<Entry>, declarations: seq<Sensitivity>, e: BuildError) {
    var declared := SensitivityTargets(declarations);
    if AllDifferent(declared) && exists k :: FirstEntryGap(acts, k, declared) then
      exists k: nat :: FirstEntryGap(acts, k, declared) &&
        e == if acts[k].source.Some? && IsInputName(LastSegment(acts[k].target)) && Conflicts(acts, k)
             then InputNameConflict else InputSpecInvalid
    else e == InputSpecInvalid
  }

  /** The first gap of a request, in the order in which the gaps are looked for. */
  ghost predicate FirstGap(q: BuildRequest, fingerprint: string -> string, e: BuildError) {
    var acts := Acts(q.discovery.trace);
    && AllActs(acts)
    && if !Successful(q.discovery) then e == DiscoveryNotSuccessful
       else if !AllExecuted(acts) || |acts| != q.discovery.actions then e == TraceActionNotExecuted
       else if !InputsSpecified(acts, q.sensitivity) then
         InputGapIs(acts, q.sensitivity, e)
       else if !MetadataSpecified(acts, q.metadata) then e == MetadataInvalid
       else if exists i :: 0 <= i < |q.templates| && !TemplateBacked(q.templates[i], q.discovery.evidence, acts, fingerprint) then
         e == EvidenceMissing
       else if !OutputsVerified(q.outputs, q.discovery.evidence) then e == OutputSpecInvalid
       else e == ValidationFailed
  }

  /** Where adding inputs fails: the entry, and the table of the entries before it. */
  lemma {:induction false} FailsAt(t: InputTable, entries: seq<Entry>, sensitivity: map<Target, bool>) returns (k: nat, u: InputTable)
    requires AddInputs(t, entries, sensitivity).Err?
    ensures k < |entries| && AddInputs(t, entries[..k], sensitivity) == Ok(u)
    ensures AddInput(u, entries[k], sensitivity) == Err(AddInputs(t, entries, sensitivity).error)
    decreases |entries|
  {
    var next := AddInput(t, entries[0], sensitivity);
    if next.Err? {
      k, u := 0, t;
    } else {
      k, u := FailsAt(next.value, entries[1..], sensitivity);
      assert entries[..k + 1][0] == entries[0] && entries[..k + 1][1..] == entries[1..][..k];
      k := k + 1;
    }
  }

  lemma PrefixHasNoGap(acts: seq<Entry>, k: nat, sensitivity: map<Target, bool>, declared: seq<Target>)
    requires k <= |acts| && AddInputs(NoInputs, acts[..k], sensitivity).Ok?
    requires forall x :: x in sensitivity <==> x in declared
    ensures forall j :: 0 <= j < k ==> !EntryGap(acts, j, declared)
  {
    AddedInputsAreFills(acts[..k], sensitivity);
    forall j | 0 <= j < k
      ensures !EntryGap(acts, j, declared)
    {
      assert acts[..k][j] == acts[j];
      assert forall i :: 0 <= i < j ==> acts[..k][i] == acts[i];
    }
  }

  /** Adding a fill fails on its first gap. */
  lemma GapAt(acts: seq<Entry>, k: nat, u: InputTable, sensitivity: map<Target, bool>, declared: seq<Target>)
    requires k < |acts| && AddInputs(NoInputs, acts[..k], sensitivity) == Ok(u) && AddInput(u, acts[k], sensitivity).Err?
    requires forall x :: x in sensitivity <==> x in declared
    ensures EntryGap(acts, k, declared)
    ensures AddInput(u, acts[k], sensitivity).error ==
      if acts[k].source.Some? && IsInputName(LastSegment(acts[k].target)) && Conflicts(acts, k)
      then InputNameConflict else InputSpecInvalid
  {
    var name := LastSegment(acts[k].target);
    AddInputsFits(NoInputs, acts[..k], sensitivity);
    SourcesAreFilled(acts[..k], sensitivity, name);
    forall j | 0 <= j < k && SameName(acts[j], acts[k])
      ensures name in u.sources && acts[j].source == Some(u.sources[name])
    {
      assert Recorded(u, acts[..k][j]);
    }
    if name in u.sources {
      var j :| 0 <= j < k && IsFill(acts[..k][j]) && LastSegment(acts[..k][j].target) == name;
      assert SameName(acts[j], acts[k]);
    }
  }

  lemma InputGapTells(acts: seq<Entry>, declarations: seq<Sensitivity>)
    requires SensitivityMap(declarations).Ok? && AddInputs(NoInputs, acts, SensitivityMap(declarations).value).Err?
    ensures InputGapIs(acts, declarations, AddInputs(NoInputs, acts, SensitivityMap(declarations).value).error)
  {
    var sensitivity, declared := SensitivityMap(declarations).value, SensitivityTargets(declarations);
    SensitivitiesAreDifferent(declarations);
    var k, u := FailsAt(NoInputs, acts, sensitivity);
    PrefixHasNoGap(acts, k, sensitivity, declared);
    GapAt(acts, k, u, sensitivity, declared);
    assert FirstEntryGap(acts, k, declared);
  }

  lemma NoGapTells(acts: seq<Entry>, declarations: seq<Sensitivity>)
    requires SensitivityMap(declarations).Ok? ==> AddInputs(NoInputs, acts, SensitivityMap(declarations).value).Ok?
    ensures InputGapIs(acts, declarations, InputSpecInvalid)
  {
    SensitivitiesAreDifferent(declarations);
    if SensitivityMap(declarations).Ok? {
      assert acts[..|acts|] == acts;
      PrefixHasNoGap(acts, |acts|, SensitivityMap(declarations).value, SensitivityTargets(declarations));
    }
  }

  lemma {:induction false} SensitivityFails(declarations: seq<Sensitivity>)
    ensures SensitivityMap(declarations).Err? ==> SensitivityMap(declarations).error == InputSpecInvalid
  {
    if declarations != [] {
      SensitivityFails(declarations[..|declarations| - 1]);
    }
  }

  lemma {:induction false} PlacementFails(metadata: seq<Metadata>)
    ensures PlacementMap(metadata).Err? ==> PlacementMap(metadata).error == MetadataInvalid
  {
    if metadata != [] {
      PlacementFails(metadata[..|metadata| - 1]);
    }
  }

  lemma {:induction false} ConditionsFail(
    templates: seq<SuccessTemplate>, evidence: seq<Verified>, names: map<Target, string>, fingerprint: string -> string)
    ensures var r := BuildConditions(templates, evidence, names, fingerprint); r.Err? ==> r.error == EvidenceMissing
  {
    if templates != [] {
      ConditionsFail(templates[..|templates| - 1], evidence, names, fingerprint);
    }
  }

  lemma InputGap(q: BuildRequest, fingerprint: string -> string)
    requires var acts := Acts(q.discovery.trace);
      Successful(q.discovery) && AllExecuted(acts) && |acts| == q.discovery.actions && !InputsSpecified(acts, q.sensitivity)
    ensures Build(q, fingerprint).Err? && InputGapIs(Acts(q.discovery.trace), q.sensitivity, Build(q, fingerprint).error)
  {
    var acts := Acts(q.discovery.trace);
    InputsExactlyWhenSpecified(acts, q.sensitivity);
    SensitivityFails(q.sensitivity);
    if SensitivityMap(q.sensitivity).Ok? && AddInputs(NoInputs, acts, SensitivityMap(q.sensitivity).value).Err? {
      InputGapTells(acts, q.sensitivity);
    } else {
      NoGapTells(acts, q.sensitivity);
    }
  }

  /** A request that is refused is refused for its first gap. */
  lemma RefusalsTell(q: BuildRequest, fingerprint: string -> string)
    requires Build(q, fingerprint).Err?
    ensures FirstGap(q, fingerprint, Build(q, fingerprint).error)
  {
    var acts := Acts(q.discovery.trace);
    ActsAreAllActs(q.discovery.trace);
    if Successful(q.discovery) && AllExecuted(acts) && |acts| == q.discovery.actions {
      if InputsSpecified(acts, q.sensitivity) {
        LaterGap(q, fingerprint);
      } else {
        InputGap(q, fingerprint);
      }
    }
  }

  lemma LaterGap(q: BuildRequest, fingerprint: string -> string)
    requires Build(q, fingerprint).Err? && AllActs(Acts(q.discovery.trace))
    requires var acts := Acts(q.discovery.trace);
      Successful(q.discovery) && AllExecuted(acts) && |acts| == q.discovery.actions && InputsSpecified(acts, q.sensitivity)
    ensures FirstGap(q, fingerprint, Build(q, fingerprint).error)
  {
    var acts := Acts(q.discovery.trace);
    SelectorsAreDifferent(q.metadata);
    PlacementFails(q.metadata);
    InputsExactlyWhenSpecified(acts, q.sensitivity);
    if PlacementMap(q.metadata).Ok? {
      var t, steps := PartsOf(q, fingerprint);
      NothingIsLeft(acts, q.metadata, steps.left);
      ConditionsFail(q.templates, q.discovery.evidence, t.names, fingerprint);
      ConditionsExactlyWhenBacked(q.templates, q.discovery.evidence, t.names, fingerprint, acts);
      FromParts(q, fingerprint, t, steps);
    }
  }

  /** The build, once its inputs and its metadata are there. */
  lemma FromParts(q: BuildRequest, fingerprint: string -> string, t: InputTable, steps: StepTable)
    requires var acts := Acts(q.discovery.trace);
      && Successful(q.discovery) && AllExecuted(acts) && |acts| == q.discovery.actions
      && SensitivityMap(q.sensitivity).Ok? && AddInputs(NoInputs, acts, SensitivityMap(q.sensitivity).value) == Ok(t)
      && SensitivityMap(q.sensitivity).value.Keys == t.names.Keys && PlacementMap(q.metadata).Ok?
      && steps == AddSteps(StepTable([], map[], map[], PlacementMap(q.metadata).value), acts, t.names)
    ensures var success := BuildConditions(q.templates, q.discovery.evidence, t.names, fingerprint);
      Build(q, fingerprint) ==
        if steps.left != map[] then Err(MetadataInvalid)
        else if success.Err? then Err(success.error)
        else if !OutputsVerified(q.outputs, q.discovery.evidence) then Err(OutputSpecInvalid)
        else
          var d := Assembled(q, t.specs, steps.steps, success.value);
          if WellFormed(d) then Ok(d) else Err(ValidationFailed)
  {
  }
}
