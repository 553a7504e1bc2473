/** Exactly which requests build: those that specify everything, and whose step identifiers do not collide. */
module Buildable {
  import opened Contracts
  import opened Validator
  import opened Discovery
  import opened Builder
  import opened BuilderProofs
  import Money

  // ---- Step identifiers -----------------------------------------------------------------------

  function BaseOf(e: Entry): string
    requires e.ActEntry?
  {
    BaseStepId(e.kind, e.target)
  }

  /** How many of the actions have this base. */
  function BaseCount(acts: seq<Entry>, base: string): nat {
    if acts == [] then 0
    else
      var last := acts[|acts| - 1];
      BaseCount(acts[..|acts| - 1], base) + if last.ActEntry? && BaseOf(last) == base then 1 else 0
  }

  /** The position of an action among those of its base, from one. */
  function Ordinal(acts: seq<Entry>, k: nat): nat
    requires k < |acts| && acts[k].ActEntry?
  {
    BaseCount(acts[..k + 1], BaseOf(acts[k]))
  }

  ghost predicate AllActs(acts: seq<Entry>) {
    forall k :: 0 <= k < |acts| ==> acts[k].ActEntry?
  }

  /**
   * No base reads like another base with the ordinal of one of its later occurrences. This can be told from the
   * kinds and targets of the actions, before they are built.
   */
  ghost predicate IdsApart(acts: seq<Entry>)
    requires AllActs(acts)
  {
    forall j, k, n: nat :: 0 <= j < |acts| && 0 <= k < |acts| && 2 <= n <= BaseCount(acts, BaseOf(acts[k])) ==>
      BaseOf(acts[j]) != Numbered(BaseOf(acts[k]), n)
  }

  function Numbered(base: string, n: nat): string { base + "_" + Money.Digits(n) }

  lemma BaseCountOfMore(done: seq<Entry>, e: Entry, base: string)
    ensures BaseCount(done + [e], base) == BaseCount(done, base) + if e.ActEntry? && BaseOf(e) == base then 1 else 0
  {
    assert (done + [e])[..|done + [e]| - 1] == done;
  }

  lemma {:induction false} BaseCountGrows(acts: seq<Entry>, j: nat, k: nat, base: string)
    requires j <= k <= |acts|
    ensures BaseCount(acts[..j], base) <= BaseCount(acts[..k], base)
    decreases k
  {
    if j < k {
      BaseCountGrows(acts, j, k - 1, base);
      assert acts[..k] == acts[..k - 1] + [acts[k - 1]];
      BaseCountOfMore(acts[..k - 1], acts[k - 1], base);
    }
  }

  lemma OrdinalIsNext(acts: seq<Entry>, k: nat)
    requires k < |acts| && acts[k].ActEntry?
    ensures Ordinal(acts, k) == BaseCount(acts[..k], BaseOf(acts[k])) + 1
    ensures Ordinal(acts, k) <= BaseCount(acts, BaseOf(acts[k]))
  {
    OneMore(acts, k);
    BaseCountOfMore(acts[..k], acts[k], BaseOf(acts[k]));
    BaseCountGrows(acts, k + 1, |acts|, BaseOf(acts[k]));
  }

  lemma OneMore<T>(xs: seq<T>, k: nat)
    requires k < |xs|
    ensures xs[..k + 1] == xs[..k] + [xs[k]] && xs[..|xs|] == xs
  {
  }

  /** Two actions of one base have different ordinals. */
  lemma OrdinalsDiffer(acts: seq<Entry>, j: nat, k: nat)
    requires j < k < |acts| && acts[j].ActEntry? && acts[k].ActEntry? && BaseOf(acts[j]) == BaseOf(acts[k])
    ensures 1 <= Ordinal(acts, j) < Ordinal(acts, k)
  {
    OrdinalIsNext(acts, j);
    OrdinalIsNext(acts, k);
    BaseCountGrows(acts, j + 1, k, BaseOf(acts[k]));
  }

  /** Every ordinal up to the count is some action's. */
  lemma {:induction false} OrdinalIsTaken(acts: seq<Entry>, base: string, n: nat) returns (k: nat)
    requires AllActs(acts) && 1 <= n <= BaseCount(acts, base)
    ensures k < |acts| && BaseOf(acts[k]) == base && Ordinal(acts, k) == n
  {
    var before := acts[..|acts| - 1];
    if n <= BaseCount(before, base) {
      k := OrdinalIsTaken(before, base, n);
      assert acts[..k + 1] == before[..k + 1];
    } else {
      k := |acts| - 1;
      OrdinalIsNext(acts, k);
    }
  }

  // ---- Reading an identifier back ------------------------------------------------------------------

  lemma DigitsAreInjective(m: nat, n: nat)
    requires Money.Digits(m) == Money.Digits(n)
    ensures m == n
  {
    Money.ValueOfDigits(m);
    Money.ValueOfDigits(n);
  }

  /** The last underscore tells base and number apart. */
  lemma NumberedIsInjective(a: string, m: nat, b: string, n: nat)
    requires Numbered(a, m) == Numbered(b, n)
    ensures a == b && m == n
  {
    var s, d, e := Numbered(a, m), Money.Digits(m), Money.Digits(n);
    assert s == a + "_" + d == b + "_" + e;
    assert s[|a|] == '_' && s[|b|] == '_';
    assert forall i :: |a| < i < |s| ==> s[i] == d[i - |a| - 1];
    assert forall i :: |b| < i < |s| ==> s[i] == e[i - |b| - 1];
    assert |a| == |b|;
    assert a == s[..|a|] && b == s[..|b|];
    assert d == s[|a| + 1..] && e == s[|b| + 1..];
    DigitsAreInjective(m, n);
  }

  /** Two identifiers are the same only for one base and ordinal, or where one base spells the other's number. */
  lemma SameIds(a: string, m: nat, b: string, n: nat)
    requires m >= 1 && n >= 1
    ensures StepId(a, m) == StepId(b, n) <==>
      || (a == b && m == n)
      || (m == 1 && n >= 2 && a == Numbered(b, n))
      || (n == 1 && m >= 2 && b == Numbered(a, m))
  {
    if m >= 2 && n >= 2 && StepId(a, m) == StepId(b, n) {
      NumberedIsInjective(a, m, b, n);
    }
    if m >= 2 {
      assert |Numbered(a, m)| > |a|;
    }
    if n >= 2 {
      assert |Numbered(b, n)| > |b|;
    }
  }

  /** The steps carry these identifiers. */
  ghost predicate IdsFit(t: StepTable, done: seq<Entry>) {
    && AllActs(done) && |t.steps| == |done|
    && (forall base :: Get(t.ids, base) == BaseCount(done, base))
    && (forall k :: 0 <= k < |done| ==> t.steps[k].stepId == StepId(BaseOf(done[k]), Ordinal(done, k)))
  }

  lemma AddStepIds(t: StepTable, done: seq<Entry>, e: Entry, names: map<Target, string>)
    requires IdsFit(t, done) && Fillable(e, names)
    ensures IdsFit(AddStep(t, e, names), done + [e])
  {
    var u, more := AddStep(t, e, names), done + [e];
    forall base
      ensures Get(u.ids, base) == BaseCount(more, base)
    {
      BaseCountOfMore(done, e, base);
      assert Get(t.ids, base) == BaseCount(done, base);
    }
    forall k | 0 <= k < |more|
      ensures u.steps[k].stepId == StepId(BaseOf(more[k]), Ordinal(more, k))
    {
      if k < |done| {
        assert more[..k + 1] == done[..k + 1];
      } else {
        assert more[..k + 1] == more;
      }
    }
  }

  lemma NextIdFits(t: StepTable, acts: seq<Entry>, k: nat, names: map<Target, string>)
    requires k < |acts| && Fillable(acts[k], names) && IdsFit(t, acts[..k])
    ensures IdsFit(Adder(names)(t, acts[k]), acts[..k + 1])
  {
    assert acts[..k + 1] == acts[..k] + [acts[k]];
    AddStepIds(t, acts[..k], acts[k], names);
  }

  lemma StepsCarryIds(acts: seq<Entry>, names: map<Target, string>, placements: Placements)
    requires AllFillable(acts, names)
    ensures IdsFit(AddSteps(StepTable([], map[], map[], placements), acts, names), acts)
  {
    var fits := (t, done) => IdsFit(t, done);
    forall t, k | 0 <= k < |acts| && fits(t, acts[..k])
      ensures fits(Adder(names)(t, acts[k]), acts[..k + 1])
    {
      NextIdFits(t, acts, k, names);
    }
    FoldInduction(Adder(names), fits, StepTable([], map[], map[], placements), acts, |acts|);
    assert acts[..|acts|] == acts;
  }

  lemma ApartDiffer(acts: seq<Entry>, j: nat, k: nat)
    requires AllActs(acts) && IdsApart(acts) && j < k < |acts|
    ensures StepId(BaseOf(acts[j]), Ordinal(acts, j)) != StepId(BaseOf(acts[k]), Ordinal(acts, k))
  {
    OrdinalIsNext(acts, j);
    OrdinalIsNext(acts, k);
    if BaseOf(acts[j]) == BaseOf(acts[k]) {
      OrdinalsDiffer(acts, j, k);
    }
    SameIds(BaseOf(acts[j]), Ordinal(acts, j), BaseOf(acts[k]), Ordinal(acts, k));
  }

  /** Where they are not kept apart, the first action of one base and a later one of another have one identifier. */
  lemma CollidingPair(acts: seq<Entry>) returns (first: nat, later: nat)
    requires AllActs(acts) && !IdsApart(acts)
    ensures first < |acts| && later < |acts| && first != later
    ensures StepId(BaseOf(acts[first]), Ordinal(acts, first)) == StepId(BaseOf(acts[later]), Ordinal(acts, later))
  {
    var j, k, n: nat :| 0 <= j < |acts| && 0 <= k < |acts| && 2 <= n <= BaseCount(acts, BaseOf(acts[k]))
                        && BaseOf(acts[j]) == Numbered(BaseOf(acts[k]), n);
    OrdinalIsNext(acts, j);
    first := OrdinalIsTaken(acts, BaseOf(acts[j]), 1);
    later := OrdinalIsTaken(acts, BaseOf(acts[k]), n);
    assert |Numbered(BaseOf(acts[k]), n)| > |BaseOf(acts[k])|;
  }

  /** The identifiers of the built steps are distinct exactly when the actions keep them apart. */
  lemma DistinctExactlyWhenApart(t: StepTable, acts: seq<Entry>)
    requires IdsFit(t, acts)
    ensures Distinct(StepIds(t.steps)) <==> IdsApart(acts)
  {
    if IdsApart(acts) {
      forall j, k | 0 <= j < k < |acts|
        ensures t.steps[j].stepId != t.steps[k].stepId
      {
        ApartDiffer(acts, j, k);
      }
    } else {
      var first, later := CollidingPair(acts);
      assert StepIds(t.steps)[first] == StepIds(t.steps)[later];
    }
  }

  // ---- What a request has to specify -----------------------------------------------------------------

  function SensitivityTargets(declarations: seq<Sensitivity>): seq<Target> {
    seq(|declarations|, i requires 0 <= i < |declarations| => declarations[i].target)
  }

  function Selectors(metadata: seq<Metadata>): seq<Selector> {
    seq(|metadata|, i requires 0 <= i < |metadata| => metadata[i].selector)
  }

  predicate AllDifferent<T(==)>(xs: seq<T>) {
    forall i, j :: 0 <= i < j < |xs| ==> xs[i] != xs[j]
  }

  /** The input names of the fills. */
  function FillNames(acts: seq<Entry>): set<string> {
    set k | 0 <= k < |acts| && IsFill(acts[k]) :: LastSegment(acts[k].target)
  }

  /** Sensitivity is declared once for each fill target and for no other, and each input name has one span. */
  ghost predicate InputsSpecified(acts: seq<Entry>, declarations: seq<Sensitivity>) {
    && AllDifferent(SensitivityTargets(declarations))
    && (forall x :: x in SensitivityTargets(declarations) <==> FilledBy(x, acts))
    && OneSourcePerName(acts)
    && (forall k :: 0 <= k < |acts| && IsFill(acts[k]) ==> IsInputName(LastSegment(acts[k].target)))
  }

  /** Each piece of metadata selects an action of its own. */
  ghost predicate MetadataSpecified(acts: seq<Entry>, metadata: seq<Metadata>)
    requires AllActs(acts)
  {
    && AllDifferent(Selectors(metadata))
    && (forall i :: 0 <= i < |metadata| ==> SelectsOne(metadata[i].selector, acts))
  }

  ghost predicate SelectsOne(s: Selector, acts: seq<Entry>)
    requires AllActs(acts)
  {
    exists k :: 0 <= k < |acts| && SelectorOf(acts, k) == s
  }

  /** The discovery verified what the template claims. */
  ghost predicate TemplateBacked(
    template: SuccessTemplate, evidence: seq<Verified>, acts: seq<Entry>, fingerprint: string -> string)
  {
    && EvidenceFor(template.target, evidence).Some?
    && var v := EvidenceFor(template.target, evidence).value;
       match template
       case InputEquality(_, source) => FilledBy(source, acts) && v.source == Some(source)
       case LiteralEquality(_, expected) => v.fingerprint == fingerprint(expected)
       case VisibleTemplate(_) => true
  }

  predicate ClosedOption(c: Option<Condition>, names: set<string>) { c.Some? ==> ClosedCondition(c.value, names) }

  /** The conditions a request brings along refer to inputs of the fills only. */
  ghost predicate ConditionsClosed(q: BuildRequest, names: set<string>) {
    && (forall i :: 0 <= i < |q.metadata| ==> ClosedMetadata(q.metadata[i], names))
    && (forall i :: 0 <= i < |q.outcomes| ==> ClosedConditions(q.outcomes[i].conditions, names))
  }

  /** The request specifies everything a build needs, apart from the step identifiers. */
  ghost predicate FullySpecified(q: BuildRequest, fingerprint: string -> string) {
    var acts := Acts(q.discovery.trace);
    && AllActs(acts) && Successful(q.discovery) && AllExecuted(acts) && |acts| == q.discovery.actions
    && InputsSpecified(acts, q.sensitivity) && MetadataSpecified(acts, q.metadata)
    && q.templates != []
    && (forall i :: 0 <= i < |q.templates| ==> TemplateBacked(q.templates[i], q.discovery.evidence, acts, fingerprint))
    && OutputsVerified(q.outputs, q.discovery.evidence)
    && Distinct(OutputNames(q.outputs)) && Distinct(OutcomeCodes(q.outcomes))
    && ConditionsClosed(q, FillNames(acts))
  }

  // ---- Sensitivity and metadata ----------------------------------------------------------------------

  lemma {:induction false} SensitivitiesAreDifferent(declarations: seq<Sensitivity>)
    ensures SensitivityMap(declarations).Ok? <==> AllDifferent(SensitivityTargets(declarations))
    ensures SensitivityMap(declarations).Ok? ==>
      forall x :: x in SensitivityMap(declarations).value <==> x in SensitivityTargets(declarations)
  {
    if declarations != [] {
      var before, last := declarations[..|declarations| - 1], declarations[|declarations| - 1];
      SensitivitiesAreDifferent(before);
      assert SensitivityTargets(declarations) == SensitivityTargets(before) + [last.target];
      LastDiffers(SensitivityTargets(before), last.target);
    }
  }

  lemma LastDiffers<T>(xs: seq<T>, x: T)
    ensures AllDifferent(xs + [x]) <==> AllDifferent(xs) && x !in xs
  {
    if AllDifferent(xs + [x]) {
      assert forall i :: 0 <= i < |xs| ==> (xs + [x])[i] == xs[i];
      assert (xs + [x])[|xs|] == x;
    }
  }

  lemma {:induction false} SelectorsAreDifferent(metadata: seq<Metadata>)
    ensures PlacementMap(metadata).Ok? <==> AllDifferent(Selectors(metadata))
    ensures PlacementMap(metadata).Ok? ==>
      forall s :: s in PlacementMap(metadata).value <==> s in Selectors(metadata)
  {
    if metadata != [] {
      var before, last := metadata[..|metadata| - 1], metadata[|metadata| - 1];
      SelectorsAreDifferent(before);
      assert Selectors(metadata) == Selectors(before) + [last.selector];
      LastDiffers(Selectors(before), last.selector);
    }
  }

  /** A selector is used up exactly when it selects an action. */
  lemma UsedExactlyWhenSelected(s: Selector, acts: seq<Entry>)
    requires AllActs(acts)
    ensures Used(s, acts) <==> SelectsOne(s, acts)
  {
    if Used(s, acts) {
      var k := UsedByAnAction(s, acts);
    }
    if SelectsOne(s, acts) {
      var k :| 0 <= k < |acts| && SelectorOf(acts, k) == s;
      var done := acts[..k];
      assert acts[..k + 1] == done + [acts[k]] && acts[..|acts|] == acts;
      CountOfMore(done, acts[k], s.kind, s.target);
      CountGrows(acts, k + 1, |acts|, s.kind, s.target);
    }
  }

  lemma {:induction false} CountGrows(acts: seq<Entry>, j: nat, k: nat, kind: ActionKind, target: Target)
    requires j <= k <= |acts|
    ensures Count(acts[..j], kind, target) <= Count(acts[..k], kind, target)
    decreases k
  {
    if j < k {
      CountGrows(acts, j, k - 1, kind, target);
      assert acts[..k] == acts[..k - 1] + [acts[k - 1]];
      CountOfMore(acts[..k - 1], acts[k - 1], kind, target);
    }
  }

  /** Nothing is left over exactly when every piece selects an action. */
  lemma NothingIsLeft(acts: seq<Entry>, metadata: seq<Metadata>, left: Placements)
    requires AllActs(acts) && PlacementMap(metadata).Ok? && LeftFits(left, acts, PlacementMap(metadata).value)
    ensures left == map[] <==> forall i :: 0 <= i < |metadata| ==> SelectsOne(metadata[i].selector, acts)
  {
    SelectorsAreDifferent(metadata);
    forall s
      ensures s in left <==> s in Selectors(metadata) && !SelectsOne(s, acts)
    {
      UsedExactlyWhenSelected(s, acts);
    }
    if left == map[] {
      forall i | 0 <= i < |metadata|
        ensures SelectsOne(metadata[i].selector, acts)
      {
        assert Selectors(metadata)[i] == metadata[i].selector;
        assert metadata[i].selector !in left;
      }
    } else {
      var s :| s in left;
      var i :| 0 <= i < |metadata| && Selectors(metadata)[i] == s;
      assert !SelectsOne(metadata[i].selector, acts);
    }
  }

  // ---- Inputs -----------------------------------------------------------------------------------------

  /** The table agrees with the spans of the entries still to come. */
  ghost predicate Agrees(t: InputTable, entries: seq<Entry>) {
    forall k :: 0 <= k < |entries| && IsFill(entries[k]) && LastSegment(entries[k].target) in t.sources ==>
      entries[k].source == Some(t.sources[LastSegment(entries[k].target)])
  }

  ghost predicate Nameable(entries: seq<Entry>, sensitivity: map<Target, bool>) {
    forall k :: 0 <= k < |entries| && IsFill(entries[k]) ==>
      IsInputName(LastSegment(entries[k].target)) && entries[k].target in sensitivity
  }

  lemma AddedAgrees(t: InputTable, entries: seq<Entry>, sensitivity: map<Target, bool>)
    requires entries != [] && OneSourcePerName(entries) && Agrees(t, entries) && Nameable(entries, sensitivity)
    ensures AddInput(t, entries[0], sensitivity).Ok?
    ensures Agrees(AddInput(t, entries[0], sensitivity).value, entries[1..])
  {
    var rest := entries[1..];
    forall k | 0 <= k < |rest| && IsFill(rest[k])
      ensures rest[k] == entries[k + 1] && (SameName(entries[0], rest[k]) ==> rest[k].source == entries[0].source)
    {
      assert SameName(entries[0], entries[k + 1]) ==> entries[0].source == entries[k + 1].source;
    }
  }

  lemma {:induction false} InputsCanBeAdded(t: InputTable, entries: seq<Entry>, sensitivity: map<Target, bool>)
    requires OneSourcePerName(entries) && Agrees(t, entries) && Nameable(entries, sensitivity)
    ensures AddInputs(t, entries, sensitivity).Ok?
    decreases |entries|
  {
    if entries != [] {
      AddedAgrees(t, entries, sensitivity);
      RestIsSpecified(entries, sensitivity);
      InputsCanBeAdded(AddInput(t, entries[0], sensitivity).value, entries[1..], sensitivity);
    }
  }

  lemma RestIsSpecified(entries: seq<Entry>, sensitivity: map<Target, bool>)
    requires entries != [] && OneSourcePerName(entries) && Nameable(entries, sensitivity)
    ensures OneSourcePerName(entries[1..]) && Nameable(entries[1..], sensitivity)
  {
    var rest := entries[1..];
    assert forall k :: 0 <= k < |rest| ==> rest[k] == entries[k + 1];
  }

  /** Every name in the table is a fit input name of a declared target. */
  ghost predicate NamesDeclared(t: InputTable, sensitivity: map<Target, bool>) {
    forall x :: x in t.names ==> x in sensitivity && IsInputName(LastSegment(x))
  }

  lemma {:induction false} AddedAreDeclared(t: InputTable, entries: seq<Entry>, sensitivity: map<Target, bool>)
    requires NamesDeclared(t, sensitivity) && AddInputs(t, entries, sensitivity).Ok?
    ensures NamesDeclared(AddInputs(t, entries, sensitivity).value, sensitivity)
    decreases |entries|
  {
    if entries != [] {
      AddedAreDeclared(AddInput(t, entries[0], sensitivity).value, entries[1..], sensitivity);
    }
  }

  /** The inputs can be built, for exactly the declared targets, exactly when they are specified. */
  lemma InputsExactlyWhenSpecified(acts: seq<Entry>, declarations: seq<Sensitivity>)
    ensures InputsSpecified(acts, declarations) <==>
      && SensitivityMap(declarations).Ok?
      && AddInputs(NoInputs, acts, SensitivityMap(declarations).value).Ok?
      && SensitivityMap(declarations).value.Keys
           == AddInputs(NoInputs, acts, SensitivityMap(declarations).value).value.names.Keys
  {
    SensitivitiesAreDifferent(declarations);
    if SensitivityMap(declarations).Ok? {
      var sensitivity := SensitivityMap(declarations).value;
      if InputsSpecified(acts, declarations) {
        forall k | 0 <= k < |acts| && IsFill(acts[k])
          ensures acts[k].target in sensitivity
        {
          assert FilledBy(acts[k].target, acts);
        }
        InputsCanBeAdded(NoInputs, acts, sensitivity);
      }
      if AddInputs(NoInputs, acts, sensitivity).Ok? {
        AddedInputsAreFills(acts, sensitivity);
      }
    }
  }

  lemma AddedInputsAreFills(acts: seq<Entry>, sensitivity: map<Target, bool>)
    requires AddInputs(NoInputs, acts, sensitivity).Ok?
    ensures var t := AddInputs(NoInputs, acts, sensitivity).value;
      && (forall x :: x in t.names <==> FilledBy(x, acts)) && OneSourcePerName(acts) && Nameable(acts, sensitivity)
  {
    var t := AddInputs(NoInputs, acts, sensitivity).value;
    AddInputsFits(NoInputs, acts, sensitivity);
    AddedAreDeclared(NoInputs, acts, sensitivity);
    OneSourceEach(t, acts);
    forall k | 0 <= k < |acts| && IsFill(acts[k])
      ensures acts[k].target in t.names
    {
      assert Recorded(t, acts[k]);
    }
  }

  // ---- Conditions ---------------------------------------------------------------------------------------

  /** The input table of a specified request: a name for each fill target, its last segment. */
  ghost predicate NamesFills(names: map<Target, string>, acts: seq<Entry>) {
    forall x :: (x in names <==> FilledBy(x, acts)) && (x in names ==> names[x] == LastSegment(x))
  }

  lemma {:induction false} ConditionsExactlyWhenBacked(
    templates: seq<SuccessTemplate>, evidence: seq<Verified>, names: map<Target, string>, fingerprint: string -> string,
    acts: seq<Entry>)
    requires NamesFills(names, acts)
    ensures BuildConditions(templates, evidence, names, fingerprint).Ok? <==>
      forall i :: 0 <= i < |templates| ==> TemplateBacked(templates[i], evidence, acts, fingerprint)
    ensures var r := BuildConditions(templates, evidence, names, fingerprint);
      r.Ok? ==> |r.value| == |templates| && ClosedConditions(r.value, FillNames(acts))
  {
    if templates != [] {
      var last := |templates| - 1;
      ConditionsExactlyWhenBacked(templates[..last], evidence, names, fingerprint, acts);
      if TemplateBacked(templates[last], evidence, acts, fingerprint) && templates[last].InputEquality? {
        FillIsNamed(templates[last].source, acts);
      }
    }
  }

  lemma FillIsNamed(x: Target, acts: seq<Entry>)
    requires FilledBy(x, acts)
    ensures LastSegment(x) in FillNames(acts)
  {
    var k :| 0 <= k < |acts| && IsFill(acts[k]) && acts[k].target == x;
  }

  predicate ClosedMetadata(m: Metadata, names: set<string>) {
    ClosedOption(m.precondition, names) && ClosedOption(m.postcondition, names)
  }

  /** A fitting step is closed exactly when the metadata it carries is. */
  lemma StepClosedWhenMetadataIs(
    step: Step, acts: seq<Entry>, k: nat, names: map<Target, string>, placements: Placements)
    requires k < |acts| && Fillable(acts[k], names) && NamesFills(names, acts)
    requires StepFits(step, acts, k, names, placements)
    ensures ClosedStep(step, FillNames(acts)) <==>
      SelectorOf(acts, k) in placements ==> ClosedMetadata(placements[SelectorOf(acts, k)], FillNames(acts))
  {
    if IsFill(acts[k]) {
      assert FilledBy(acts[k].target, acts);
      FillIsNamed(acts[k].target, acts);
    }
  }

  /** The steps are closed exactly when all the metadata is. */
  lemma StepsClosedWhenMetadataIs(
    steps: seq<Step>, acts: seq<Entry>, names: map<Target, string>, metadata: seq<Metadata>)
    requires AllFillable(acts, names) && NamesFills(names, acts) && MetadataSpecified(acts, metadata)
    requires PlacementMap(metadata).Ok? && |steps| == |acts|
    requires forall k :: 0 <= k < |acts| ==> StepFits(steps[k], acts, k, names, PlacementMap(metadata).value)
    ensures (forall k :: 0 <= k < |steps| ==> ClosedStep(steps[k], FillNames(acts))) <==>
            (forall i :: 0 <= i < |metadata| ==> ClosedMetadata(metadata[i], FillNames(acts)))
  {
    var placements, inputs := PlacementMap(metadata).value, FillNames(acts);
    PlacementsAreDeclared(metadata);
    forall k | 0 <= k < |acts|
      ensures ClosedStep(steps[k], inputs) <==>
        SelectorOf(acts, k) in placements ==> ClosedMetadata(placements[SelectorOf(acts, k)], inputs)
    {
      StepClosedWhenMetadataIs(steps[k], acts, k, names, placements);
    }
    if forall k :: 0 <= k < |steps| ==> ClosedStep(steps[k], inputs) {
      forall i | 0 <= i < |metadata|
        ensures ClosedMetadata(metadata[i], inputs)
      {
        var k :| 0 <= k < |acts| && SelectorOf(acts, k) == metadata[i].selector;
        assert ClosedStep(steps[k], inputs);
      }
    }
    if forall i :: 0 <= i < |metadata| ==> ClosedMetadata(metadata[i], inputs) {
      forall k | 0 <= k < |steps|
        ensures ClosedStep(steps[k], inputs)
      {
        if SelectorOf(acts, k) in placements {
          var i :| 0 <= i < |metadata| && metadata[i].selector == SelectorOf(acts, k);
          assert placements[SelectorOf(acts, k)] == metadata[i];
        }
      }
    }
  }

  // ---- The build ------------------------------------------------------------------------------------------

  /** What the parts of a specified request are. */
  ghost predicate PartsFit(q: BuildRequest, fingerprint: string -> string, t: InputTable, steps: StepTable, success: seq<Condition>)
  {
    var acts := Acts(q.discovery.trace);
    && SpecsFit(t) && Declared(t.specs) == FillNames(acts) && NamesFills(t.names, acts) && AllFillable(acts, t.names)
    && PlacementMap(q.metadata).Ok? && MetadataSpecified(acts, q.metadata)
    && TableAt(steps, acts, t.names, PlacementMap(q.metadata).value) && IdsFit(steps, acts)
    && |success| == |q.templates| && ClosedConditions(success, FillNames(acts))
  }

  /** The assembled definition is well formed exactly when what the request brings along is, and identifiers are apart. */
  lemma WellFormedExactlyWhen(
    q: BuildRequest, fingerprint: string -> string, t: InputTable, steps: StepTable, success: seq<Condition>)
    requires PartsFit(q, fingerprint, t, steps, success)
    ensures var acts := Acts(q.discovery.trace);
      WellFormed(Assembled(q, t.specs, steps.steps, success)) <==>
        && q.templates != [] && Distinct(OutputNames(q.outputs)) && Distinct(OutcomeCodes(q.outcomes))
        && ConditionsClosed(q, FillNames(acts)) && IdsApart(acts)
  {
    var acts := Acts(q.discovery.trace);
    DistinctExactlyWhenApart(steps, acts);
    StepsClosedWhenMetadataIs(steps.steps, acts, t.names, q.metadata);
  }

  lemma SpecifiedInputs(acts: seq<Entry>, sensitivity: map<Target, bool>)
    requires AllActs(acts) && AddInputs(NoInputs, acts, sensitivity).Ok?
    ensures var t := AddInputs(NoInputs, acts, sensitivity).value;
      SpecsFit(t) && Declared(t.specs) == FillNames(acts) && NamesFills(t.names, acts) && AllFillable(acts, t.names)
  {
    var t := AddInputs(NoInputs, acts, sensitivity).value;
    AddInputsFits(NoInputs, acts, sensitivity);
    AddedInputsAreFills(acts, sensitivity);
    GoalInputsPass("", acts, sensitivity);
    GoalInputsAgree("", acts);
    forall n
      ensures n in Declared(t.specs) <==> n in FillNames(acts)
    {
      assert n in GoalInputs("", acts) <==> NamedBy(n, acts);
    }
    forall k | 0 <= k < |acts|
      ensures Fillable(acts[k], t.names)
    {
      assert IsFill(acts[k]) ==> FilledBy(acts[k].target, acts);
    }
  }

  lemma {:induction false} ActsAreAllActs(trace: seq<Entry>)
    ensures AllActs(Acts(trace))
  {
    if trace != [] {
      ActsAreAllActs(trace[1..]);
    }
  }

  /** The guards before the definition is assembled. */
  ghost predicate PassesGuards(q: BuildRequest, fingerprint: string -> string) {
    var acts := Acts(q.discovery.trace);
    && Successful(q.discovery) && AllExecuted(acts) && |acts| == q.discovery.actions
    && InputsSpecified(acts, q.sensitivity) && AllActs(acts) && MetadataSpecified(acts, q.metadata)
    && (forall i :: 0 <= i < |q.templates| ==> TemplateBacked(q.templates[i], q.discovery.evidence, acts, fingerprint))
    && OutputsVerified(q.outputs, q.discovery.evidence)
  }

  /** The parts the build computes, once its inputs and metadata maps are there. */
  lemma PartsOf(q: BuildRequest, fingerprint: string -> string) returns (t: InputTable, steps: StepTable)
    requires var acts := Acts(q.discovery.trace);
      InputsSpecified(acts, q.sensitivity) && PlacementMap(q.metadata).Ok?
    ensures var acts := Acts(q.discovery.trace);
      && SensitivityMap(q.sensitivity).Ok? && AddInputs(NoInputs, acts, SensitivityMap(q.sensitivity).value) == Ok(t)
      && SensitivityMap(q.sensitivity).value.Keys == t.names.Keys
      && steps == AddSteps(StepTable([], map[], map[], PlacementMap(q.metadata).value), acts, t.names)
      && SpecsFit(t) && Declared(t.specs) == FillNames(acts) && NamesFills(t.names, acts) && AllFillable(acts, t.names)
      && TableAt(steps, acts, t.names, PlacementMap(q.metadata).value) && IdsFit(steps, acts)
  {
    var acts := Acts(q.discovery.trace);
    ActsAreAllActs(q.discovery.trace);
    InputsExactlyWhenSpecified(acts, q.sensitivity);
    t := AddInputs(NoInputs, acts, SensitivityMap(q.sensitivity).value).value;
    SpecifiedInputs(acts, SensitivityMap(q.sensitivity).value);
    steps := AddSteps(StepTable([], map[], map[], PlacementMap(q.metadata).value), acts, t.names);
    AddStepsFits(acts, t.names, PlacementMap(q.metadata).value);
    StepsCarryIds(acts, t.names, PlacementMap(q.metadata).value);
  }

  /** Past the guards, the build answers what the validator says of the assembled definition. */
  lemma GuardsPassed(q: BuildRequest, fingerprint: string -> string)
    returns (t: InputTable, steps: StepTable, success: seq<Condition>)
    requires PassesGuards(q, fingerprint)
    ensures PartsFit(q, fingerprint, t, steps, success)
    ensures var d := Assembled(q, t.specs, steps.steps, success);
      Build(q, fingerprint) == if WellFormed(d) then Ok(d) else Err(ValidationFailed)
  {
    var acts := Acts(q.discovery.trace);
    SelectorsAreDifferent(q.metadata);
    t, steps := PartsOf(q, fingerprint);
    NothingIsLeft(acts, q.metadata, steps.left);
    ConditionsExactlyWhenBacked(q.templates, q.discovery.evidence, t.names, fingerprint, acts);
    success := BuildConditions(q.templates, q.discovery.evidence, t.names, fingerprint).value;
  }

  /** A build that was made had passed the guards. */
  lemma BuiltPassesGuards(q: BuildRequest, fingerprint: string -> string)
    requires Build(q, fingerprint).Ok?
    ensures PassesGuards(q, fingerprint)
  {
    var acts := Acts(q.discovery.trace);
    ActsAreAllActs(q.discovery.trace);
    InputsExactlyWhenSpecified(acts, q.sensitivity);
    SelectorsAreDifferent(q.metadata);
    var t, steps := PartsOf(q, fingerprint);
    NothingIsLeft(acts, q.metadata, steps.left);
    ConditionsExactlyWhenBacked(q.templates, q.discovery.evidence, t.names, fingerprint, acts);
  }

  /**
   * Exactly which requests build: the fully specified ones whose actions keep their step identifiers apart. A fully
   * specified request whose identifiers collide fails in validation, and for nothing else.
   */
  lemma BuildsExactlyWhen(q: BuildRequest, fingerprint: string -> string)
    ensures AllActs(Acts(q.discovery.trace))
    ensures Build(q, fingerprint).Ok? <==> FullySpecified(q, fingerprint) && IdsApart(Acts(q.discovery.trace))
    ensures FullySpecified(q, fingerprint) && !IdsApart(Acts(q.discovery.trace)) ==>
      Build(q, fingerprint) == Err(ValidationFailed)
  {
    ActsAreAllActs(q.discovery.trace);
    if Build(q, fingerprint).Ok? {
      BuiltPassesGuards(q, fingerprint);
    }
    if PassesGuards(q, fingerprint) {
      var t, steps, success := GuardsPassed(q, fingerprint);
      WellFormedExactlyWhen(q, fingerprint, t, steps, success);
    }
  }
}
