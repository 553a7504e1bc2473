/** What verdicts, terminal states and outputs mean, in terms of what a snapshot shows. */
module Meanings {
  import opened Contracts
  import opened Text
  import opened Money
  import opened Evaluator

  // ---- Conditions ---------------------------------------------------------------------

  lemma {:induction false} FoundIsFirst(t: Target, s: Snapshot)
    ensures var o := FindObservation(t, s);
      if o.Some? then exists k :: 0 <= k < |s| && s[k] == o.value && s[k].target == t && forall j :: 0 <= j < k ==> s[j].target != t
      else forall k :: 0 <= k < |s| ==> s[k].target != t
  {
    if s != [] && s[0].target != t {
      FoundIsFirst(t, s[1..]);
      if FindObservation(t, s).Some? {
        var k :| 0 <= k < |s[1..]| && s[1..][k] == FindObservation(t, s).value && s[1..][k].target == t
                 && forall j :: 0 <= j < k ==> s[1..][j].target != t;
        assert forall j :: 0 < j < k + 1 ==> s[j] == s[1..][j - 1];
        assert s[k + 1] == s[1..][k];
      } else {
        assert forall k :: 0 < k < |s| ==> s[k] == s[1..][k - 1];
      }
    }
  }

  predicate Sees(t: Target, s: Snapshot) {
    FindObservation(t, s).Some? && FindObservation(t, s).value.state == Visible
  }

  predicate Misses(t: Target, s: Snapshot) {
    FindObservation(t, s).Some? && FindObservation(t, s).value.state == NotVisible
  }

  predicate ShowsText(t: Target, s: Snapshot, text: string) {
    Sees(t, s) && FindObservation(t, s).value.text == Some(text)
  }

  /** The text a reference stands for. */
  predicate StandsFor(v: ValueRef, i: Inputs, text: string) {
    match v
    case Literal(t) => text == t
    case Input(name) => name in i && i[name] == text
  }

  /** What is expected, and what is shown, is known. */
  ghost predicate TextIsKnown(c: Condition, s: Snapshot, i: Inputs)
    requires !c.TargetVisible?
  {
    (exists text :: ShowsText(c.target, s, text)) && exists given :: StandsFor(c.expected, i, given)
  }

  /** Without surrounding whitespace, the shown text is, or contains, the expected one. */
  ghost predicate TextFits(c: Condition, s: Snapshot, i: Inputs)
    requires !c.TargetVisible?
  {
    exists text, given, x, y ::
      && ShowsText(c.target, s, text) && StandsFor(c.expected, i, given) && TrimsTo(text, x) && TrimsTo(given, y)
      && if c.TargetTextEquals? then x == y else exists before, after :: x == before + y + after
  }

  ghost predicate HoldsOn(c: Condition, s: Snapshot, i: Inputs) {
    Sees(c.target, s) && (c.TargetVisible? || TextFits(c, s, i))
  }

  ghost predicate FailsOn(c: Condition, s: Snapshot, i: Inputs) {
    Misses(c.target, s) || (Sees(c.target, s) && !c.TargetVisible? && TextIsKnown(c, s, i) && !TextFits(c, s, i))
  }

  /** The condition needs an input that is not given. */
  predicate LacksInput(c: Condition, s: Snapshot, i: Inputs) {
    Sees(c.target, s) && !c.TargetVisible? && c.expected.Input? && c.expected.name !in i
  }

  /** When a condition is TRUE, when FALSE, and which issue it raises otherwise. */
  lemma ConditionMeans(c: Condition, s: Snapshot, i: Inputs)
    ensures EvaluateCondition(c, s, i).result == True <==> HoldsOn(c, s, i)
    ensures EvaluateCondition(c, s, i).result == False <==> FailsOn(c, s, i)
    ensures var issue := EvaluateCondition(c, s, i).issue;
      && (issue == Some(TargetNotObserved) <==> FindObservation(c.target, s).None?)
      && (issue == Some(RuntimeInputMissing) <==> LacksInput(c, s, i))
      && (issue.Some? ==> issue == Some(TargetNotObserved) || issue == Some(RuntimeInputMissing))
    ensures HoldsOn(c, s, i) ==> !FailsOn(c, s, i) && !LacksInput(c, s, i)
  {
    if Sees(c.target, s) && !c.TargetVisible? {
      var text, expected := FindObservation(c.target, s).value.text, Resolve(c.expected, i);
      if expected.Some? {
        var given := if c.expected.Literal? then c.expected.text else i[c.expected.name];
        assert StandsFor(c.expected, i, given);
        if text.Some? {
          assert ShowsText(c.target, s, text.value);
          TextMeans(c, s, i, text.value, given);
        }
      }
    }
  }

  lemma TextMeans(c: Condition, s: Snapshot, i: Inputs, text: string, given: string)
    requires !c.TargetVisible? && ShowsText(c.target, s, text) && StandsFor(c.expected, i, given)
    ensures TextFits(c, s, i) <==>
      if c.TargetTextEquals? then Strip(text) == Strip(given) else Contains(Strip(text), Strip(given))
  {
    StripMeans(text, Strip(text));
    StripMeans(given, Strip(given));
    ContainsMeans(Strip(text), Strip(given));
    if TextFits(c, s, i) {
      var shown, raw, x, y :|
        && ShowsText(c.target, s, shown) && StandsFor(c.expected, i, raw) && TrimsTo(shown, x) && TrimsTo(raw, y)
        && if c.TargetTextEquals? then x == y else exists before, after :: x == before + y + after;
      StripMeans(text, x);
      StripMeans(given, y);
    }
  }

  lemma ContainsMeans(text: string, part: string)
    ensures Contains(text, part) <==> exists before, after :: text == before + part + after
  {
    if Contains(text, part) {
      var k: nat :| k <= |text| && OccursAt(text, part, k);
      assert text == text[..k] + part + text[k + |part|..];
    }
    forall before: string, after: string | text == before + part + after
      ensures Contains(text, part)
    {
      assert OccursAt(text, part, |before|);
    }
  }

  // ---- Terminal states ------------------------------------------------------------------

  ghost predicate AllHoldOn(cs: seq<Condition>, s: Snapshot, i: Inputs) {
    forall k :: 0 <= k < |cs| ==> HoldsOn(cs[k], s, i)
  }

  ghost predicate SomeFailsOn(cs: seq<Condition>, s: Snapshot, i: Inputs) {
    exists k :: 0 <= k < |cs| && FailsOn(cs[k], s, i)
  }

  lemma ConjunctionMeans(cs: seq<Condition>, s: Snapshot, i: Inputs)
    ensures AllConditions(cs, s, i).result == True <==> AllHoldOn(cs, s, i)
    ensures AllConditions(cs, s, i).result == False <==> SomeFailsOn(cs, s, i)
  {
    AllConditionsMeans(cs, s, i);
    forall k | 0 <= k < |cs|
      ensures EvaluateCondition(cs[k], s, i).result == True <==> HoldsOn(cs[k], s, i)
      ensures EvaluateCondition(cs[k], s, i).result == False <==> FailsOn(cs[k], s, i)
    {
      ConditionMeans(cs[k], s, i);
    }
  }

  /** An unknown conjunction is told as its first unknown condition. */
  lemma {:induction false} UnknownIsFirst(cs: seq<Condition>, s: Snapshot, i: Inputs)
    requires AllConditions(cs, s, i).result == Unknown
    ensures exists k :: 0 <= k < |cs| && AllConditions(cs, s, i) == EvaluateCondition(cs[k], s, i)
                        && forall j :: 0 <= j < k ==> HoldsOn(cs[j], s, i)
  {
    ConditionMeans(cs[0], s, i);
    if EvaluateCondition(cs[0], s, i).result != Unknown {
      var rest := cs[1..];
      assert forall k :: 0 <= k < |rest| ==> rest[k] == cs[k + 1];
      assert !SomeFalse(rest, s, i) && AllConditions(rest, s, i) == AllConditions(cs, s, i);
      UnknownIsFirst(rest, s, i);
      var k :| 0 <= k < |rest| && AllConditions(rest, s, i) == EvaluateCondition(rest[k], s, i)
               && forall j :: 0 <= j < k ==> HoldsOn(rest[j], s, i);
      assert forall j :: 0 < j < k + 1 ==> cs[j] == rest[j - 1];
      assert cs[k + 1] == rest[k];
    }
  }

  ghost predicate RuleHolds(d: Definition, k: nat, s: Snapshot, i: Inputs)
    requires k < |d.outcomes|
  {
    AllHoldOn(d.outcomes[k].conditions, s, i)
  }

  ghost predicate NoRuleHolds(d: Definition, s: Snapshot, i: Inputs) {
    forall k :: 0 <= k < |d.outcomes| ==> !RuleHolds(d, k, s, i)
  }

  ghost predicate TwoRulesHold(d: Definition, s: Snapshot, i: Inputs) {
    exists k, l :: 0 <= k < l < |d.outcomes| && RuleHolds(d, k, s, i) && RuleHolds(d, l, s, i)
  }

  /** One rule holds and no other. */
  ghost predicate OnlyRule(d: Definition, k: nat, s: Snapshot, i: Inputs)
    requires k < |d.outcomes|
  {
    RuleHolds(d, k, s, i) && forall l :: 0 <= l < |d.outcomes| && l != k ==> !RuleHolds(d, l, s, i)
  }

  ghost predicate IsSuccess(d: Definition, s: Snapshot, i: Inputs) {
    AllHoldOn(d.success, s, i) && NoRuleHolds(d, s, i)
  }

  ghost predicate IsOutcome(d: Definition, s: Snapshot, i: Inputs, code: string) {
    && !AllHoldOn(d.success, s, i)
    && exists k :: 0 <= k < |d.outcomes| && d.outcomes[k].code == code && OnlyRule(d, k, s, i)
  }

  ghost predicate IsConflict(d: Definition, s: Snapshot, i: Inputs) {
    TwoRulesHold(d, s, i) || (AllHoldOn(d.success, s, i) && !NoRuleHolds(d, s, i))
  }

  /** Nothing declared as an end holds. */
  ghost predicate NothingEnds(d: Definition, s: Snapshot, i: Inputs) {
    !AllHoldOn(d.success, s, i) && NoRuleHolds(d, s, i)
  }

  /** Each terminal state, exactly, over the conditions of the success and of the rules. */
  lemma TerminalMeans(d: Definition, s: Snapshot, i: Inputs)
    ensures EvaluateTerminal(d, s, i) == Success <==> IsSuccess(d, s, i)
    ensures forall code :: EvaluateTerminal(d, s, i) == BusinessOutcome(code) <==> IsOutcome(d, s, i, code)
    ensures EvaluateTerminal(d, s, i) == Conflict <==> IsConflict(d, s, i)
    ensures EvaluateTerminal(d, s, i) == Undetermined || EvaluateTerminal(d, s, i) == Incomplete <==> NothingEnds(d, s, i)
    ensures EvaluateTerminal(d, s, i) == Incomplete <==>
      SomeFailsOn(d.success, s, i) && forall k :: 0 <= k < |d.outcomes| ==> SomeFailsOn(d.outcomes[k].conditions, s, i)
  {
    ConjunctionMeans(d.success, s, i);
    forall k | 0 <= k < |d.outcomes|
      ensures AllConditions(d.outcomes[k].conditions, s, i).result == True <==> RuleHolds(d, k, s, i)
      ensures AllConditions(d.outcomes[k].conditions, s, i).result == False <==>
        SomeFailsOn(d.outcomes[k].conditions, s, i)
    {
      ConjunctionMeans(d.outcomes[k].conditions, s, i);
    }
    OutcomesMean(d, s, i);
  }

  lemma OutcomesMean(d: Definition, s: Snapshot, i: Inputs)
    requires forall k :: 0 <= k < |d.outcomes| ==>
      (AllConditions(d.outcomes[k].conditions, s, i).result == True <==> RuleHolds(d, k, s, i))
    ensures var codes := TrueOutcomes(d.outcomes, s, i);
      && (|codes| == 0 <==> NoRuleHolds(d, s, i))
      && (|codes| > 1 <==> TwoRulesHold(d, s, i))
      && (|codes| == 1 ==> exists k :: 0 <= k < |d.outcomes| && d.outcomes[k].code == codes[0] && OnlyRule(d, k, s, i))
  {
    var codes := TrueOutcomes(d.outcomes, s, i);
    TrueOutcomeIsDeclared(d.outcomes, s, i);
    if |codes| == 1 {
      assert codes[0] in codes;
      var k :| 0 <= k < |d.outcomes| && d.outcomes[k].code == codes[0]
               && AllConditions(d.outcomes[k].conditions, s, i).result == True;
      assert OnlyRule(d, k, s, i);
    } else if |codes| > 1 {
      var k, l := TwoTrueOutcomes(d.outcomes, s, i);
      assert RuleHolds(d, k, s, i) && RuleHolds(d, l, s, i);
    }
  }

  lemma {:induction false} TwoTrueOutcomes(rules: seq<OutcomeRule>, s: Snapshot, i: Inputs) returns (k: nat, l: nat)
    requires |TrueOutcomes(rules, s, i)| > 1
    ensures k < l < |rules|
    ensures AllConditions(rules[k].conditions, s, i).result == True && AllConditions(rules[l].conditions, s, i).result == True
  {
    var rest := TrueOutcomes(rules[1..], s, i);
    if |rest| > 1 {
      k, l := TwoTrueOutcomes(rules[1..], s, i);
      k, l := k + 1, l + 1;
    } else {
      TrueOutcomeIsDeclared(rules[1..], s, i);
      assert rest[0] in rest;
      var m :| 0 <= m < |rules[1..]| && rules[1..][m].code == rest[0]
               && AllConditions(rules[1..][m].conditions, s, i).result == True;
      k, l := 0, m + 1;
    }
  }

  // ---- Outputs ------------------------------------------------------------------------------

  /** What a parser makes of a text, told by the trimmed text alone. */
  ghost predicate Parses(parser: Parser, text: string, value: OutputValue) {
    exists core :: TrimsTo(text, core) &&
      match parser
      case TextParser => value == TextValue(core)
      case MinorUnitsParser => exists n: nat :: ShowsAmount(core, n) && value == NumberValue(MinorUnits(n))
      case CurrencyCodeParser => exists code :: ShowsCode(core, code) && value == TextValue(code)
  }

  /** The output's value, as the visible text of its target spells it. */
  ghost predicate Outputs(output: OutputSpec, s: Snapshot, value: OutputValue) {
    exists text :: ShowsText(output.target, s, text) && Parses(output.parser, text, value)
  }

  /** The declared type takes what the parser makes: whole numbers from amounts, texts from anything else. */
  predicate TypeFits(output: OutputSpec) {
    match output.valueType
    case IntegerType => output.parser == MinorUnitsParser
    case StringType => output.parser != MinorUnitsParser
    case CurrencyCodeType => output.parser != MinorUnitsParser
    case _ => false
  }

  lemma ParserMeans(parser: Parser, text: string)
    ensures forall value :: ParseOutput(parser, text) == Ok(value) <==> Parses(parser, text, value)
    ensures ParseOutput(parser, text).Err? ==> ParseOutput(parser, text).error == OutputParseFailed
    ensures ParseOutput(parser, text).Ok? ==> (ParseOutput(parser, text).value.NumberValue? <==> parser == MinorUnitsParser)
  {
    var core := Strip(text);
    StripMeans(text, core);
    forall value
      ensures ParseOutput(parser, text) == Ok(value) <==> Parses(parser, text, value)
    {
      if value.NumberValue? {
        MoneyIsRead(core, value.number);
      } else {
        CodeIsRead(core, value.text);
      }
      if Parses(parser, text, value) {
        OneCore(parser, text, value);
      }
    }
  }

  /** The core is the stripped text. */
  lemma OneCore(parser: Parser, text: string, value: OutputValue)
    requires Parses(parser, text, value)
    ensures match parser
      case TextParser => value == TextValue(Strip(text))
      case MinorUnitsParser => exists n: nat :: ShowsAmount(Strip(text), n) && value == NumberValue(MinorUnits(n))
      case CurrencyCodeParser => exists code :: ShowsCode(Strip(text), code) && value == TextValue(code)
  {
    forall core | TrimsTo(text, core)
      ensures core == Strip(text)
    {
      StripMeans(text, core);
    }
  }

  ghost predicate IsRead(output: OutputSpec, s: Snapshot, value: OutputValue) {
    TypeFits(output) && Outputs(output, s, value)
  }

  /** What is wrong with an output that is not read. */
  ghost predicate HasIssue(output: OutputSpec, s: Snapshot, issue: Issue) {
    match issue
    case OutputTargetUnavailable => !Sees(output.target, s)
    case OutputTextMissing => Sees(output.target, s) && forall text :: !ShowsText(output.target, s, text)
    case OutputParseFailed =>
      (exists text :: ShowsText(output.target, s, text)) && forall value :: !Outputs(output, s, value)
    case OutputTypeMismatch => !TypeFits(output) && exists value :: Outputs(output, s, value)
    case _ => false
  }

  /** One output, exactly: its value, or what is wrong with it. */
  lemma OutputMeans(output: OutputSpec, s: Snapshot)
    ensures forall value :: ReadOutput(output, s) == Ok(value) <==> IsRead(output, s, value)
    ensures forall issue :: ReadOutput(output, s) == Err(issue) <==> HasIssue(output, s, issue)
  {
    if Sees(output.target, s) {
      var shown := FindObservation(output.target, s).value.text;
      if shown.Some? {
        assert ShowsText(output.target, s, shown.value);
        ParserMeans(output.parser, shown.value);
        var parsed := ParseOutput(output.parser, shown.value);
        if parsed.Ok? {
          assert Outputs(output, s, parsed.value);
        }
      }
    }
  }

  /** The extraction yields every output's value, in order, or stops at the first output that has none. */
  lemma ExtractionMeans(outputs: seq<OutputSpec>, s: Snapshot)
    ensures var r := ExtractOutputs(outputs, s);
      if r.Ok? then AllRead(outputs, s, r.value) else FirstHasIssue(outputs, s, r.error)
  {
    OutputsAreRead(outputs, s);
    var r := ExtractOutputs(outputs, s);
    if r.Ok? {
      forall k | 0 <= k < |outputs|
        ensures IsRead(outputs[k], s, r.value[k].value)
      {
        OutputMeans(outputs[k], s);
      }
    } else {
      var k := FirstUnread(outputs, s);
      OutputMeans(outputs[k], s);
      assert HasIssue(outputs[k], s, r.error);
      forall j | 0 <= j < k
        ensures HasValue(outputs[j], s)
      {
        OutputMeans(outputs[j], s);
        assert IsRead(outputs[j], s, ReadOutput(outputs[j], s).value);
      }
    }
  }

  ghost predicate AllRead(outputs: seq<OutputSpec>, s: Snapshot, values: seq<Extracted>) {
    |values| == |outputs| && forall k :: 0 <= k < |outputs| ==>
      values[k].name == outputs[k].name && IsRead(outputs[k], s, values[k].value)
  }

  ghost predicate FirstHasIssue(outputs: seq<OutputSpec>, s: Snapshot, issue: Issue) {
    exists k :: 0 <= k < |outputs| && HasIssue(outputs[k], s, issue)
                && forall j :: 0 <= j < k ==> HasValue(outputs[j], s)
  }

  ghost predicate HasValue(output: OutputSpec, s: Snapshot) { exists value :: IsRead(output, s, value) }

  lemma {:induction false} FirstUnread(outputs: seq<OutputSpec>, s: Snapshot) returns (k: nat)
    requires ExtractOutputs(outputs, s).Err?
    ensures k < |outputs| && ReadOutput(outputs[k], s) == Err(ExtractOutputs(outputs, s).error)
    ensures forall j :: 0 <= j < k ==> ReadOutput(outputs[j], s).Ok?
  {
    if ReadOutput(outputs[0], s).Err? {
      k := 0;
    } else {
      k := FirstUnread(outputs[1..], s);
      assert forall j :: 0 < j < k + 1 ==> outputs[j] == outputs[1..][j - 1];
      k := k + 1;
    }
  }
}
