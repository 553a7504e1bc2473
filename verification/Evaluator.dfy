/** Pure evaluation of declared conditions, terminal states and outputs over one snapshot. */
module Evaluator {
  import opened Contracts
  import opened Text
  import opened Money

  datatype Verdict = True | False | Unknown

  datatype Issue =
    | RuntimeInputMissing | TargetNotObserved
    | OutputTargetUnavailable | OutputTextMissing | OutputParseFailed | OutputTypeMismatch

  datatype Evaluation = Evaluation(result: Verdict, issue: Option<Issue>)

  datatype TerminalState =
    | Success | BusinessOutcome(code: string) | Incomplete | Undetermined | Conflict

  type Inputs = map<string, string>

  function FindObservation(target: Target, snapshot: Snapshot): Option<Observation> {
    if snapshot == [] then None
    else if snapshot[0].target == target then Some(snapshot[0])
    else FindObservation(target, snapshot[1..])
  }

  function Resolve(value: ValueRef, inputs: Inputs): Option<string> {
    match value
    case Literal(text) => Some(Strip(text))
    case Input(name) => if name in inputs then Some(Strip(inputs[name])) else None
  }

  function EvaluateCondition(c: Condition, snapshot: Snapshot, inputs: Inputs): Evaluation {
    var observed := FindObservation(c.target, snapshot);
    if observed.None? then Evaluation(Unknown, Some(TargetNotObserved))
    else
      var o := observed.value;
      if o.state == Unavailable then Evaluation(Unknown, None)
      else if c.TargetVisible? then Evaluation(if o.state == Visible then True else False, None)
      else if o.state == NotVisible then Evaluation(False, None)
      else
        var expected := Resolve(c.expected, inputs);
        if expected.None? then Evaluation(Unknown, Some(RuntimeInputMissing))
        else if o.text.None? then Evaluation(Unknown, None)
        else if c.TargetTextEquals? then
          Evaluation(if Strip(o.text.value) == expected.value then True else False, None)
        else
          Evaluation(if Contains(Strip(o.text.value), expected.value) then True else False, None)
  }

  function FirstUnknown(cs: seq<Condition>, snapshot: Snapshot, inputs: Inputs): Option<Evaluation> {
    if cs == [] then None
    else
      var e := EvaluateCondition(cs[0], snapshot, inputs);
      if e.result == Unknown then Some(e) else FirstUnknown(cs[1..], snapshot, inputs)
  }

  predicate SomeFalse(cs: seq<Condition>, snapshot: Snapshot, inputs: Inputs) {
    exists i | 0 <= i < |cs| :: EvaluateCondition(cs[i], snapshot, inputs).result == False
  }

  function AllConditions(cs: seq<Condition>, snapshot: Snapshot, inputs: Inputs): Evaluation {
    if SomeFalse(cs, snapshot, inputs) then Evaluation(False, None)
    else
      var unknown := FirstUnknown(cs, snapshot, inputs);
      if unknown.Some? then unknown.value else Evaluation(True, None)
  }

  /** The codes of the declared outcomes whose conditions all hold, in order. */
  function TrueOutcomes(rules: seq<OutcomeRule>, snapshot: Snapshot, inputs: Inputs): seq<string> {
    if rules == [] then []
    else
      var rest := TrueOutcomes(rules[1..], snapshot, inputs);
      if AllConditions(rules[0].conditions, snapshot, inputs).result == True
      then [rules[0].code] + rest else rest
  }

  predicate HasUnknownOutcome(rules: seq<OutcomeRule>, snapshot: Snapshot, inputs: Inputs) {
    exists i | 0 <= i < |rules| :: AllConditions(rules[i].conditions, snapshot, inputs).result == Unknown
  }

  function EvaluateTerminal(d: Definition, snapshot: Snapshot, inputs: Inputs): TerminalState {
    var outcomes := TrueOutcomes(d.outcomes, snapshot, inputs);
    var success := AllConditions(d.success, snapshot, inputs);
    if |outcomes| > 1 || (|outcomes| > 0 && success.result == True) then Conflict
    else if |outcomes| > 0 then BusinessOutcome(outcomes[0])
    else if success.result == True then Success
    else if success.result == Unknown || HasUnknownOutcome(d.outcomes, snapshot, inputs) then Undetermined
    else Incomplete
  }

  // ---- Outputs --------------------------------------------------------------------

  datatype OutputValue = TextValue(text: string) | NumberValue(number: int)

  function ParseOutput(parser: Parser, text: string): Result<OutputValue, Issue> {
    var normalized := Strip(text);
    match parser
    case TextParser => Ok(TextValue(normalized))
    case MinorUnitsParser =>
      var amount := ParseMoney(normalized);
      if amount.None? then Err(OutputParseFailed) else Ok(NumberValue(amount.value))
    case CurrencyCodeParser =>
      var code := ParseCurrencyCode(normalized);
      if code.None? then Err(OutputParseFailed) else Ok(TextValue(code.value))
  }

  predicate MatchesType(valueType: ValueType, value: OutputValue) {
    || (valueType == IntegerType && value.NumberValue?)
    || ((valueType == StringType || valueType == CurrencyCodeType) && value.TextValue?)
  }

  datatype Extracted = Extracted(name: string, value: OutputValue)

  /** One declared output read from the snapshot. */
  function ReadOutput(output: OutputSpec, snapshot: Snapshot): Result<OutputValue, Issue> {
    var observed := FindObservation(output.target, snapshot);
    if observed.None? || observed.value.state != Visible then Err(OutputTargetUnavailable)
    else if observed.value.text.None? then Err(OutputTextMissing)
    else
      var parsed := ParseOutput(output.parser, observed.value.text.value);
      if parsed.Err? then parsed
      else if !MatchesType(output.valueType, parsed.value) then Err(OutputTypeMismatch)
      else parsed
  }

  /** One typed value per declared output, or the first issue met. */
  function ExtractOutputs(outputs: seq<OutputSpec>, snapshot: Snapshot): Result<seq<Extracted>, Issue> {
    if outputs == [] then Ok([])
    else
      var first := ReadOutput(outputs[0], snapshot);
      if first.Err? then Err(first.error)
      else
        var rest := ExtractOutputs(outputs[1..], snapshot);
        if rest.Err? then rest else Ok([Extracted(outputs[0].name, first.value)] + rest.value)
  }

  /** The extracted value at each position is the one its declaration reads, in the declared type. */
  lemma {:induction false} OutputsAreRead(outputs: seq<OutputSpec>, snapshot: Snapshot)
    ensures ExtractOutputs(outputs, snapshot).Err? <==>
      exists i :: 0 <= i < |outputs| && ReadOutput(outputs[i], snapshot).Err?
    ensures var r := ExtractOutputs(outputs, snapshot);
      r.Ok? ==> |r.value| == |outputs| && forall i :: 0 <= i < |outputs| ==>
        && r.value[i].name == outputs[i].name
        && ReadOutput(outputs[i], snapshot) == Ok(r.value[i].value)
        && MatchesType(outputs[i].valueType, r.value[i].value)
  {
    if outputs != [] {
      OutputsAreRead(outputs[1..], snapshot);
      assert forall i :: 0 < i < |outputs| ==> outputs[i] == outputs[1..][i - 1];
      assert forall i :: 0 <= i < |outputs[1..]| ==> outputs[1..][i] == outputs[i + 1];
    }
  }

  method Extract(outputs: seq<OutputSpec>, snapshot: Snapshot) returns (r: Result<seq<Extracted>, Issue>)
    ensures r == ExtractOutputs(outputs, snapshot)
  {
    var extracted: seq<Extracted> := [];
    assert outputs[0..] == outputs;
    if ExtractOutputs(outputs, snapshot).Ok? {
      assert [] + ExtractOutputs(outputs, snapshot).value == ExtractOutputs(outputs, snapshot).value;
    }
    for i := 0 to |outputs|
      invariant ExtractOutputs(outputs, snapshot) == Prepended(extracted, ExtractOutputs(outputs[i..], snapshot))
    {
      var output := outputs[i];
      UnfoldExtract(extracted, outputs, i, snapshot);
      var observed := FindObservation(output.target, snapshot);
      if observed.None? || observed.value.state == NotVisible {
        return Err(OutputTargetUnavailable);
      }
      if observed.value.state == Unavailable {
        return Err(OutputTargetUnavailable);
      }
      if observed.value.text.None? {
        return Err(OutputTextMissing);
      }
      var parsed := ParseOutput(output.parser, observed.value.text.value);
      if parsed.Err? {
        return Err(parsed.error);
      }
      if !MatchesType(output.valueType, parsed.value) {
        return Err(OutputTypeMismatch);
      }
      extracted := extracted + [Extracted(output.name, parsed.value)];
    }
    assert extracted + [] == extracted;
    return Ok(extracted);
  }

  ghost function Prepended(head: seq<Extracted>, rest: Result<seq<Extracted>, Issue>): Result<seq<Extracted>, Issue> {
    if rest.Err? then rest else Ok(head + rest.value)
  }

  lemma UnfoldExtract(head: seq<Extracted>, outputs: seq<OutputSpec>, i: nat, snapshot: Snapshot)
    requires i < |outputs|
    ensures var read := ReadOutput(outputs[i], snapshot);
      Prepended(head, ExtractOutputs(outputs[i..], snapshot)) ==
        if read.Err? then Err(read.error)
        else Prepended(head + [Extracted(outputs[i].name, read.value)], ExtractOutputs(outputs[i + 1..], snapshot))
  {
    assert outputs[i..][0] == outputs[i] && outputs[i..][1..] == outputs[i + 1..];
    var rest := ExtractOutputs(outputs[i + 1..], snapshot);
    var read := ReadOutput(outputs[i], snapshot);
    if read.Ok? && rest.Ok? {
      var one := [Extracted(outputs[i].name, read.value)];
      assert ExtractOutputs(outputs[i..], snapshot) == Ok(one + rest.value);
      assert head + (one + rest.value) == (head + one) + rest.value;
    }
  }

  /**
   * A printed balance is read back from a target's text as the amount and as the currency code, exactly when the
   * amount is not negative and fits the decimal context; every amount below 10^28 does.
   */
  lemma BalanceIsReadBack(n: int, code: string)
    requires IsCode(code)
    ensures ParseOutput(CurrencyCodeParser, Shown(n, code)) == Ok(TextValue(code))
    ensures ParseOutput(MinorUnitsParser, Shown(n, code)) == Ok(NumberValue(n)) <==> n >= 0 && FitsDecimal(n)
    ensures 0 <= n < Pow10(28) ==> ParseOutput(MinorUnitsParser, Shown(n, code)) == Ok(NumberValue(n))
  {
    MoneyRoundTrip(n, code);
    CodeRoundTrip(n, code);
    if n >= 0 {
      MinorUnitsAreExact(n);
    }
  }

  // ---- Three-valued evaluation is monotone -------------------------------------------

  /** `b` knows at least what `a` knows about one target. */
  predicate KnowsMore(a: Option<Observation>, b: Option<Observation>) {
    a.None? || a.value.state == Unavailable
    || (b.Some? && b.value.state == a.value.state && (a.value.text.Some? ==> b.value.text == a.value.text))
  }

  ghost predicate SnapshotKnowsMore(a: Snapshot, b: Snapshot) {
    forall t: Target :: KnowsMore(FindObservation(t, a), FindObservation(t, b))
  }

  predicate InputsKnowMore(a: Inputs, b: Inputs) {
    forall k :: k in a ==> k in b && b[k] == a[k]
  }

  predicate VerdictKept(before: Verdict, after: Verdict) {
    before == Unknown || after == before
  }

  predicate TerminalKept(before: TerminalState, after: TerminalState) {
    match before
    case Undetermined => true
    case Success => after == Success || after == Conflict
    case BusinessOutcome(code) => after == before || after == Conflict
    case Incomplete => after == Incomplete
    case Conflict => after == Conflict
  }

  lemma ConditionIsMonotone(c: Condition, a: Snapshot, b: Snapshot, i: Inputs, j: Inputs)
    requires SnapshotKnowsMore(a, b) && InputsKnowMore(i, j)
    ensures VerdictKept(EvaluateCondition(c, a, i).result, EvaluateCondition(c, b, j).result)
  {
    assert KnowsMore(FindObservation(c.target, a), FindObservation(c.target, b));
  }

  /** Conjunction, independently of how it is searched. */
  lemma {:induction false} AllConditionsMeans(cs: seq<Condition>, s: Snapshot, i: Inputs)
    ensures AllConditions(cs, s, i).result == True <==>
      forall k :: 0 <= k < |cs| ==> EvaluateCondition(cs[k], s, i).result == True
    ensures AllConditions(cs, s, i).result == False <==>
      exists k :: 0 <= k < |cs| && EvaluateCondition(cs[k], s, i).result == False
  {
    FirstUnknownMeans(cs, s, i);
  }

  lemma {:induction false} FirstUnknownMeans(cs: seq<Condition>, s: Snapshot, i: Inputs)
    ensures FirstUnknown(cs, s, i).Some? <==>
      exists k :: 0 <= k < |cs| && EvaluateCondition(cs[k], s, i).result == Unknown
    ensures FirstUnknown(cs, s, i).Some? ==>
      exists k :: 0 <= k < |cs| && EvaluateCondition(cs[k], s, i) == FirstUnknown(cs, s, i).value
                  && FirstUnknown(cs, s, i).value.result == Unknown
  {
    if cs != [] {
      FirstUnknownMeans(cs[1..], s, i);
      if FirstUnknown(cs[1..], s, i).Some? {
        var k :| 0 <= k < |cs[1..]| && EvaluateCondition(cs[1..][k], s, i) == FirstUnknown(cs[1..], s, i).value
                 && FirstUnknown(cs[1..], s, i).value.result == Unknown;
        assert EvaluateCondition(cs[k + 1], s, i) == FirstUnknown(cs[1..], s, i).value;
      }
      forall k | 0 <= k < |cs| && EvaluateCondition(cs[k], s, i).result == Unknown
        ensures FirstUnknown(cs, s, i).Some?
      {
        if k > 0 {
          assert cs[1..][k - 1] == cs[k];
        }
      }
    }
  }

  lemma ConjunctionIsMonotone(cs: seq<Condition>, a: Snapshot, b: Snapshot, i: Inputs, j: Inputs)
    requires SnapshotKnowsMore(a, b) && InputsKnowMore(i, j)
    ensures VerdictKept(AllConditions(cs, a, i).result, AllConditions(cs, b, j).result)
  {
    AllConditionsMeans(cs, a, i);
    AllConditionsMeans(cs, b, j);
    forall k | 0 <= k < |cs|
      ensures VerdictKept(EvaluateCondition(cs[k], a, i).result, EvaluateCondition(cs[k], b, j).result)
    {
      ConditionIsMonotone(cs[k], a, b, i, j);
    }
  }

  /** Outcomes that were true stay true, in order; with nothing unknown the list is the same. */
  lemma {:induction false} OutcomesAreMonotone(rules: seq<OutcomeRule>, a: Snapshot, b: Snapshot, i: Inputs, j: Inputs)
    requires SnapshotKnowsMore(a, b) && InputsKnowMore(i, j)
    ensures |TrueOutcomes(rules, a, i)| <= |TrueOutcomes(rules, b, j)|
    ensures |TrueOutcomes(rules, b, j)| == 1 && |TrueOutcomes(rules, a, i)| == 1 ==>
      TrueOutcomes(rules, a, i) == TrueOutcomes(rules, b, j)
    ensures !HasUnknownOutcome(rules, a, i) ==>
      TrueOutcomes(rules, a, i) == TrueOutcomes(rules, b, j) && !HasUnknownOutcome(rules, b, j)
  {
    if rules != [] {
      OutcomesAreMonotone(rules[1..], a, b, i, j);
      ConjunctionIsMonotone(rules[0].conditions, a, b, i, j);
      assert rules == [rules[0]] + rules[1..];
      if !HasUnknownOutcome(rules, a, i) {
        forall k | 0 <= k < |rules|
          ensures AllConditions(rules[k].conditions, a, i).result != Unknown
          ensures AllConditions(rules[k].conditions, b, j).result != Unknown
        {
          ConjunctionIsMonotone(rules[k].conditions, a, b, i, j);
        }
        assert forall k :: 0 <= k < |rules[1..]| ==> rules[1..][k] == rules[k + 1];
      }
    }
  }

  /** Learning more never turns one definite terminal state into another, except into a conflict. */
  lemma TerminalIsMonotone(d: Definition, a: Snapshot, b: Snapshot, i: Inputs, j: Inputs)
    requires SnapshotKnowsMore(a, b) && InputsKnowMore(i, j)
    ensures TerminalKept(EvaluateTerminal(d, a, i), EvaluateTerminal(d, b, j))
  {
    OutcomesAreMonotone(d.outcomes, a, b, i, j);
    ConjunctionIsMonotone(d.success, a, b, i, j);
  }

  ghost predicate AtMostOneTrue(rules: seq<OutcomeRule>, s: Snapshot, i: Inputs) {
    forall k, l :: 0 <= k < l < |rules| && AllConditions(rules[k].conditions, s, i).result == True ==>
      AllConditions(rules[l].conditions, s, i).result != True
  }

  /** A business outcome is the code of a declared rule that holds, and success does not hold. */
  lemma {:induction false} TrueOutcomeIsDeclared(rules: seq<OutcomeRule>, s: Snapshot, i: Inputs)
    ensures forall k :: 0 <= k < |rules| && AllConditions(rules[k].conditions, s, i).result == True ==>
      rules[k].code in TrueOutcomes(rules, s, i)
    ensures forall code :: code in TrueOutcomes(rules, s, i) ==>
      exists k :: 0 <= k < |rules| && rules[k].code == code && AllConditions(rules[k].conditions, s, i).result == True
    ensures |TrueOutcomes(rules, s, i)| <= 1 ==> AtMostOneTrue(rules, s, i)
  {
    if rules != [] {
      TrueOutcomeIsDeclared(rules[1..], s, i);
      assert rules == [rules[0]] + rules[1..];
      forall code | code in TrueOutcomes(rules, s, i)
        ensures exists k :: 0 <= k < |rules| && rules[k].code == code
                            && AllConditions(rules[k].conditions, s, i).result == True
      {
        if code in TrueOutcomes(rules[1..], s, i) {
          var k :| 0 <= k < |rules[1..]| && rules[1..][k].code == code
                   && AllConditions(rules[1..][k].conditions, s, i).result == True;
          assert rules[k + 1].code == code;
        }
      }
      forall k | 0 <= k < |rules| && AllConditions(rules[k].conditions, s, i).result == True
        ensures rules[k].code in TrueOutcomes(rules, s, i)
      {
        if k > 0 {
          assert rules[1..][k - 1] == rules[k];
        }
      }
      forall k, l | 0 <= k < l < |rules| && AllConditions(rules[k].conditions, s, i).result == True
                    && |TrueOutcomes(rules, s, i)| <= 1
        ensures AllConditions(rules[l].conditions, s, i).result != True
      {
        assert rules[1..][l - 1] == rules[l];
        if k > 0 {
          assert rules[1..][k - 1] == rules[k];
        }
      }
    }
  }
}
