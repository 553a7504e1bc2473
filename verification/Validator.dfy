/** Structural validation of capability definitions. */
module Validator {
  import opened Contracts

  datatype ValidationError =
    | DuplicateName(name: string) | NoSuccessCondition | UnknownInput(name: string) | LengthsCrossed(name: string)

  // ---- What a validated definition is ---------------------------------------------

  predicate Distinct(names: seq<string>) {
    forall i, j :: 0 <= i < j < |names| ==> names[i] != names[j]
  }

  function InputNames(inputs: seq<InputSpec>): seq<string> {
    seq(|inputs|, i requires 0 <= i < |inputs| => inputs[i].name)
  }

  function OutputNames(outputs: seq<OutputSpec>): seq<string> {
    seq(|outputs|, i requires 0 <= i < |outputs| => outputs[i].name)
  }

  function StepIds(steps: seq<Step>): seq<string> {
    seq(|steps|, i requires 0 <= i < |steps| => steps[i].stepId)
  }

  function OutcomeCodes(rules: seq<OutcomeRule>): seq<string> {
    seq(|rules|, i requires 0 <= i < |rules| => rules[i].code)
  }

  predicate ClosedRef(v: ValueRef, names: set<string>) { v.Input? ==> v.name in names }

  predicate ClosedCondition(c: Condition, names: set<string>) { c.TargetVisible? || ClosedRef(c.expected, names) }

  predicate ClosedStep(s: Step, names: set<string>) {
    && (s.action.FillTemplate? ==> ClosedRef(s.action.value, names))
    && (s.precondition.Some? ==> ClosedCondition(s.precondition.value, names))
    && (s.postcondition.Some? ==> ClosedCondition(s.postcondition.value, names))
  }

  predicate ClosedConditions(cs: seq<Condition>, names: set<string>) {
    forall i :: 0 <= i < |cs| ==> ClosedCondition(cs[i], names)
  }

  predicate LengthsInOrder(item: InputSpec) {
    item.minLength.Some? && item.maxLength.Some? ==> item.minLength.value <= item.maxLength.value
  }

  function Declared(inputs: seq<InputSpec>): set<string> {
    set i | 0 <= i < |inputs| :: inputs[i].name
  }

  predicate WellFormed(d: Definition) {
    && Distinct(InputNames(d.inputs)) && Distinct(OutputNames(d.outputs))
    && Distinct(StepIds(d.steps)) && Distinct(OutcomeCodes(d.outcomes))
    && d.success != []
    && (forall i :: 0 <= i < |d.steps| ==> ClosedStep(d.steps[i], Declared(d.inputs)))
    && ClosedConditions(d.success, Declared(d.inputs))
    && (forall i :: 0 <= i < |d.outcomes| ==> ClosedConditions(d.outcomes[i].conditions, Declared(d.inputs)))
    && (forall i :: 0 <= i < |d.inputs| ==> LengthsInOrder(d.inputs[i]))
  }

  // ---- What an error says -----------------------------------------------------------

  predicate IsRepeated(names: seq<string>, name: string) {
    exists i, j | 0 <= i < j < |names| :: names[i] == names[j] == name
  }

  predicate RefersTo(v: ValueRef, name: string) { v == Input(name) }

  predicate ConditionRefersTo(c: Condition, name: string) { !c.TargetVisible? && RefersTo(c.expected, name) }

  predicate SomeRefersTo(cs: seq<Condition>, name: string) {
    exists i | 0 <= i < |cs| :: ConditionRefersTo(cs[i], name)
  }

  predicate StepRefersTo(s: Step, name: string) {
    || (s.action.FillTemplate? && RefersTo(s.action.value, name))
    || (s.precondition.Some? && ConditionRefersTo(s.precondition.value, name))
    || (s.postcondition.Some? && ConditionRefersTo(s.postcondition.value, name))
  }

  /** The error names something that is wrong with the definition. */
  predicate Justified(d: Definition, e: ValidationError) {
    match e
    case DuplicateName(name) =>
      || IsRepeated(InputNames(d.inputs), name) || IsRepeated(OutputNames(d.outputs), name)
      || IsRepeated(StepIds(d.steps), name) || IsRepeated(OutcomeCodes(d.outcomes), name)
    case NoSuccessCondition => d.success == []
    case UnknownInput(name) =>
      && name !in Declared(d.inputs)
      && (|| SomeRefersTo(d.success, name)
          || (exists i | 0 <= i < |d.steps| :: StepRefersTo(d.steps[i], name))
          || (exists i | 0 <= i < |d.outcomes| :: SomeRefersTo(d.outcomes[i].conditions, name)))
    case LengthsCrossed(name) =>
      exists i | 0 <= i < |d.inputs| :: d.inputs[i].name == name && !LengthsInOrder(d.inputs[i])
  }

  // ---- The validator ----------------------------------------------------------------

  /** The definition passes exactly when it is well formed. */
  method Validate(d: Definition) returns (errors: seq<ValidationError>)
    ensures errors == [] <==> WellFormed(d)
    ensures forall e :: e in errors ==> Justified(d, e)
  {
    errors := [];
    errors := ValidateUnique(InputNames(d.inputs), errors);
    errors := ValidateUnique(OutputNames(d.outputs), errors);
    errors := ValidateUnique(StepIds(d.steps), errors);
    errors := ValidateUnique(OutcomeCodes(d.outcomes), errors);
    if d.success == [] {
      errors := errors + [NoSuccessCondition];
    }
    var names := Declared(d.inputs);
    ghost var before := errors;
    for i := 0 to |d.steps|
      invariant |errors| >= |before|
      invariant errors == [] <==> before == [] && forall k :: 0 <= k < i ==> ClosedStep(d.steps[k], names)
      invariant forall e :: e in errors ==> Justified(d, e)
    {
      errors := ValidateStep(d.steps[i], names, errors);
    }
    errors := ValidateConditions(d.success, names, errors);
    before := errors;
    for i := 0 to |d.outcomes|
      invariant |errors| >= |before|
      invariant errors == [] <==>
        before == [] && forall k :: 0 <= k < i ==> ClosedConditions(d.outcomes[k].conditions, names)
      invariant forall e :: e in errors ==> Justified(d, e)
    {
      errors := ValidateConditions(d.outcomes[i].conditions, names, errors);
    }
    before := errors;
    for i := 0 to |d.inputs|
      invariant |errors| >= |before|
      invariant errors == [] <==> before == [] && forall k :: 0 <= k < i ==> LengthsInOrder(d.inputs[k])
      invariant forall e :: e in errors ==> Justified(d, e)
    {
      var item := d.inputs[i];
      if item.minLength.Some? && item.maxLength.Some? {
        if item.minLength.value > item.maxLength.value {
          errors := errors + [LengthsCrossed(item.name)];
        }
      }
    }
  }

  method ValidateUnique(values: seq<string>, errors: seq<ValidationError>) returns (r: seq<ValidationError>)
    ensures |r| >= |errors|
    ensures r == [] <==> errors == [] && Distinct(values)
    ensures forall e :: e in r ==> e in errors || (e.DuplicateName? && IsRepeated(values, e.name))
  {
    r := errors;
    var seen: set<string> := {};
    for i := 0 to |values|
      invariant |r| >= |errors|
      invariant seen == set k | 0 <= k < i :: values[k]
      invariant r == [] <==> errors == [] && Distinct(values[..i])
      invariant forall e :: e in r ==> e in errors || (e.DuplicateName? && IsRepeated(values, e.name))
    {
      if values[i] in seen {
        var k :| 0 <= k < i && values[k] == values[i];
        assert values[..i + 1][k] == values[..i + 1][i];
        r := r + [DuplicateName(values[i])];
      } else {
        assert values[..i + 1] == values[..i] + [values[i]];
      }
      seen := seen + {values[i]};
    }
    assert values[..|values|] == values;
  }

  method ValidateStep(s: Step, names: set<string>, errors: seq<ValidationError>) returns (r: seq<ValidationError>)
    ensures |r| >= |errors|
    ensures r == [] <==> errors == [] && ClosedStep(s, names)
    ensures forall e :: e in r ==> e in errors || (e.UnknownInput? && e.name !in names && StepRefersTo(s, e.name))
  {
    r := errors;
    if s.action.FillTemplate? {
      r := ValidateRef(s.action.value, names, r);
    }
    if s.precondition.Some? {
      r := ValidateCondition(s.precondition.value, names, r);
    }
    if s.postcondition.Some? {
      r := ValidateCondition(s.postcondition.value, names, r);
    }
  }

  method ValidateConditions(cs: seq<Condition>, names: set<string>, errors: seq<ValidationError>)
    returns (r: seq<ValidationError>)
    ensures |r| >= |errors|
    ensures r == [] <==> errors == [] && ClosedConditions(cs, names)
    ensures forall e :: e in r ==> e in errors || (e.UnknownInput? && e.name !in names && SomeRefersTo(cs, e.name))
  {
    r := errors;
    for i := 0 to |cs|
      invariant |r| >= |errors|
      invariant r == [] <==> errors == [] && forall k :: 0 <= k < i ==> ClosedCondition(cs[k], names)
      invariant forall e :: e in r ==> e in errors || (e.UnknownInput? && e.name !in names && SomeRefersTo(cs, e.name))
    {
      r := ValidateCondition(cs[i], names, r);
    }
  }

  method ValidateCondition(c: Condition, names: set<string>, errors: seq<ValidationError>)
    returns (r: seq<ValidationError>)
    ensures |r| >= |errors|
    ensures r == [] <==> errors == [] && ClosedCondition(c, names)
    ensures forall e :: e in r ==> e in errors || (e.UnknownInput? && e.name !in names && ConditionRefersTo(c, e.name))
  {
    r := errors;
    if !c.TargetVisible? {
      r := ValidateRef(c.expected, names, r);
    }
  }

  method ValidateRef(v: ValueRef, names: set<string>, errors: seq<ValidationError>) returns (r: seq<ValidationError>)
    ensures |r| >= |errors|
    ensures r == [] <==> errors == [] && ClosedRef(v, names)
    ensures forall e :: e in r ==> e in errors || (e.UnknownInput? && e.name !in names && RefersTo(v, e.name))
  {
    r := errors;
    if v.Input? && v.name !in names {
      r := r + [UnknownInput(v.name)];
    }
  }
}
