/** Value types shared by the whole model: the typed contracts of src/capability_runner/contracts. */
module Contracts {
  datatype Option<+T> = None | Some(value: T)

  datatype Result<+T, +E> = Ok(value: T) | Err(error: E)

  /** A semantic target reference, such as "account.balance". */
  type Target = string

  // ---- Capability definitions -------------------------------------------------

  datatype ValueRef = Literal(text: string) | Input(name: string)

  datatype Condition =
    | TargetVisible(target: Target)
    | TargetTextEquals(target: Target, expected: ValueRef)
    | TargetTextContains(target: Target, expected: ValueRef)

  datatype ValueType = StringType | IntegerType | BooleanType | DecimalType | CurrencyCodeType

  datatype Parser = TextParser | MinorUnitsParser | CurrencyCodeParser

  /** The pattern of an input is the set of strings its regular expression accepts in full. */
  datatype InputSpec = InputSpec(
    name: string, required: bool, sensitive: bool,
    minLength: Option<nat>, maxLength: Option<nat>, pattern: Option<string -> bool>)

  datatype OutputSpec = OutputSpec(name: string, valueType: ValueType, target: Target, parser: Parser)

  datatype ActionKind = FillKind | ClickKind

  datatype ActionTemplate =
    | FillTemplate(target: Target, value: ValueRef)
    | ClickTemplate(target: Target)
  {
    function Kind(): ActionKind {
      if FillTemplate? then FillKind else ClickKind
    }
  }

  type Attempts = n: nat | 1 <= n <= 3 witness 1

  datatype RetryPolicy = RetryPolicy(maxAttempts: Attempts, delayMs: nat)

  datatype Step = Step(
    stepId: string, action: ActionTemplate,
    precondition: Option<Condition>, postcondition: Option<Condition>, retry: Option<RetryPolicy>)

  datatype OutcomeRule = OutcomeRule(code: string, conditions: seq<Condition>)

  datatype Definition = Definition(
    capabilityId: string, version: string, family: string,
    inputs: seq<InputSpec>, outputs: seq<OutputSpec>, steps: seq<Step>,
    success: seq<Condition>, outcomes: seq<OutcomeRule>)

  // ---- Observations -----------------------------------------------------------

  datatype ObservationState = Visible | NotVisible | Unavailable

  datatype Observation = Observation(target: Target, state: ObservationState, text: Option<string>)

  /**
   * What inspecting one target can answer; only a visible target has text. A target that is ambiguous, or whose
   * inspection raises, cannot be read.
   */
  datatype Inspection = SeenVisible(text: Option<string>) | SeenHidden | SeenUnavailable | Ambiguous | Raises
  {
    predicate Readable() { !Ambiguous? && !Raises? }
  }

  type Snapshot = seq<Observation>

  // ---- Actions ----------------------------------------------------------------

  datatype Action = Fill(value: string) | Click
  {
    function Kind(): ActionKind {
      if Fill? then FillKind else ClickKind
    }
  }

  datatype Profile = Profile(family: string, bindings: seq<Target>)

  datatype Context = Context(
    runId: string, sessionId: string, generation: nat, surfaceSession: string, profile: Profile)

  // ---- Session control --------------------------------------------------------

  datatype Owner =
    | Automation(runId: string)
    | Operator(operatorId: string, displayName: Option<string>)

  datatype ControlState =
    | AutomationControlled | PauseRequested | OperatorControlled | ResumeRequested | Terminal

  datatype SessionState = SessionState(sessionId: string, control: ControlState, owner: Owner, generation: nat)

  datatype ControlError =
    | SessionNotFound | InvalidStateTransition | NotAutomationOwner | NotOperatorOwner
    | StaleGeneration | DispatchNotAllowed | ActionInFlight | SessionStopped
}
