/**
 * Goal-driven discovery: a bounded loop that looks at every bound target, asks a model for a decision, and acts
 * through the gateway. The model is arbitrary: any reply at any turn.
 */
module Discovery {
  import opened Contracts
  import opened Text
  import opened Gateway
  import opened Validator
  import E = Evaluator
  import R = Replay

  const MaxTurns: nat := 12
  const MaxActions: nat := 8
  const MaxInvalid: nat := 2

  // ---- What the model may answer -------------------------------------------------------

  datatype Claim = Claim(target: Target, text: string)

  datatype Decision =
    | ActOn(action: Action, target: Target)
    | Complete(claims: seq<Claim>)
    | AskForHelp(code: string)
    | Decline(code: string)

  datatype Reply = ModelFailed(code: string) | Unreadable | Decided(decision: Decision)

  // ---- What discovery returns ------------------------------------------------------------

  datatype Span = Span(start: nat, end: nat)

  datatype Rejection =
    | UnreadableReply | UnknownTarget | UngroundedFillValue | CompletionNotGrounded | CompletionEvidenceMissing

  datatype Entry =
    | ActEntry(turn: nat, kind: ActionKind, target: Target, source: Option<Span>, outcome: GatewayOutcome, reason: GatewayReason)
    | CompleteEntry(turn: nat)
    | HelpEntry(turn: nat)
    | DeclineEntry(turn: nat)
    | InvalidEntry(turn: nat, rejection: Rejection)

  datatype Outcome = Discovered | HelpNeeded | GaveUp

  datatype Reason =
    | Completed | RequiredTargetUnknown | ObservationFailed | ModelError(code: string) | Rejected(rejection: Rejection)
    | FromModel(code: string) | ActionLimitReached | NoProgress | TurnLimitReached
    | PolicyDenied | NeedsApproval | EffectUncertain | ActionFailed

  /** A completion target, the fingerprint of its text, and the fill whose value the text repeats, if any. */
  datatype Verified = Verified(target: Target, fingerprint: string, source: Option<Target>)

  datatype DiscoveryResult = DiscoveryResult(
    outcome: Outcome, reason: Reason, turns: nat, actions: nat, evidence: seq<Verified>, trace: seq<Entry>)

  /** The trace entries of actions, in order. */
  function Acts(trace: seq<Entry>): seq<Entry> {
    if trace == [] then [] else ActOf(trace[0]) + Acts(trace[1..])
  }

  function ActOf(e: Entry): seq<Entry> { if e.ActEntry? then [e] else [] }

  // ---- The loop's state --------------------------------------------------------------------

  datatype Request = Request(goal: string, required: set<Target>, maxSteps: nat)

  datatype Explorer<!W> = Explorer(engine: R.Engine<W>, trusted: set<Target>, fingerprint: string -> string)

  /** The gateway answered `outcome` to this action. */
  datatype Dispatched = Dispatched(action: Action, target: Target, outcome: GatewayOutcome)

  /** The latest value filled into a target; targets stay in the order of their first fill. */
  datatype Filled = Filled(target: Target, value: string)

  /** A proposal and the snapshot it was made on: the targets are sorted, so the snapshot is its own key. */
  datatype Attempt = Attempt(action: Action, target: Target, snapshot: Snapshot)

  datatype Progress<W> = Progress(
    world: W, actions: nat, invalid: nat, previous: Option<Attempt>, filled: seq<Filled>,
    trace: seq<Entry>, log: seq<Dispatched>)

  /** A finished discovery, with what it did and the last snapshot it collected. */
  datatype Run<W> = Run(result: DiscoveryResult, world: W, log: seq<Dispatched>, last: Snapshot)

  datatype Turn<W> = Over(run: Run<W>) | GoesOn(next: Progress<W>)

  function Trusted(profile: Profile): set<Target> {
    set t | t in profile.bindings
  }

  /** What discovery sees of a target: one that cannot be read is unavailable. */
  function Glimpse(t: Target, i: Inspection): Observation {
    match i
    case SeenVisible(text) => Observation(t, Visible, text)
    case SeenHidden => Observation(t, NotVisible, None)
    case _ => Observation(t, Unavailable, None)
  }

  /** One observation per target, whatever the inspections answer; an unbound target is not inspected. */
  function CollectAll<W>(ports: Ports<W>, profile: Profile, targets: seq<Target>, w: W): (Snapshot, W) {
    if targets == [] then ([], w)
    else
      var last := targets[|targets| - 1];
      var (before, w1) := CollectAll(ports, profile, targets[..|targets| - 1], w);
      if last !in profile.bindings then (before + [Glimpse(last, SeenUnavailable)], w1)
      else
        var (inspected, w2) := ports.inspect(w1, last);
        (before + [Glimpse(last, inspected)], w2)
  }

  method CollectSnapshot<W>(ports: Ports<W>, profile: Profile, targets: seq<Target>, w0: W)
    returns (snapshot: Snapshot, w: W)
    ensures (snapshot, w) == CollectAll(ports, profile, targets, w0)
  {
    snapshot, w := [], w0;
    for i := 0 to |targets|
      invariant (snapshot, w) == CollectAll(ports, profile, targets[..i], w0)
    {
      var target := targets[i];
      assert targets[..i + 1][..i] == targets[..i];
      if target !in profile.bindings {
        snapshot := snapshot + [Observation(target, Unavailable, None)];
        continue;
      }
      var (inspected, w') := ports.inspect(w, target);
      w := w';
      snapshot := snapshot + [Glimpse(target, inspected)];
    }
    assert targets[..|targets|] == targets;
  }

  function ExplorerFor<W>(ports: Ports<W>, ctx: Context, fingerprint: string -> string): Explorer<W> {
    var targets := R.InsertTargets(ctx.profile.bindings, []);
    Explorer(
      R.Engine(
        ctx.generation,
        w => (var (snapshot, w') := CollectAll(ports, ctx.profile, targets, w); R.Collected(Ok(snapshot), w')),
        (w, action, target) => Execute(ports, ctx.profile, ctx.generation, action, target, w)),
      Trusted(ctx.profile),
      fingerprint)
  }

  // ---- Decisions ------------------------------------------------------------------------------

  function ValidateAction(action: Action, target: Target, goal: string, trusted: set<Target>): Option<Rejection> {
    if target !in trusted then Some(UnknownTarget)
    else if action.Fill? && (action.value == "" || !Contains(goal, action.value)) then Some(UngroundedFillValue)
    else None
  }

  /** Where the value first occurs in the goal. */
  function GoalSpan(action: Action, goal: string): Option<Span> {
    if action.Click? then None
    else
      var start := FindFrom(goal, action.value, 0);
      if start.None? then None else Some(Span(start.value, start.value + |action.value|))
  }

  function Refill(filled: seq<Filled>, target: Target, value: string): seq<Filled> {
    if filled == [] then [Filled(target, value)]
    else if filled[0].target == target then [Filled(target, value)] + filled[1..]
    else [filled[0]] + Refill(filled[1..], target, value)
  }

  function MatchingSource(filled: seq<Filled>, text: string): Option<Target> {
    if filled == [] then None
    else if filled[0].value == text then Some(filled[0].target)
    else MatchingSource(filled[1..], text)
  }

  /** The text of a target that is visible in the snapshot. */
  function CurrentText(target: Target, snapshot: Snapshot): Option<string> {
    var o := E.FindObservation(target, snapshot);
    if o.Some? && o.value.state == Visible then o.value.text else None
  }

  function ClaimTargets(claims: seq<Claim>): seq<Target> {
    seq(|claims|, i requires 0 <= i < |claims| => claims[i].target)
  }

  /** Every claim is true of the snapshot, no target is claimed twice, and some text comes from the goal. */
  predicate Grounded(claims: seq<Claim>, snapshot: Snapshot, goal: string, trusted: set<Target>) {
    && Distinct(ClaimTargets(claims))
    && (forall i :: 0 <= i < |claims| ==>
          claims[i].target in trusted && CurrentText(claims[i].target, snapshot) == Some(claims[i].text))
    && (exists i | 0 <= i < |claims| :: FromGoal(claims[i].text, goal))
  }

  predicate FromGoal(text: string, goal: string) { text != "" && Contains(goal, text) }

  function EvidenceOf(claims: seq<Claim>, filled: seq<Filled>, fingerprint: string -> string): seq<Verified> {
    seq(|claims|, i requires 0 <= i < |claims| =>
      Verified(claims[i].target, fingerprint(claims[i].text), MatchingSource(filled, claims[i].text)))
  }

  /** The claims are checked one by one; the first false one refuses them all. */
  method VerifyCompletion(
    claims: seq<Claim>, snapshot: Snapshot, goal: string, trusted: set<Target>, filled: seq<Filled>,
    fingerprint: string -> string) returns (r: Option<seq<Verified>>)
    ensures r == if Grounded(claims, snapshot, goal, trusted) then Some(EvidenceOf(claims, filled, fingerprint)) else None
  {
    var seen: set<Target> := {};
    var grounded := false;
    var verified: seq<Verified> := [];
    for i := 0 to |claims|
      invariant seen == set k | 0 <= k < i :: claims[k].target
      invariant grounded == exists k :: 0 <= k < i && FromGoal(claims[k].text, goal)
      invariant verified == EvidenceOf(claims, filled, fingerprint)[..i]
      invariant forall k :: 0 <= k < i ==>
        claims[k].target in trusted && CurrentText(claims[k].target, snapshot) == Some(claims[k].text)
      invariant forall j, k :: 0 <= j < k < i ==> claims[j].target != claims[k].target
    {
      var claim := claims[i];
      if claim.target !in trusted || claim.target in seen {
        if claim.target in seen {
          var k :| 0 <= k < i && claims[k].target == claim.target;
          assert ClaimTargets(claims)[k] == ClaimTargets(claims)[i];
        }
        return None;
      }
      if CurrentText(claim.target, snapshot) != Some(claim.text) {
        return None;
      }
      seen := seen + {claim.target};
      if claim.text != "" && Contains(goal, claim.text) {
        grounded := true;
      }
      verified := verified + [Verified(claim.target, fingerprint(claim.text), MatchingSource(filled, claim.text))];
    }
    assert EvidenceOf(claims, filled, fingerprint)[..|claims|] == EvidenceOf(claims, filled, fingerprint);
    return if grounded then Some(verified) else None;
  }

  // ---- One turn -----------------------------------------------------------------------------------

  function Finish<W>(
    p: Progress<W>, outcome: Outcome, reason: Reason, turns: nat, evidence: seq<Verified>, last: Snapshot): Turn<W>
  {
    Over(Run(DiscoveryResult(outcome, reason, turns, p.actions, evidence, p.trace), p.world, p.log, last))
  }

  function Note<W>(p: Progress<W>, entry: Entry): Progress<W> {
    p.(trace := p.trace + [entry])
  }

  /** A rejected reply is noted; the second one ends the discovery. */
  function Reject<W>(p: Progress<W>, turn: nat, rejection: Rejection, last: Snapshot): Turn<W> {
    var next := Note(p, InvalidEntry(turn, rejection)).(invalid := p.invalid + 1);
    if next.invalid >= MaxInvalid then Finish(next, GaveUp, Rejected(rejection), turn, [], last) else GoesOn(next)
  }

  /** The answer to a completion claim. */
  function Conclude<W>(x: Explorer<W>, q: Request, turn: nat, claims: seq<Claim>, p: Progress<W>, s: Snapshot): Turn<W> {
    if !Grounded(claims, s, q.goal, x.trusted) then Reject(p, turn, CompletionNotGrounded, s)
    else
      var evidence := EvidenceOf(claims, p.filled, x.fingerprint);
      if !(q.required <= set i | 0 <= i < |evidence| :: evidence[i].target)
      then Reject(p, turn, CompletionEvidenceMissing, s)
      else Finish(Note(p, CompleteEntry(turn)), Discovered, Completed, turn, evidence, s)
  }

  /** The state once the gateway answered. */
  function Dispatch<W>(x: Explorer<W>, q: Request, turn: nat, action: Action, target: Target, p: Progress<W>, s: Snapshot)
    : (Progress<W>, GatewayRun<W>)
  {
    var g := x.engine.act(p.world, action, target);
    var source := GoalSpan(action, q.goal);
    var filled :=
      if g.outcome == Executed && action.Fill? && source.Some? then Refill(p.filled, target, action.value) else p.filled;
    (Progress(
       g.world, p.actions + 1, p.invalid, Some(Attempt(action, target, s)), filled,
       p.trace + [ActEntry(turn, action.Kind(), target, source, g.outcome, g.reason)],
       p.log + [Dispatched(action, target, g.outcome)]), g)
  }

  function Act<W>(x: Explorer<W>, q: Request, turn: nat, action: Action, target: Target, p: Progress<W>, s: Snapshot): Turn<W> {
    var rejection := ValidateAction(action, target, q.goal, x.trusted);
    if rejection.Some? then Reject(p, turn, rejection.value, s)
    else if p.actions >= MaxActions then Finish(p, GaveUp, ActionLimitReached, turn, [], s)
    else if p.previous == Some(Attempt(action, target, s)) then Finish(p, GaveUp, NoProgress, turn, [], s)
    else
      var (next, g) := Dispatch(x, q, turn, action, target, p, s);
      match g.outcome
      case Executed => GoesOn(next)
      case Denied => Finish(next, GaveUp, PolicyDenied, turn, [], s)
      case ApprovalRequired => Finish(next, HelpNeeded, NeedsApproval, turn, [], s)
      case Failed =>
        if g.reason == ActionEffectOccurredEvidenceFailed
        then Finish(next, HelpNeeded, EffectUncertain, turn, [], s)
        else Finish(next, GaveUp, ActionFailed, turn, [], s)
  }

  function TakeTurn<W>(x: Explorer<W>, q: Request, turn: nat, reply: Reply, before: Progress<W>): Turn<W>
    requires turn > 0
  {
    var c := x.engine.look(before.world);
    var p := before.(world := c.world);
    if c.snapshot.Err? then Finish(p, GaveUp, ObservationFailed, turn - 1, [], [])
    else
      var s := c.snapshot.value;
      match reply
      case ModelFailed(code) => Finish(p, GaveUp, ModelError(code), turn, [], s)
      case Unreadable => Reject(p, turn, UnreadableReply, s)
      case Decided(Complete(claims)) => Conclude(x, q, turn, claims, p, s)
      case Decided(AskForHelp(code)) =>
        Finish(Note(p, HelpEntry(turn)), HelpNeeded, FromModel(code), turn, [], s)
      case Decided(Decline(code)) => Finish(Note(p, DeclineEntry(turn)), GaveUp, FromModel(code), turn, [], s)
      case Decided(ActOn(action, target)) => Act(x, q, turn, action, target, p, s)
  }

  function Limit(q: Request): nat {
    if q.maxSteps <= MaxTurns then q.maxSteps else MaxTurns
  }

  function From<W>(x: Explorer<W>, q: Request, replies: nat -> Reply, turn: nat, p: Progress<W>): Run<W>
    requires 0 < turn <= Limit(q) + 1
    decreases Limit(q) + 1 - turn
  {
    if turn > Limit(q) then Finish(p, GaveUp, TurnLimitReached, Limit(q), [], []).run
    else
      match TakeTurn(x, q, turn, replies(turn), p)
      case Over(run) => run
      case GoesOn(next) => From(x, q, replies, turn + 1, next)
  }

  function Begin<W>(w: W): Progress<W> {
    Progress(w, 0, 0, None, [], [], [])
  }

  function Discover<W>(x: Explorer<W>, q: Request, replies: nat -> Reply, w: W): Run<W> {
    if q.required <= x.trusted then From(x, q, replies, 1, Begin(w))
    else Finish(Begin(w), GaveUp, RequiredTargetUnknown, 0, [], []).run
  }

  /** The loop as it runs: one observation, one reply and at most one action per turn. */
  method DiscoverBounded<W>(x: Explorer<W>, q: Request, replies: nat -> Reply, w: W) returns (r: Run<W>)
    ensures r == Discover(x, q, replies, w)
  {
    var p := Progress(w, 0, 0, None, [], [], []);
    if !(q.required <= x.trusted) {
      return Run(DiscoveryResult(GaveUp, RequiredTargetUnknown, 0, 0, [], []), w, [], []);
    }
    for turn := 1 to Limit(q) + 1
      invariant Discover(x, q, replies, w) == From(x, q, replies, turn, p)
    {
      var t := PerformTurn(x, q, turn, replies(turn), p);
      match t {
        case Over(run) => return run;
        case GoesOn(next) => p := next;
      }
    }
    return Run(DiscoveryResult(GaveUp, TurnLimitReached, Limit(q), p.actions, [], p.trace), p.world, p.log, []);
  }

  method PerformTurn<W>(x: Explorer<W>, q: Request, turn: nat, reply: Reply, before: Progress<W>) returns (r: Turn<W>)
    requires turn > 0
    ensures r == TakeTurn(x, q, turn, reply, before)
  {
    var p := before;
    var c := x.engine.look(p.world);
    p := p.(world := c.world);
    if c.snapshot.Err? {
      return Finish(p, GaveUp, ObservationFailed, turn - 1, [], []);
    }
    var s := c.snapshot.value;
    match reply {
      case ModelFailed(code) =>
        return Finish(p, GaveUp, ModelError(code), turn, [], s);
      case Unreadable =>
        return Reject(p, turn, UnreadableReply, s);
      case Decided(Complete(claims)) =>
        var evidence := VerifyCompletion(claims, s, q.goal, x.trusted, p.filled, x.fingerprint);
        if evidence.None? {
          return Reject(p, turn, CompletionNotGrounded, s);
        }
        if !(q.required <= set i | 0 <= i < |evidence.value| :: evidence.value[i].target) {
          return Reject(p, turn, CompletionEvidenceMissing, s);
        }
        p := p.(trace := p.trace + [CompleteEntry(turn)]);
        return Finish(p, Discovered, Completed, turn, evidence.value, s);
      case Decided(AskForHelp(code)) =>
        p := p.(trace := p.trace + [HelpEntry(turn)]);
        return Finish(p, HelpNeeded, FromModel(code), turn, [], s);
      case Decided(Decline(code)) =>
        p := p.(trace := p.trace + [DeclineEntry(turn)]);
        return Finish(p, GaveUp, FromModel(code), turn, [], s);
      case Decided(ActOn(action, target)) =>
        r := PerformAction(x, q, turn, action, target, p, s);
    }
  }

  /** An accepted proposal is dispatched once, and recorded whatever the gateway answers. */
  method PerformAction<W>(
    x: Explorer<W>, q: Request, turn: nat, action: Action, target: Target, before: Progress<W>, s: Snapshot)
    returns (r: Turn<W>)
    ensures r == Act(x, q, turn, action, target, before, s)
  {
    var p := before;
    var rejection := ValidateAction(action, target, q.goal, x.trusted);
    if rejection.Some? {
      return Reject(p, turn, rejection.value, s);
    }
    if p.actions >= MaxActions {
      return Finish(p, GaveUp, ActionLimitReached, turn, [], s);
    }
    var attempt := Attempt(action, target, s);
    if p.previous == Some(attempt) {
      return Finish(p, GaveUp, NoProgress, turn, [], s);
    }
    var g := x.engine.act(p.world, action, target);
    p := p.(world := g.world, actions := p.actions + 1, log := p.log + [Dispatched(action, target, g.outcome)]);
    var source := GoalSpan(action, q.goal);
    p := p.(trace := p.trace + [ActEntry(turn, action.Kind(), target, source, g.outcome, g.reason)]);
    if g.outcome == Executed && action.Fill? && source.Some? {
      p := p.(filled := Refill(p.filled, target, action.value));
    }
    p := p.(previous := Some(attempt));
    match g.outcome {
      case Executed => return GoesOn(p);
      case Denied => return Finish(p, GaveUp, PolicyDenied, turn, [], s);
      case ApprovalRequired => return Finish(p, HelpNeeded, NeedsApproval, turn, [], s);
      case Failed =>
        if g.reason == ActionEffectOccurredEvidenceFailed {
          return Finish(p, HelpNeeded, EffectUncertain, turn, [], s);
        }
        return Finish(p, GaveUp, ActionFailed, turn, [], s);
    }
  }
}
