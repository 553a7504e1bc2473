/** Discovery is complete: a model that proposes the actions of a feasible plan, one per turn, discovers that plan. */
module Plans {
  import opened Contracts
  import opened Gateway
  import opened Discovery
  import opened Compiler
  import E = Evaluator
  import R = Replay
  import Builder
  import EndToEnd
  import ReplaySoundness
  import DiscoveryProofs

  /** Ports on a surface where nothing refuses and the policy allows everything. */
  function OpenPorts<S>(m: Surface<S>): Ports<S> {
    Ports(
      (s, t) => (m.view(s, t), s), (s, a, t) => (m.scope(s, a, t), s), (k, t) => Decision(Allow, AllowedByRule),
      (s, g) => (None, s), (s, a, t) => m.apply(s, a, t), s => s, (s, e) => (true, s))
  }

  function Itself<S>(): S -> S { s => s }

  lemma OpenPortsDrive<S(!new)>(m: Surface<S>)
    ensures Drive(OpenPorts(m), m, Itself()) && NeverRefuses(OpenPorts(m))
  {
  }

  datatype Planned = Planned(action: Action, target: Target)

  /** The model proposes the plan, and then claims its completion. */
  function Proposing(plan: seq<Planned>, claims: seq<Claim>): nat -> Reply {
    turn => if 1 <= turn <= |plan| then Decided(ActOn(plan[turn - 1].action, plan[turn - 1].target))
            else Decided(Complete(claims))
  }

  /** The plan, dispatched. */
  function Done(plan: seq<Planned>): seq<Dispatched> {
    seq(|plan|, k requires 0 <= k < |plan| => Dispatched(plan[k].action, plan[k].target, Executed))
  }

  /** The plan, told by a trace. */
  function Told(plan: seq<Planned>, goal: string): seq<Entry> {
    seq(|plan|, k requires 0 <= k < |plan| =>
      ActEntry(k + 1, plan[k].action.Kind(), plan[k].target, GoalSpan(plan[k].action, goal), Executed,
               GatewayReason.Surface(Applied)))
  }

  /** The values the plan fills in. */
  function Filling(plan: seq<Planned>): seq<Filled> {
    if plan == [] then []
    else
      var last := plan[|plan| - 1];
      var before := Filling(plan[..|plan| - 1]);
      if last.action.Fill? then Refill(before, last.target, last.action.value) else before
  }

  function StateAt<S>(m: Surface<S>, plan: seq<Planned>, s: S, k: nat): S
    requires k <= |plan|
  {
    StateAfter(Next(m), s, Done(plan)[..k])
  }

  function SeenAt<S>(m: Surface<S>, profile: Profile, plan: seq<Planned>, s: S, k: nat): Snapshot
    requires k <= |plan|
  {
    Glimpses(m, EndToEnd.Bound(profile), StateAt(m, plan, s, k))
  }

  /** The plan fits the bounds, each action is valid and applies, and repeating one needs a change in between. */
  ghost predicate Feasible<S>(m: Surface<S>, profile: Profile, q: Request, plan: seq<Planned>, s: S) {
    && |plan| <= MaxActions && |plan| < Limit(q) && q.required <= Trusted(profile)
    && (forall k :: 0 <= k < |plan| ==>
          && ValidateAction(plan[k].action, plan[k].target, q.goal, Trusted(profile)) == None
          && m.scope(StateAt(m, plan, s, k), plan[k].action, plan[k].target)
          && m.apply(StateAt(m, plan, s, k), plan[k].action, plan[k].target).0 == Answer(Applied))
    && (forall k :: 0 < k < |plan| && plan[k] == plan[k - 1] ==>
          SeenAt(m, profile, plan, s, k) != SeenAt(m, profile, plan, s, k - 1))
  }

  /** The claims are true of where the plan ends, and cover what is required. */
  ghost predicate Claimable<S>(
    m: Surface<S>, profile: Profile, q: Request, plan: seq<Planned>, claims: seq<Claim>, s: S)
  {
    && Grounded(claims, SeenAt(m, profile, plan, s, |plan|), q.goal, Trusted(profile))
    && q.required <= set i | 0 <= i < |claims| :: claims[i].target
  }

  /** Where the loop stands after `k` turns. */
  function Standing<S>(m: Surface<S>, profile: Profile, q: Request, plan: seq<Planned>, s: S, k: nat): Progress<S>
    requires k <= |plan|
  {
    Progress(
      StateAt(m, plan, s, k), k, 0,
      if k == 0 then None
      else Some(Attempt(plan[k - 1].action, plan[k - 1].target, SeenAt(m, profile, plan, s, k - 1))),
      Filling(plan[..k]), Told(plan, q.goal)[..k], Done(plan)[..k])
  }

  /** What discovery looks at, and how it acts. */
  ghost predicate Explores<S(!new)>(x: Explorer<S>, m: Surface<S>, profile: Profile, fingerprint: string -> string) {
    && x.trusted == Trusted(profile) && x.fingerprint == fingerprint
    && (forall s :: x.engine.look(s) == R.Collected(Ok(Glimpses(m, EndToEnd.Bound(profile), s)), s))
    && (forall s, a, t :: t in profile.bindings && m.scope(s, a, t) && m.apply(s, a, t).0 == Answer(Applied) ==>
          var g := x.engine.act(s, a, t);
          g.outcome == Executed && g.reason == GatewayReason.Surface(Applied) && g.world == m.apply(s, a, t).1)
  }

  lemma OpenExplorer<S(!new)>(m: Surface<S>, ctx: Context, fingerprint: string -> string)
    ensures Explores(ExplorerFor(OpenPorts(m), ctx, fingerprint), m, ctx.profile, fingerprint)
  {
    var x := ExplorerFor(OpenPorts(m), ctx, fingerprint);
    OpenPortsDrive(m);
    ReplaySoundness.InsertAllKeeps(ctx.profile.bindings, []);
    forall s
      ensures x.engine.look(s) == R.Collected(Ok(Glimpses(m, EndToEnd.Bound(ctx.profile), s)), s)
    {
      CollectGlimpses(OpenPorts(m), m, Itself(), ctx.profile, EndToEnd.Bound(ctx.profile), s);
    }
    forall s, a, t | t in ctx.profile.bindings && m.scope(s, a, t) && m.apply(s, a, t).0 == Answer(Applied)
      ensures var g := x.engine.act(s, a, t);
        g.outcome == Executed && g.reason == GatewayReason.Surface(Applied) && g.world == m.apply(s, a, t).1
    {
      OpenExecutes(m, ctx.profile, ctx.generation, a, t, s);
    }
  }

  lemma OpenExecutes<S>(m: Surface<S>, profile: Profile, g: nat, a: Action, t: Target, s: S)
    requires t in profile.bindings && m.scope(s, a, t) && m.apply(s, a, t).0 == Answer(Applied)
    ensures var r := Execute(OpenPorts(m), profile, g, a, t, s);
      r.outcome == Executed && r.reason == GatewayReason.Surface(Applied) && r.world == m.apply(s, a, t).1
  {
    ExecutedStages(OpenPorts(m), profile, g, a, t, s);
  }

  lemma GroundedValueHasSpan(action: Action, target: Target, goal: string, trusted: set<Target>)
    requires ValidateAction(action, target, goal, trusted) == None && action.Fill?
    ensures GoalSpan(action, goal).Some?
  {
    DiscoveryProofs.SpanOfGroundedValue(action, goal);
  }

  /** Where the loop stands one turn later, field by field. */
  lemma StandingGrows<S>(m: Surface<S>, profile: Profile, q: Request, plan: seq<Planned>, s: S, k: nat)
    requires k < |plan|
    ensures var p, next := Standing(m, profile, q, plan, s, k), Standing(m, profile, q, plan, s, k + 1);
      var Planned(action, target) := plan[k];
      && next.world == m.apply(p.world, action, target).1 && next.actions == p.actions + 1 && next.invalid == p.invalid
      && next.previous == Some(Attempt(action, target, SeenAt(m, profile, plan, s, k)))
      && next.filled == (if action.Fill? then Refill(p.filled, target, action.value) else p.filled)
      && next.trace == p.trace + [ActEntry(k + 1, action.Kind(), target, GoalSpan(action, q.goal), Executed,
                                           GatewayReason.Surface(Applied))]
      && next.log == p.log + [Dispatched(action, target, Executed)]
  {
    NextState(Next(m), s, Done(plan), k);
    assert plan[..k + 1][..k] == plan[..k];
  }

  lemma ActGoesOn<S>(
    x: Explorer<S>, q: Request, turn: nat, action: Action, target: Target, p: Progress<S>, s: Snapshot, world: S)
    requires ValidateAction(action, target, q.goal, x.trusted) == None && p.actions < MaxActions
    requires p.previous != Some(Attempt(action, target, s)) && (action.Fill? ==> GoalSpan(action, q.goal).Some?)
    requires var g := x.engine.act(p.world, action, target);
      g.outcome == Executed && g.reason == GatewayReason.Surface(Applied) && g.world == world
    ensures Act(x, q, turn, action, target, p, s) == GoesOn(Progress(
      world, p.actions + 1, p.invalid, Some(Attempt(action, target, s)),
      if action.Fill? then Refill(p.filled, target, action.value) else p.filled,
      p.trace + [ActEntry(turn, action.Kind(), target, GoalSpan(action, q.goal), Executed, GatewayReason.Surface(Applied))],
      p.log + [Dispatched(action, target, Executed)]))
  {
  }

  lemma TurnActs<S>(
    x: Explorer<S>, q: Request, turn: nat, action: Action, target: Target, p: Progress<S>, seen: Snapshot)
    requires turn > 0 && x.engine.look(p.world) == R.Collected(Ok(seen), p.world)
    ensures TakeTurn(x, q, turn, Decided(ActOn(action, target)), p) == Act(x, q, turn, action, target, p, seen)
  {
  }

  /** One turn of the plan. */
  lemma PlanTurn<S(!new)>(
    x: Explorer<S>, m: Surface<S>, profile: Profile, q: Request, plan: seq<Planned>, claims: seq<Claim>, s: S, k: nat,
    fingerprint: string -> string)
    requires Explores(x, m, profile, fingerprint) && Feasible(m, profile, q, plan, s) && k < |plan|
    ensures TakeTurn(x, q, k + 1, Proposing(plan, claims)(k + 1), Standing(m, profile, q, plan, s, k))
         == GoesOn(Standing(m, profile, q, plan, s, k + 1))
  {
    var p := Standing(m, profile, q, plan, s, k);
    var Planned(action, target) := plan[k];
    var seen := SeenAt(m, profile, plan, s, k);
    assert x.engine.look(p.world) == R.Collected(Ok(seen), p.world);
    if action.Fill? {
      GroundedValueHasSpan(action, target, q.goal, x.trusted);
    }
    TurnActs(x, q, k + 1, action, target, p, seen);
    StandingGrows(m, profile, q, plan, s, k);
    ActGoesOn(x, q, k + 1, action, target, p, seen, m.apply(p.world, action, target).1);
  }

  lemma {:induction false} PlanRuns<S(!new)>(
    x: Explorer<S>, m: Surface<S>, profile: Profile, q: Request, plan: seq<Planned>, claims: seq<Claim>, s: S, k: nat,
    fingerprint: string -> string)
    requires Explores(x, m, profile, fingerprint) && Feasible(m, profile, q, plan, s) && k <= |plan|
    ensures From(x, q, Proposing(plan, claims), 1, Begin(s))
         == From(x, q, Proposing(plan, claims), k + 1, Standing(m, profile, q, plan, s, k))
  {
    if k == 0 {
      assert Standing(m, profile, q, plan, s, 0) == Begin(s);
    } else {
      PlanRuns(x, m, profile, q, plan, claims, s, k - 1, fingerprint);
      PlanTurn(x, m, profile, q, plan, claims, s, k - 1, fingerprint);
    }
  }

  /** The result of discovering the plan. */
  function PlanResult(plan: seq<Planned>, claims: seq<Claim>, goal: string, fingerprint: string -> string): DiscoveryResult {
    DiscoveryResult(
      Discovered, Completed, |plan| + 1, |plan|, EvidenceOf(claims, Filling(plan), fingerprint),
      Told(plan, goal) + [CompleteEntry(|plan| + 1)])
  }

  lemma PlanConcludes<S(!new)>(
    x: Explorer<S>, m: Surface<S>, profile: Profile, q: Request, plan: seq<Planned>, claims: seq<Claim>, s: S,
    fingerprint: string -> string)
    requires Explores(x, m, profile, fingerprint) && Claimable(m, profile, q, plan, claims, s)
    ensures var t := TakeTurn(x, q, |plan| + 1, Proposing(plan, claims)(|plan| + 1), Standing(m, profile, q, plan, s, |plan|));
      t.Over? && t.run.result == PlanResult(plan, claims, q.goal, fingerprint) && t.run.log == Done(plan)
  {
    var p, seen := Standing(m, profile, q, plan, s, |plan|), SeenAt(m, profile, plan, s, |plan|);
    assert x.engine.look(p.world) == R.Collected(Ok(seen), p.world);
    assert plan[..|plan|] == plan && Done(plan)[..|plan|] == Done(plan);
    assert Told(plan, q.goal)[..|plan|] == Told(plan, q.goal);
    var evidence := EvidenceOf(claims, Filling(plan), fingerprint);
    forall t | t in q.required
      ensures t in set i | 0 <= i < |evidence| :: evidence[i].target
    {
      var i :| 0 <= i < |claims| && claims[i].target == t;
      assert evidence[i].target == t;
    }
  }

  /**
   * Every feasible plan whose completion can be claimed is discovered: where nothing refuses, the discovery succeeds,
   * having dispatched exactly the plan.
   */
  lemma PlanIsDiscovered<S(!new)>(
    m: Surface<S>, ctx: Context, fingerprint: string -> string, q: Request, plan: seq<Planned>, claims: seq<Claim>, s: S)
    requires Feasible(m, ctx.profile, q, plan, s) && Claimable(m, ctx.profile, q, plan, claims, s)
    ensures var r := Discover(ExplorerFor(OpenPorts(m), ctx, fingerprint), q, Proposing(plan, claims), s);
      r.result == PlanResult(plan, claims, q.goal, fingerprint) && r.log == Done(plan)
  {
    var x := ExplorerFor(OpenPorts(m), ctx, fingerprint);
    OpenExplorer(m, ctx, fingerprint);
    PlanRuns(x, m, ctx.profile, q, plan, claims, s, |plan|, fingerprint);
    PlanConcludes(x, m, ctx.profile, q, plan, claims, s, fingerprint);
  }

  lemma {:induction false} ActsOfActs(entries: seq<Entry>)
    requires forall k :: 0 <= k < |entries| ==> entries[k].ActEntry?
    ensures Acts(entries) == entries
  {
    if entries != [] {
      ActsOfActs(entries[1..]);
      assert entries == [entries[0]] + entries[1..];
    }
  }

  /** The ACT entries of its trace tell the plan. */
  lemma ResultTells(plan: seq<Planned>, claims: seq<Claim>, goal: string, fingerprint: string -> string)
    ensures Acts(PlanResult(plan, claims, goal, fingerprint).trace) == Told(plan, goal)
  {
    ActsOfActs(Told(plan, goal));
    DiscoveryProofs.NoteKeeps(Told(plan, goal), CompleteEntry(|plan| + 1));
  }

  lemma ResultIsSuccessful(plan: seq<Planned>, claims: seq<Claim>, goal: string, fingerprint: string -> string)
    requires claims != []
    ensures var r := PlanResult(plan, claims, goal, fingerprint);
      Builder.Successful(r) && Builder.AllExecuted(Acts(r.trace)) && |Acts(r.trace)| == r.actions
  {
    ResultTells(plan, claims, goal, fingerprint);
    var r := PlanResult(plan, claims, goal, fingerprint);
    assert r.trace[|plan|].CompleteEntry?;
  }

  /** A plan, its build and the replay of that, all on open ports. */
  function TrialOf<S>(
    m: Surface<S>, ctx: Context, fingerprint: string -> string, q: Request, plan: seq<Planned>, claims: seq<Claim>, s: S,
    b: Builder.BuildRequest): EndToEnd.Trial<S, S, S>
  {
    EndToEnd.Trial(
      m, OpenPorts(m), Itself(), s, OpenPorts(m), Itself(), s, ctx, ctx, fingerprint, q, Proposing(plan, claims), b)
  }

  lemma PlanCompiles<S(!new)>(
    m: Surface<S>, ctx: Context, fingerprint: string -> string, q: Request, plan: seq<Planned>, claims: seq<Claim>, s: S,
    b: Builder.BuildRequest)
    requires Feasible(m, ctx.profile, q, plan, s) && Claimable(m, ctx.profile, q, plan, claims, s) && plan != []
    requires b.discovery == PlanResult(plan, claims, q.goal, fingerprint) && EndToEnd.Injective(fingerprint)
    requires b.metadata == [] && b.outcomes == [] && b.family == ctx.profile.family && Builder.Build(b, fingerprint).Ok?
    ensures var t := TrialOf(m, ctx, fingerprint, q, plan, claims, s, b);
      EndToEnd.Compiles(t) && EndToEnd.Unrefused(t) && t.Log() == Done(plan)
  {
    OpenPortsDrive(m);
    PlanIsDiscovered(m, ctx, fingerprint, q, plan, claims, s);
  }
}
