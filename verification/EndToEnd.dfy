/** The compiler is correct: replaying what was built from a discovery repeats the discovery. */
module EndToEnd {
  import opened Contracts
  import opened Text
  import opened Gateway
  import opened Discovery
  import opened DiscoveryProofs
  import opened Builder
  import opened BuilderProofs
  import opened Validator
  import opened Compiler
  import E = Evaluator
  import R = Replay
  import ReplaySoundness

  // ---- The script --------------------------------------------------------------------------

  lemma TracedIsDispatched(e: Entry, d: Dispatched, goal: string)
    requires Tells(e, d, goal)
    ensures TracedAction(e, goal) == d.action
  {
  }

  lemma BuiltIsScript(b: BuildRequest, fingerprint: string -> string, goal: string, log: seq<Dispatched>)
    requires Build(b, fingerprint).Ok? && b.metadata == [] && b.outcomes == []
    requires TellsAll(Acts(b.discovery.trace), log, goal)
    ensures Script(Build(b, fingerprint).value, GoalInputs(goal, Acts(b.discovery.trace)), log)
  {
    var d, acts := Build(b, fingerprint).value, Acts(b.discovery.trace);
    var inputs := GoalInputs(goal, acts);
    CompilationPreservesActions(b, fingerprint, goal);
    MetadataIsPlaced(b, fingerprint);
    var parts := BuildHasParts(b, fingerprint);
    forall k | 0 <= k < |log|
      ensures Bare(d.steps[k]) && d.steps[k].action.target == log[k].target && log[k].outcome == Executed
      ensures R.Materialize(d.steps[k].action, inputs) == Some(log[k].action)
    {
      assert Tells(acts[k], log[k], goal) && Performs(d.steps[k], acts[k], goal, inputs);
      TracedIsDispatched(acts[k], log[k], goal);
      assert !Selects(b.metadata, SelectorOf(acts, k));
    }
  }

  // ---- The completion -----------------------------------------------------------------------

  lemma {:induction false} EvidenceIsFound(target: Target, evidence: seq<Verified>)
    ensures var v := EvidenceFor(target, evidence); v.Some? ==> v.value in evidence && v.value.target == target
  {
    if evidence != [] && evidence[|evidence| - 1].target != target {
      EvidenceIsFound(target, evidence[..|evidence| - 1]);
    }
  }

  lemma {:induction false} ConditionsAreBuilt(
    templates: seq<SuccessTemplate>, evidence: seq<Verified>, names: map<Target, string>, fingerprint: string -> string)
    requires BuildConditions(templates, evidence, names, fingerprint).Ok?
    ensures var cs := BuildConditions(templates, evidence, names, fingerprint).value;
      && |cs| == |templates|
      && forall k :: 0 <= k < |cs| ==> BuildCondition(templates[k], evidence, names, fingerprint) == Ok(cs[k])
  {
    if templates != [] {
      ConditionsAreBuilt(templates[..|templates| - 1], evidence, names, fingerprint);
    }
  }

  lemma {:induction false} LatestFillIsLogged(log: seq<Dispatched>, target: Target)
    ensures var v := LatestFill(log, target);
      v.Some? ==> exists k :: 0 <= k < |log| && log[k].target == target && log[k].action == Fill(v.value)
  {
    if log != [] {
      LatestFillIsLogged(log[..|log| - 1], target);
    }
  }

  ghost predicate Injective(f: string -> string) {
    forall a, b :: f(a) == f(b) ==> a == b
  }

  /** The input of a fill target is the value that was last filled there. */
  lemma InputIsLatestFill(acts: seq<Entry>, log: seq<Dispatched>, goal: string, source: Target)
    requires TellsAll(acts, log, goal) && OneSourcePerName(acts) && LatestFill(log, source).Some?
    ensures var inputs := GoalInputs(goal, acts);
      LastSegment(source) in inputs && inputs[LastSegment(source)] == LatestFill(log, source).value
  {
    LatestFillIsLogged(log, source);
    var text := LatestFill(log, source).value;
    var k :| 0 <= k < |log| && log[k].target == source && log[k].action == Fill(text);
    GoalInputsAgree(goal, acts);
    assert Tells(acts[k], log[k], goal);
  }

  /** A condition built from verified evidence holds on any snapshot that shows the evidence's target as it was. */
  lemma BuiltConditionHolds(
    template: SuccessTemplate, evidence: seq<Verified>, names: map<Target, string>, fingerprint: string -> string,
    inputs: E.Inputs, last: Snapshot, now: Snapshot, log: seq<Dispatched>)
    requires BuildCondition(template, evidence, names, fingerprint).Ok? && Injective(fingerprint)
    requires EvidenceHolds(EvidenceFor(template.target, evidence).value, last, log, fingerprint)
    requires E.FindObservation(template.target, now) == E.FindObservation(template.target, last)
    requires forall x :: x in names && LatestFill(log, x).Some? ==>
      names[x] in inputs && inputs[names[x]] == LatestFill(log, x).value
    ensures var c := BuildCondition(template, evidence, names, fingerprint).value;
      E.EvaluateCondition(c, now, inputs).result == E.True
  {
    var v := EvidenceFor(template.target, evidence).value;
    var text := CurrentText(v.target, last).value;
    EvidenceIsFound(template.target, evidence);
    match template
    case InputEquality(_, source) => assert LatestFill(log, source) == Some(text);
    case LiteralEquality(_, expected) => assert text == expected;
    case VisibleTemplate(_) =>
  }

  /** Every success condition holds on what the replay sees of the surface that the completion was verified on. */
  lemma CompletionHolds(
    b: BuildRequest, fingerprint: string -> string, goal: string, log: seq<Dispatched>, last: Snapshot, now: Snapshot)
    requires Build(b, fingerprint).Ok? && Injective(fingerprint)
    requires TellsAll(Acts(b.discovery.trace), log, goal)
    requires forall i :: 0 <= i < |b.discovery.evidence| ==> EvidenceHolds(b.discovery.evidence[i], last, log, fingerprint)
    requires forall t :: t in R.TargetsFor(Build(b, fingerprint).value) ==>
      E.FindObservation(t, now) == E.FindObservation(t, last)
    ensures AllHold(Build(b, fingerprint).value, GoalInputs(goal, Acts(b.discovery.trace)), now)
  {
    var d, acts := Build(b, fingerprint).value, Acts(b.discovery.trace);
    var inputs := GoalInputs(goal, acts);
    var parts := BuildHasParts(b, fingerprint);
    var names := parts.inputs.names;
    GoalInputsPass(goal, acts, parts.sensitivity);
    ConditionsAreBuilt(b.templates, b.discovery.evidence, names, fingerprint);
    forall x | x in names && LatestFill(log, x).Some?
      ensures names[x] in inputs && inputs[names[x]] == LatestFill(log, x).value
    {
      InputIsLatestFill(acts, log, goal, x);
    }
    ReplaySoundness.TargetsAreComplete(d);
    forall k | 0 <= k < |d.success|
      ensures E.EvaluateCondition(d.success[k], now, inputs).result == E.True
    {
      var template := b.templates[k];
      assert BuildCondition(template, b.discovery.evidence, names, fingerprint) == Ok(d.success[k]);
      EvidenceIsFound(template.target, b.discovery.evidence);
      assert d.success[k].target == template.target;
      BuiltConditionHolds(template, b.discovery.evidence, names, fingerprint, inputs, last, now, log);
    }
    E.AllConditionsMeans(d.success, now, inputs);
  }

  // ---- The targets -----------------------------------------------------------------------------

  lemma {:induction false} StepsTargetsWithin(steps: seq<Step>, targets: set<Target>)
    requires forall k :: 0 <= k < |steps| ==> Bare(steps[k]) && steps[k].action.target in targets
    ensures forall t :: t in R.StepsTargets(steps) ==> t in targets
  {
    if steps != [] {
      StepsTargetsWithin(steps[1..], targets);
    }
  }

  /** Everything the definition mentions was bound when it was discovered. */
  lemma TargetsAreTrusted(b: BuildRequest, fingerprint: string -> string, goal: string, log: seq<Dispatched>, trusted: set<Target>)
    requires Build(b, fingerprint).Ok? && b.metadata == [] && b.outcomes == []
    requires TellsAll(Acts(b.discovery.trace), log, goal)
    requires forall k :: 0 <= k < |log| ==> log[k].target in trusted
    requires forall v :: v in b.discovery.evidence ==> v.target in trusted
    ensures forall t :: t in R.TargetsFor(Build(b, fingerprint).value) ==> t in trusted
  {
    var d := Build(b, fingerprint).value;
    var parts := BuildHasParts(b, fingerprint);
    BuiltIsScript(b, fingerprint, goal, log);
    StepsTargetsWithin(d.steps, trusted);
    ConditionsAreBuilt(b.templates, b.discovery.evidence, parts.inputs.names, fingerprint);
    forall k | 0 <= k < |d.success|
      ensures d.success[k].target in trusted
    {
      EvidenceIsFound(b.templates[k].target, b.discovery.evidence);
      assert BuildCondition(b.templates[k], b.discovery.evidence, parts.inputs.names, fingerprint) == Ok(d.success[k]);
    }
    forall k | 0 <= k < |d.outputs|
      ensures d.outputs[k].target in trusted
    {
      EvidenceIsFound(b.outputs[k].target, b.discovery.evidence);
    }
    TargetsWithin(d, trusted);
  }

  lemma TargetsWithin(d: Definition, targets: set<Target>)
    requires d.outcomes == []
    requires forall k :: 0 <= k < |d.outputs| ==> d.outputs[k].target in targets
    requires forall k :: 0 <= k < |d.success| ==> d.success[k].target in targets
    requires forall t :: t in R.StepsTargets(d.steps) ==> t in targets
    ensures forall t :: t in R.TargetsFor(d) ==> t in targets
  {
    var outputs := seq(|d.outputs|, i requires 0 <= i < |d.outputs| => d.outputs[i].target);
    ReplaySoundness.InsertAllKeeps(
      outputs + R.ConditionTargets(d.success) + R.OutcomeTargets(d.outcomes) + R.StepsTargets(d.steps), []);
  }

  // ---- The compiler is correct ---------------------------------------------------------------------

  /** What a discovery leaves for its replay: a log of trusted, permitted actions, and evidence of where they led. */
  ghost predicate Discovers<W, S>(
    trusted: set<Target>, sys: Behaviour<S>, fingerprint: string -> string, goal: string, s: S, r: Run<W>)
  {
    && TellsAll(Acts(r.result.trace), r.log, goal) && r.result.actions == |r.log|
    && (forall k :: 0 <= k < |r.log| ==> r.log[k].target in trusted)
    && (forall i :: 0 <= i < |r.result.evidence| ==>
          r.result.evidence[i].target in trusted && EvidenceHolds(r.result.evidence[i], r.last, r.log, fingerprint))
    && Permitted(sys, s, r.log) && sys.sample(StateAfter(sys.next, s, r.log)) == Ok(r.last)
  }

  function Bound(profile: Profile): seq<Target> {
    R.InsertTargets(profile.bindings, [])
  }

  lemma DiscoverOnTrail<W(!new), S>(
    x: Explorer<W>, q: Request, replies: nat -> Reply, w: W, sys: Behaviour<S>, surface: W -> S)
    requires EngineDrives(x.engine, sys, surface) && EngineAsks(x.engine, sys, surface)
    ensures var r := Discover(x, q, replies, w);
      r.result.outcome == Discovered ==> RunKeepsTrail(r, sys, surface, surface(w))
  {
    if q.required <= x.trusted {
      LoopOnTrail(x, q, replies, 1, Begin(w), sys, surface, surface(w));
    }
  }

  lemma ExplorerDrives<W(!new), S>(
    m: Surface<S>, ports: Ports<W>, surface: W -> S, ctx: Context, fingerprint: string -> string)
    requires Drive(ports, m, surface)
    ensures var x, sys := ExplorerFor(ports, ctx, fingerprint), DiscoveryOf(m, Bound(ctx.profile), ports.policy);
      && EngineDrives(x.engine, sys, surface) && EngineAsks(x.engine, sys, surface)
      && x.trusted == Trusted(ctx.profile) && x.fingerprint == fingerprint
  {
    var x := ExplorerFor(ports, ctx, fingerprint);
    ReplaySoundness.InsertAllKeeps(ctx.profile.bindings, []);
    var sys := DiscoveryOf(m, Bound(ctx.profile), ports.policy);
    forall w
      ensures x.engine.look(w).snapshot == sys.sample(surface(w)) && surface(x.engine.look(w).world) == surface(w)
    {
      CollectGlimpses(ports, m, surface, ctx.profile, Bound(ctx.profile), w);
    }
    EngineActs(x.engine, ports, m, surface, ctx.profile, ctx.generation, sys);
  }

  lemma TrailLeaves<W, S>(x: Explorer<W>, sys: Behaviour<S>, q: Request, surface: W -> S, s: S, r: Run<W>)
    requires Compilable(x, q, r) && RunKeepsTrail(r, sys, surface, s)
    ensures Discovers(x.trusted, sys, x.fingerprint, q.goal, s, r)
  {
  }

  lemma DiscoveryLeaves<W(!new), S>(
    m: Surface<S>, ports: Ports<W>, surface: W -> S, ctx: Context, fingerprint: string -> string,
    q: Request, replies: nat -> Reply, w: W, x: Explorer<W>)
    requires Drive(ports, m, surface) && x == ExplorerFor(ports, ctx, fingerprint)
    requires Discover(x, q, replies, w).result.outcome == Discovered
    ensures Discovers(
      Trusted(ctx.profile), DiscoveryOf(m, Bound(ctx.profile), ports.policy), fingerprint, q.goal, surface(w),
      Discover(x, q, replies, w))
  {
    var sys := DiscoveryOf(m, Bound(ctx.profile), ports.policy);
    ExplorerDrives(m, ports, surface, ctx, fingerprint);
    SuccessIsCompilable(x, q, replies, w);
    DiscoverOnTrail(x, q, replies, w, sys, surface);
    TrailLeaves(x, sys, q, surface, surface(w), Discover(x, q, replies, w));
  }

  /** A replay that can read its targets sees of them what discovery saw. */
  lemma ReplaySeesTheSame<S>(m: Surface<S>, all: seq<Target>, some: seq<Target>, s: S)
    requires (forall t :: t in some ==> t in all) && Sample(m, some, s).Ok?
    ensures forall t :: t in some ==>
      E.FindObservation(t, Sample(m, some, s).value) == E.FindObservation(t, Glimpses(m, all, s))
  {
    GlimpsesTell(m, all, s);
    SampleTells(m, some, s);
  }

  /** The replay of a build, from where its discovery started, with the inputs the goal binds. */
  function Replayed<V>(
    ports: Ports<V>, ctx: Context, b: BuildRequest, d: Definition, goal: string, v: V): R.Run<V>
  {
    R.Start(ports, d, GoalInputs(goal, Acts(b.discovery.trace)), ctx, v)
  }

  lemma StartsAtOnce<V>(ports: Ports<V>, ctx: Context, b: BuildRequest, d: Definition, goal: string, v: V)
    requires R.ValidateInputs(d.inputs, GoalInputs(goal, Acts(b.discovery.trace))) == None
    requires d.family == ctx.profile.family && forall t :: t in R.TargetsFor(d) ==> t in ctx.profile.bindings
    ensures Replayed(ports, ctx, b, d, goal, v)
         == R.ExecuteFrom(R.EngineFor(ports, d, ctx), d, GoalInputs(goal, Acts(b.discovery.trace)), 0, v)
  {
  }

  /** The build is ready to repeat the log: its targets are bound, its steps the script, its completion holds at the end. */
  ghost predicate Ready<S>(
    sys: Behaviour<S>, profile: Profile, d: Definition, inputs: E.Inputs, s: S, log: seq<Dispatched>)
  {
    && R.ValidateInputs(d.inputs, inputs) == None && d.family == profile.family
    && (forall t :: t in R.TargetsFor(d) ==> t in profile.bindings)
    && Script(d, inputs, log) && Completes(d, inputs, log, sys, s)
  }

  lemma BuildIsReady<W, S>(
    m: Surface<S>, profile: Profile, before: Rules, after: Rules, fingerprint: string -> string, goal: string, s: S,
    r: Run<W>, b: BuildRequest)
    requires Injective(fingerprint) && b.discovery == r.result
    requires Discovers(Trusted(profile), DiscoveryOf(m, Bound(profile), before), fingerprint, goal, s, r)
    requires b.metadata == [] && b.outcomes == [] && b.family == profile.family && Build(b, fingerprint).Ok?
    ensures var d := Build(b, fingerprint).value;
      Ready(BehaviourOf(m, R.TargetsFor(d), after), profile, d, GoalInputs(goal, Acts(b.discovery.trace)), s, r.log)
  {
    var d := Build(b, fingerprint).value;
    var all, some := Bound(profile), R.TargetsFor(d);
    var final := StateAfter(Next(m), s, r.log);
    ReplaySoundness.InsertAllKeeps(profile.bindings, []);
    TargetsAreTrusted(b, fingerprint, goal, r.log, Trusted(profile));
    CompilationPreservesActions(b, fingerprint, goal);
    var parts := BuildHasParts(b, fingerprint);
    BuiltIsScript(b, fingerprint, goal, r.log);
    if Sample(m, some, final).Ok? {
      ReplaySeesTheSame(m, all, some, final);
      CompletionHolds(b, fingerprint, goal, r.log, r.last, Sample(m, some, final).value);
    }
  }

  lemma ReadyEnds<V(!new), S>(
    m: Surface<S>, ports: Ports<V>, surface: V -> S, ctx: Context, d: Definition, inputs: E.Inputs,
    log: seq<Dispatched>, v: V) returns (n: nat)
    requires Drive(ports, m, surface) && log != []
    requires Ready(BehaviourOf(m, R.TargetsFor(d), ports.policy), ctx.profile, d, inputs, surface(v), log)
    requires CallsExecuted(R.ExecuteFrom(R.EngineFor(ports, d, ctx), d, inputs, 0, v).log)
    ensures EndsAt(d, inputs, log, 0, n, R.ExecuteFrom(R.EngineFor(ports, d, ctx), d, inputs, 0, v),
                   BehaviourOf(m, R.TargetsFor(d), ports.policy), surface, surface(v))
  {
    var e := R.EngineFor(ports, d, ctx);
    EngineOnSurface(e, ports, m, surface, ctx.profile, ctx.generation, R.TargetsFor(d));
    n := ScriptRun(e, d, inputs, log, v, BehaviourOf(m, R.TargetsFor(d), ports.policy), surface, surface(v));
  }

  /** One discovery on a surface, a build of it, and a replay of that from where the discovery started. */
  datatype Trial<!W, !V, !S> = Trial(
    m: Surface<S>, discovering: Ports<W>, from: W -> S, w: W, replaying: Ports<V>, surface: V -> S, v: V,
    ctx: Context, ctx': Context, fingerprint: string -> string, q: Request, replies: nat -> Reply, b: BuildRequest)
  {
    function Start(): S { from(w) }

    function Discovery(): Run<W> { Discover(ExplorerFor(discovering, ctx, fingerprint), q, replies, w) }

    function Log(): seq<Dispatched> { Discovery().log }

    function Inputs(): E.Inputs { GoalInputs(q.goal, Acts(b.discovery.trace)) }

    predicate Built() { Build(b, fingerprint).Ok? }

    function Compiled(): Definition
      requires Built()
    {
      Build(b, fingerprint).value
    }

    function Replay(): R.Run<V>
      requires Built()
    {
      Replayed(replaying, ctx', b, Compiled(), q.goal, v)
    }

    /** The surface after the first `j` discovered actions. */
    function At(j: nat): S
      requires j <= |Log()|
    {
      StateAfter(Next(m), Start(), Log()[..j])
    }

    /** The surface as the replay tells it. */
    function Seen(): Behaviour<S>
      requires Built()
    {
      BehaviourOf(m, R.TargetsFor(Compiled()), replaying.policy)
    }
  }

  /**
   * Both ports drive one surface from one state, the discovery succeeds with at least one action, and its build
   * succeeds without step metadata and business outcomes, for the profile it was discovered with.
   */
  ghost predicate Compiles<W(!new), V(!new), S>(t: Trial<W, V, S>) {
    && Drive(t.discovering, t.m, t.from) && Drive(t.replaying, t.m, t.surface) && t.Start() == t.surface(t.v)
    && t.ctx'.profile == t.ctx.profile && Injective(t.fingerprint)
    && t.Discovery().result.outcome == Discovered && t.Discovery().result.actions > 0
    && t.b.discovery == t.Discovery().result && t.b.metadata == [] && t.b.outcomes == []
    && t.b.family == t.ctx.profile.family && t.Built()
  }

  /**
   * Where a replay ends: with the inputs that the goal binds and every gateway call executed, the capability repeats
   * the discovered actions up to the first state where one of its targets cannot be read, or where the completion
   * holds. It never ends unfinished.
   */
  lemma ReplayEndsExactly<W(!new), V(!new), S>(t: Trial<W, V, S>) returns (n: nat)
    requires Compiles(t) && CallsExecuted(t.Replay().log)
    ensures EndsAt(t.Compiled(), t.Inputs(), t.Log(), 0, n, t.Replay(), t.Seen(), t.surface, t.Start())
  {
    var x := ExplorerFor(t.discovering, t.ctx, t.fingerprint);
    DiscoveryLeaves(t.m, t.discovering, t.from, t.ctx, t.fingerprint, t.q, t.replies, t.w, x);
    BuildIsReady(
      t.m, t.ctx.profile, t.discovering.policy, t.replaying.policy, t.fingerprint, t.q.goal, t.Start(), t.Discovery(), t.b);
    StartsAtOnce(t.replaying, t.ctx', t.b, t.Compiled(), t.q.goal, t.v);
    n := ReadyEnds(t.m, t.replaying, t.surface, t.ctx', t.Compiled(), t.Inputs(), t.Log(), t.v);
  }

  /** No target of the capability is ambiguous, or raises, in any state that the discovered actions pass through. */
  ghost predicate ReadableThrough<W, V, S>(t: Trial<W, V, S>)
    requires t.Built()
  {
    forall x, j: nat :: x in R.TargetsFor(t.Compiled()) && j <= |t.Log()| ==> t.m.view(t.At(j), x).Readable()
  }

  /** What compiler correctness promises. */
  ghost predicate Repeats<W, V, S>(t: Trial<W, V, S>, n: nat)
    requires t.Built()
  {
    && 0 < n <= |t.Log()| && Calls(t.Replay().log) == t.Log()[..n] && Reached(t.Replay().result)
    && t.surface(t.Replay().world) == t.At(n)
  }

  /**
   * Compiler correctness: where every target of the capability can be read, the replay dispatches a non-empty prefix
   * of the discovered actions, leaves the surface where they lead, and ends in success or on an output it cannot read.
   * Nothing is asked of the other bound targets, which discovery looked at too.
   */
  lemma CompilationPreservesMeaning<W(!new), V(!new), S>(t: Trial<W, V, S>) returns (n: nat)
    requires Compiles(t) && CallsExecuted(t.Replay().log) && ReadableThrough(t)
    ensures Repeats(t, n)
  {
    n := ReplayEndsExactly(t);
    SampleTells(t.m, R.TargetsFor(t.Compiled()), t.At(n));
    assert t.Log()[0..n] == t.Log()[..n];
  }

  // ---- When nothing refuses -------------------------------------------------------------------------

  lemma ReadyIsExecuted<V(!new), S>(
    m: Surface<S>, ports: Ports<V>, surface: V -> S, ctx: Context, d: Definition, inputs: E.Inputs,
    log: seq<Dispatched>, v: V)
    requires Drive(ports, m, surface) && NeverRefuses(ports) && log != []
    requires Ready(BehaviourOf(m, R.TargetsFor(d), ports.policy), ctx.profile, d, inputs, surface(v), log)
    requires Permitted(DiscoveryOf(m, Bound(ctx.profile), ports.policy), surface(v), log)
    requires forall k :: 0 <= k < |log| ==> log[k].target in ctx.profile.bindings
    ensures CallsExecuted(R.ExecuteFrom(R.EngineFor(ports, d, ctx), d, inputs, 0, v).log)
  {
    var e, sys := R.EngineFor(ports, d, ctx), BehaviourOf(m, R.TargetsFor(d), ports.policy);
    EngineOnSurface(e, ports, m, surface, ctx.profile, ctx.generation, R.TargetsFor(d));
    forall j, w: V | 0 <= j < |log| && surface(w) == StateAfter(sys.next, surface(v), log[..j])
      ensures e.act(w, log[j].action, log[j].target).outcome == Executed
    {
      PermittedExecutes(ports, m, surface, ctx.profile, ctx.generation, log[j].action, log[j].target, w);
    }
    ScriptIsExecuted(e, d, inputs, log, v, sys, surface, surface(v));
  }

  lemma BuildIsExecuted<W, V(!new), S>(
    m: Surface<S>, ports: Ports<V>, surface: V -> S, ctx: Context, fingerprint: string -> string, goal: string,
    r: Run<W>, b: BuildRequest, v: V)
    requires Drive(ports, m, surface) && NeverRefuses(ports) && Injective(fingerprint)
    requires Discovers(
      Trusted(ctx.profile), DiscoveryOf(m, Bound(ctx.profile), ports.policy), fingerprint, goal, surface(v), r)
    requires r.result.actions > 0 && b.discovery == r.result
    requires b.metadata == [] && b.outcomes == [] && b.family == ctx.profile.family && Build(b, fingerprint).Ok?
    ensures CallsExecuted(Replayed(ports, ctx, b, Build(b, fingerprint).value, goal, v).log)
  {
    var d, inputs := Build(b, fingerprint).value, GoalInputs(goal, Acts(b.discovery.trace));
    BuildIsReady(m, ctx.profile, ports.policy, ports.policy, fingerprint, goal, surface(v), r, b);
    StartsAtOnce(ports, ctx, b, d, goal, v);
    ReadyIsExecuted(m, ports, surface, ctx, d, inputs, r.log, v);
  }

  /** The policy is the one discovery went by, and nothing refuses. */
  ghost predicate Unrefused<W(!new), V(!new), S>(t: Trial<W, V, S>) {
    NeverRefuses(t.replaying) && t.replaying.policy == t.discovering.policy
  }

  lemma UnrefusedIsExecuted<W(!new), V(!new), S>(t: Trial<W, V, S>)
    requires Compiles(t) && Unrefused(t)
    ensures CallsExecuted(t.Replay().log)
  {
    var x := ExplorerFor(t.discovering, t.ctx, t.fingerprint);
    DiscoveryLeaves(t.m, t.discovering, t.from, t.ctx, t.fingerprint, t.q, t.replies, t.w, x);
    BuildIsExecuted(t.m, t.replaying, t.surface, t.ctx', t.fingerprint, t.q.goal, t.Discovery(), t.b, t.v);
  }

  /** Compiler correctness with no condition on the run. */
  lemma UnrefusedReplaySucceeds<W(!new), V(!new), S>(t: Trial<W, V, S>) returns (n: nat)
    requires Compiles(t) && Unrefused(t) && ReadableThrough(t)
    ensures Repeats(t, n)
  {
    UnrefusedIsExecuted(t);
    n := CompilationPreservesMeaning(t);
  }

  // ---- Exactly when a replay is blocked -------------------------------------------------------------

  /** Target `k` is the first that cannot be read. */
  predicate FirstUnread<S>(m: Surface<S>, targets: seq<Target>, s: S, k: nat) {
    k < |targets| && !m.view(s, targets[k]).Readable() && forall j :: 0 <= j < k ==> m.view(s, targets[j]).Readable()
  }

  /** Some target is the first that cannot be read, and `reason` says why. */
  ghost predicate Unread<S>(m: Surface<S>, targets: seq<Target>, s: S, reason: R.Reason) {
    exists k: nat :: FirstUnread(m, targets, s, k) && R.WhyUnread(m.view(s, targets[k])) == reason
  }

  lemma {:induction false} SampleFailsWhenUnread<S>(m: Surface<S>, targets: seq<Target>, s: S, reason: R.Reason)
    ensures Sample(m, targets, s) == Err(reason) <==> Unread(m, targets, s, reason)
  {
    if targets != [] && m.view(s, targets[0]).Readable() {
      var rest := targets[1..];
      SampleFailsWhenUnread(m, rest, s, reason);
      assert forall j :: 0 <= j < |rest| ==> rest[j] == targets[j + 1];
      if Unread(m, rest, s, reason) {
        var k: nat :| FirstUnread(m, rest, s, k) && R.WhyUnread(m.view(s, rest[k])) == reason;
        assert forall j :: 0 < j < k + 1 ==> targets[j] == rest[j - 1];
        assert FirstUnread(m, targets, s, k + 1);
      }
      if Unread(m, targets, s, reason) {
        var k: nat :| FirstUnread(m, targets, s, k) && R.WhyUnread(m.view(s, targets[k])) == reason;
        assert FirstUnread(m, rest, s, k - 1);
      }
    } else if targets != [] {
      assert FirstUnread(m, targets, s, 0);
    }
  }

  /** The replay comes to state `n` of the discovered actions: it can read all before, and none completes it. */
  ghost predicate ComesTo<W, V, S>(t: Trial<W, V, S>, n: nat)
    requires t.Built()
  {
    GoesThrough(t.Compiled(), t.Inputs(), t.Log(), 0, n, t.Seen(), t.Start())
  }

  /** It comes to a state where the first target of the capability that it cannot read is unreadable for `reason`. */
  ghost predicate ComesToUnread<W, V, S>(t: Trial<W, V, S>, reason: R.Reason)
    requires t.Built()
  {
    exists n: nat :: ComesTo(t, n) && Unread(t.m, R.TargetsFor(t.Compiled()), t.At(n), reason)
  }

  /**
   * The exact condition. A replay ends on an unreadable target, for a reason, exactly when it comes to a state where
   * the first target of the capability that it cannot read is unreadable for that reason: on AmbiguousTarget, where
   * that target is ambiguous. In every other case it reaches the completion.
   */
  lemma ReplayIsBlockedExactly<W(!new), V(!new), S>(t: Trial<W, V, S>, reason: R.Reason)
    requires Compiles(t) && Unrefused(t) && R.IsUnread(reason)
    ensures BlockedBy(t.Replay().result, reason) <==> ComesToUnread(t, reason)
    ensures var result := t.Replay().result;
      Reached(result) || BlockedBy(result, R.AmbiguousTarget) || BlockedBy(result, R.InspectionRaised)
  {
    UnrefusedIsExecuted(t);
    var n := ReplayEndsExactly(t);
    var targets := R.TargetsFor(t.Compiled());
    SampleTells(t.m, targets, t.At(n));
    SampleFailsWhenUnread(t.m, targets, t.At(n), reason);
    if BlockedBy(t.Replay().result, reason) {
      assert ComesTo(t, n);
    }
    if ComesToUnread(t, reason) {
      var j: nat :| ComesTo(t, j) && Unread(t.m, targets, t.At(j), reason);
      SampleFailsWhenUnread(t.m, targets, t.At(j), reason);
      OneEnding(t, n, j);
    }
  }

  /** A replay that ended at `n` comes to no unreadable state but that one. */
  lemma OneEnding<W, V, S>(t: Trial<W, V, S>, n: nat, j: nat)
    requires t.Built() && ComesTo(t, j) && t.Seen().sample(t.At(j)).Err?
    requires EndsAt(t.Compiled(), t.Inputs(), t.Log(), 0, n, t.Replay(), t.Seen(), t.surface, t.Start())
    ensures j == n
  {
  }

  /** Where nothing raises: it ends on ambiguity exactly when it comes to a state with an ambiguous target. */
  lemma AmbiguityBlocksExactly<W(!new), V(!new), S>(t: Trial<W, V, S>)
    requires Compiles(t) && Unrefused(t)
    requires forall s, x :: !t.m.view(s, x).Raises?
    ensures BlockedBy(t.Replay().result, R.AmbiguousTarget) <==>
      exists n: nat, x :: ComesTo(t, n) && x in R.TargetsFor(t.Compiled()) && t.m.view(t.At(n), x).Ambiguous?
  {
    ReplayIsBlockedExactly(t, R.AmbiguousTarget);
    var targets := R.TargetsFor(t.Compiled());
    if ComesToUnread(t, R.AmbiguousTarget) {
      var n: nat :| ComesTo(t, n) && Unread(t.m, targets, t.At(n), R.AmbiguousTarget);
      var k: nat :| FirstUnread(t.m, targets, t.At(n), k);
      assert targets[k] in targets && t.m.view(t.At(n), targets[k]).Ambiguous?;
    }
    forall n: nat, x | ComesTo(t, n) && x in targets && t.m.view(t.At(n), x).Ambiguous?
      ensures ComesToUnread(t, R.AmbiguousTarget)
    {
      SampleTells(t.m, targets, t.At(n));
      SampleFailsWhenUnread(t.m, targets, t.At(n), Sample(t.m, targets, t.At(n)).error);
      SampleFailsWhenUnread(t.m, targets, t.At(n), R.AmbiguousTarget);
    }
  }
}
