/**
 * Discover, build, replay, end to end: on a deterministic surface the compiled capability, run with the inputs that
 * the goal binds, repeats the discovered actions until the verified completion holds.
 */
module Compiler {
  import opened Contracts
  import opened Gateway
  import opened Discovery
  import opened DiscoveryProofs
  import opened Builder
  import opened BuilderProofs
  import opened Validator
  import E = Evaluator
  import R = Replay
  import ReplaySoundness

  // ---- A deterministic surface --------------------------------------------------------------

  /** How a surface in state `s` looks, whether an action is in the browser's scope, and what it does. */
  datatype Surface<!S> = Surface(
    view: (S, Target) -> Inspection, scope: (S, Action, Target) -> bool, apply: (S, Action, Target) -> (Performed, S))

  /** Looking answers from the surface and leaves it alone. */
  ghost predicate Looks<W(!new), S>(ports: Ports<W>, m: Surface<S>, surface: W -> S) {
    forall w, t {:trigger ports.inspect(w, t)} ::
      ports.inspect(w, t).0 == m.view(surface(w), t) && surface(ports.inspect(w, t).1) == surface(w)
  }

  /** Everything around a dispatch leaves the surface alone; only `perform` applies the action to it. */
  ghost predicate Dispatches<W(!new), S>(ports: Ports<W>, m: Surface<S>, surface: W -> S) {
    && (forall w, a, t {:trigger ports.inScope(w, a, t)} ::
          ports.inScope(w, a, t).0 == m.scope(surface(w), a, t) && surface(ports.inScope(w, a, t).1) == surface(w))
    && (forall w, e {:trigger ports.record(w, e)} :: surface(ports.record(w, e).1) == surface(w))
    && (forall w, g {:trigger ports.admit(w, g)} :: surface(ports.admit(w, g).1) == surface(w))
    && (forall w, a, t {:trigger ports.perform(w, a, t)} ::
          && ports.perform(w, a, t).0 == m.apply(surface(w), a, t).0
          && surface(ports.perform(w, a, t).1) == m.apply(surface(w), a, t).1)
    && (forall w {:trigger ports.leave(w)} :: surface(ports.leave(w)) == surface(w))
  }

  /** The ports drive the surface. */
  ghost predicate Drive<W(!new), S>(ports: Ports<W>, m: Surface<S>, surface: W -> S) {
    Looks(ports, m, surface) && Dispatches(ports, m, surface)
  }

  /** What replay sees of the targets, or why the first that cannot be read could not. */
  function Sample<S>(m: Surface<S>, targets: seq<Target>, s: S): Result<Snapshot, R.Reason> {
    if targets == [] then Ok([])
    else if !m.view(s, targets[0]).Readable() then Err(R.WhyUnread(m.view(s, targets[0])))
    else
      var rest := Sample(m, targets[1..], s);
      if rest.Err? then rest else Ok([R.ToObservation(targets[0], m.view(s, targets[0]))] + rest.value)
  }

  /** What discovery sees of them, readable or not. */
  function Glimpses<S>(m: Surface<S>, targets: seq<Target>, s: S): Snapshot {
    seq(|targets|, i requires 0 <= i < |targets| => Glimpse(targets[i], m.view(s, targets[i])))
  }

  function Next<S>(m: Surface<S>): (S, Action, Target) -> S {
    (s, a, t) => m.apply(s, a, t).1
  }

  /** What an engine can tell of a surface: what it sees, where an action leads, and whether it is let through and applies. */
  datatype Behaviour<!S> = Behaviour(
    sample: S -> Result<Snapshot, R.Reason>, next: (S, Action, Target) -> S, permits: (S, Action, Target) -> bool)

  function Permits<S>(m: Surface<S>, policy: Rules): (S, Action, Target) -> bool {
    (s, a, t) => m.scope(s, a, t) && policy(a.Kind(), t).effect == Allow && m.apply(s, a, t).0 == Answer(Applied)
  }

  /** The surface as a replay of these targets tells it. */
  function BehaviourOf<S>(m: Surface<S>, targets: seq<Target>, policy: Rules): Behaviour<S> {
    Behaviour(s => Sample(m, targets, s), Next(m), Permits(m, policy))
  }

  /** The surface as a discovery of these targets tells it. */
  function DiscoveryOf<S>(m: Surface<S>, targets: seq<Target>, policy: Rules): Behaviour<S> {
    Behaviour(s => Ok(Glimpses(m, targets, s)), Next(m), Permits(m, policy))
  }

  /** An engine on the surface: it sees samples, and an executed call is one application. */
  ghost predicate EngineDrives<W(!new), S>(e: R.Engine<W>, sys: Behaviour<S>, surface: W -> S) {
    && (forall w :: e.look(w).snapshot == sys.sample(surface(w)) && surface(e.look(w).world) == surface(w))
    && (forall w, a, t :: e.act(w, a, t).outcome == Executed ==> surface(e.act(w, a, t).world) == sys.next(surface(w), a, t))
  }

  /** Only permitted actions are executed. */
  ghost predicate EngineAsks<W(!new), S>(e: R.Engine<W>, sys: Behaviour<S>, surface: W -> S) {
    forall w, a, t :: e.act(w, a, t).outcome == Executed ==> sys.permits(surface(w), a, t)
  }

  lemma SampleOneMore<W, S>(
    ports: Ports<W>, m: Surface<S>, profile: Profile, targets: seq<Target>, w: W, s: S)
    requires targets != [] && targets[0] in profile.bindings && ports.inspect(w, targets[0]).0 == m.view(s, targets[0])
    ensures var rest := R.Collect(ports, profile, targets[1..], ports.inspect(w, targets[0]).1);
      var c := R.Collect(ports, profile, targets, w);
      && (rest.snapshot == Sample(m, targets[1..], s) ==> c.snapshot == Sample(m, targets, s))
      && (c.world == rest.world || (!m.view(s, targets[0]).Readable() && c.world == ports.inspect(w, targets[0]).1))
  {
  }

  lemma {:induction false} CollectSamples<W(!new), S>(
    ports: Ports<W>, m: Surface<S>, surface: W -> S, profile: Profile, targets: seq<Target>, w: W)
    requires Looks(ports, m, surface) && forall t :: t in targets ==> t in profile.bindings
    ensures var c := R.Collect(ports, profile, targets, w);
      c.snapshot == Sample(m, targets, surface(w)) && surface(c.world) == surface(w)
  {
    if targets != [] {
      var w' := ports.inspect(w, targets[0]).1;
      CollectSamples(ports, m, surface, profile, targets[1..], w');
      SampleOneMore(ports, m, profile, targets, w, surface(w));
    }
  }

  lemma {:induction false} CollectGlimpses<W(!new), S>(
    ports: Ports<W>, m: Surface<S>, surface: W -> S, profile: Profile, targets: seq<Target>, w: W)
    requires Looks(ports, m, surface) && forall t :: t in targets ==> t in profile.bindings
    ensures var (snapshot, w') := CollectAll(ports, profile, targets, w);
      snapshot == Glimpses(m, targets, surface(w)) && surface(w') == surface(w)
  {
    if targets != [] {
      var last := |targets| - 1;
      CollectGlimpses(ports, m, surface, profile, targets[..last], w);
      var (before, w1) := CollectAll(ports, profile, targets[..last], w);
      var (inspected, w2) := ports.inspect(w1, targets[last]);
      assert targets[last] in profile.bindings && inspected == m.view(surface(w), targets[last]);
      assert Glimpses(m, targets, surface(w))
          == Glimpses(m, targets[..last], surface(w)) + [Glimpse(targets[last], inspected)];
    }
  }

  /** The stages of a dispatch leave the surface alone, up to the one application. */
  lemma StagesKeepSurface<W(!new), S>(
    ports: Ports<W>, m: Surface<S>, surface: W -> S, w: W, g: nat, a: Action, t: Target, before: Evidence)
    requires Dispatches(ports, m, surface)
    ensures var w1 := ports.inScope(w, a, t).1;
      var w2 := ports.record(w1, before).1;
      var w3 := ports.admit(w2, g).1;
      var (performed, w4) := ports.perform(w3, a, t);
      && ports.inScope(w, a, t).0 == m.scope(surface(w), a, t)
      && surface(w3) == surface(w2) == surface(w1) == surface(w)
      && performed == m.apply(surface(w), a, t).0
      && surface(ports.leave(w4)) == surface(w4) == m.apply(surface(w), a, t).1
      && forall e :: surface(ports.record(ports.leave(w4), e).1) == surface(w4)
  {
  }

  lemma ExecutedApplies<W(!new), S>(
    ports: Ports<W>, m: Surface<S>, surface: W -> S, profile: Profile, g: nat, a: Action, t: Target, w: W)
    requires Dispatches(ports, m, surface)
    ensures var r := Execute(ports, profile, g, a, t, w);
      r.outcome == Executed ==>
        && surface(r.world) == m.apply(surface(w), a, t).1
        && Permits(m, ports.policy)(surface(w), a, t)
  {
    StagesKeepSurface(ports, m, surface, w, g, a, t, PolicyEvidence(a.Kind(), t, ports.policy(a.Kind(), t)));
    ExecutedStages(ports, profile, g, a, t, w);
  }

  /** How an executed call came about, stage by stage. */
  lemma ExecutedStages<W>(ports: Ports<W>, profile: Profile, g: nat, a: Action, t: Target, w: W)
    ensures var r := Execute(ports, profile, g, a, t, w);
      var decision := ports.policy(a.Kind(), t);
      var (scoped, w1) := ports.inScope(w, a, t);
      var (decided, w2) := ports.record(w1, PolicyEvidence(a.Kind(), t, decision));
      var (refusal, w3) := ports.admit(w2, g);
      var (performed, w4) := ports.perform(w3, a, t);
      var (done, w5) := ports.record(ports.leave(w4), ActionEvidence(a.Kind(), t, Executed, GatewayReason.Surface(Applied)));
      && (r.outcome == Executed <==>
            && t in profile.bindings && scoped && decided && decision.effect == Allow && refusal.None?
            && performed == Answer(Applied) && done)
      && (r.outcome == Executed ==> r.world == w5)
  {
    var r := Execute(ports, profile, g, a, t, w);
    var decision := ports.policy(a.Kind(), t);
    var (scoped, w1) := ports.inScope(w, a, t);
    var (decided, w2) := ports.record(w1, PolicyEvidence(a.Kind(), t, decision));
    var (refusal, w3) := ports.admit(w2, g);
    var (performed, w4) := ports.perform(w3, a, t);
    var (outcome, reason) := Judged(performed);
    if t in profile.bindings && scoped && decided && decision.effect == Allow && refusal.None? {
      var events := [PolicyRecorded(decision)] + [Admitted(g), SurfaceCalled(a, t, performed), Left];
      assert r == RecordAfter(ports, a, t, outcome, reason, ports.leave(w4), events);
    } else {
      assert r.outcome != Executed;
    }
  }

  /** An engine acts on the surface as its behaviours tell, however it looks at it. */
  lemma EngineActs<W(!new), S>(
    e: R.Engine<W>, ports: Ports<W>, m: Surface<S>, surface: W -> S, profile: Profile, g: nat, sys: Behaviour<S>)
    requires Dispatches(ports, m, surface) && sys.next == Next(m) && sys.permits == Permits(m, ports.policy)
    requires forall w, a, t :: e.act(w, a, t) == Execute(ports, profile, g, a, t, w)
    requires forall w :: e.look(w).snapshot == sys.sample(surface(w)) && surface(e.look(w).world) == surface(w)
    ensures EngineDrives(e, sys, surface) && EngineAsks(e, sys, surface)
  {
    forall w, a, t
      ensures e.act(w, a, t).outcome == Executed ==>
        surface(e.act(w, a, t).world) == sys.next(surface(w), a, t) && sys.permits(surface(w), a, t)
    {
      ExecutedApplies(ports, m, surface, profile, g, a, t, w);
    }
  }

  lemma EngineOnSurface<W(!new), S>(
    e: R.Engine<W>, ports: Ports<W>, m: Surface<S>, surface: W -> S, profile: Profile, g: nat, targets: seq<Target>)
    requires Drive(ports, m, surface) && forall t :: t in targets ==> t in profile.bindings
    requires forall w :: e.look(w) == R.Collect(ports, profile, targets, w)
    requires forall w, a, t :: e.act(w, a, t) == Execute(ports, profile, g, a, t, w)
    ensures EngineDrives(e, BehaviourOf(m, targets, ports.policy), surface)
  {
    var sys := BehaviourOf(m, targets, ports.policy);
    forall w
      ensures e.look(w).snapshot == sys.sample(surface(w)) && surface(e.look(w).world) == surface(w)
    {
      CollectSamples(ports, m, surface, profile, targets, w);
    }
    EngineActs(e, ports, m, surface, profile, g, sys);
  }

  /** A sample fails exactly on a target that cannot be read, and tells of every other how it looks. */
  lemma {:induction false} SampleTells<S>(m: Surface<S>, targets: seq<Target>, s: S)
    ensures Sample(m, targets, s).Ok? <==> forall t :: t in targets ==> m.view(s, t).Readable()
    ensures Sample(m, targets, s).Err? ==> R.IsUnread(Sample(m, targets, s).error)
    ensures Sample(m, targets, s).Ok? ==> forall t :: t in targets ==>
      && E.FindObservation(t, Sample(m, targets, s).value) == Some(R.ToObservation(t, m.view(s, t)))
      && R.Pictures(R.ToObservation(t, m.view(s, t)), t, m.view(s, t))
  {
    if targets != [] {
      SampleTells(m, targets[1..], s);
      assert targets == [targets[0]] + targets[1..];
      if Sample(m, targets, s).Ok? {
        assert Sample(m, targets, s).value[1..] == Sample(m, targets[1..], s).value;
      }
    }
  }

  lemma {:induction false} GlimpsesTell<S>(m: Surface<S>, targets: seq<Target>, s: S)
    ensures forall t :: t in targets ==>
      E.FindObservation(t, Glimpses(m, targets, s)) == Some(Glimpse(t, m.view(s, t)))
      && R.Pictures(Glimpse(t, m.view(s, t)), t, m.view(s, t))
  {
    if targets != [] {
      GlimpsesTell(m, targets[1..], s);
      assert targets == [targets[0]] + targets[1..];
      assert Glimpses(m, targets, s)[1..] == Glimpses(m, targets[1..], s);
    }
  }

  // ---- The states a discovery goes through --------------------------------------------------------

  function StateAfter<S>(next: (S, Action, Target) -> S, s: S, log: seq<Dispatched>): S {
    if log == [] then s
    else
      var last := log[|log| - 1];
      next(StateAfter(next, s, log[..|log| - 1]), last.action, last.target)
  }

  /** Every action of the log is permitted in the state it comes to. */
  ghost predicate Permitted<S>(sys: Behaviour<S>, s: S, log: seq<Dispatched>) {
    forall j :: 0 <= j < |log| ==> sys.permits(StateAfter(sys.next, s, log[..j]), log[j].action, log[j].target)
  }

  /** The loop stands on the surface that its log leads to. */
  ghost predicate OnTrail<W, S>(sys: Behaviour<S>, surface: W -> S, s: S, w: W, log: seq<Dispatched>) {
    surface(w) == StateAfter(sys.next, s, log) && Permitted(sys, s, log)
  }

  lemma TrailGrows<S>(sys: Behaviour<S>, s: S, log: seq<Dispatched>, d: Dispatched)
    requires Permitted(sys, s, log) && sys.permits(StateAfter(sys.next, s, log), d.action, d.target)
    ensures Permitted(sys, s, log + [d])
    ensures StateAfter(sys.next, s, log + [d]) == sys.next(StateAfter(sys.next, s, log), d.action, d.target)
  {
    var more := log + [d];
    assert more[..|more| - 1] == log && log[..|log|] == log;
    forall j | 0 <= j < |more|
      ensures sys.permits(StateAfter(sys.next, s, more[..j]), more[j].action, more[j].target)
    {
      assert more[..j] == log[..j];
    }
  }

  /** What a turn leaves, for a loop that stood at `log` and saw `last`. */
  ghost predicate TurnStands<W>(t: Turn<W>, world: W, log: seq<Dispatched>, last: Snapshot) {
    if t.GoesOn? then t.next.world == world && t.next.log == log
    else t.run.result.outcome == Discovered ==> t.run.world == world && t.run.log == log && t.run.last == last
  }

  lemma ConcludeStands<W>(x: Explorer<W>, q: Request, turn: nat, claims: seq<Claim>, p: Progress<W>, last: Snapshot)
    ensures TurnStands(Conclude(x, q, turn, claims, p, last), p.world, p.log, last)
  {
  }

  lemma ActMoves<W>(x: Explorer<W>, q: Request, turn: nat, action: Action, target: Target, p: Progress<W>, last: Snapshot)
    ensures var t, g := Act(x, q, turn, action, target, p, last), x.engine.act(p.world, action, target);
      || TurnStands(t, p.world, p.log, last)
      || (g.outcome == Executed && TurnStands(t, g.world, p.log + [Dispatched(action, target, Executed)], last)
          && t.GoesOn?)
  {
  }

  lemma TurnOnTrail<W(!new), S>(
    x: Explorer<W>, q: Request, turn: nat, reply: Reply, p: Progress<W>,
    sys: Behaviour<S>, surface: W -> S, s: S)
    requires turn > 0 && EngineDrives(x.engine, sys, surface) && EngineAsks(x.engine, sys, surface)
    requires OnTrail(sys, surface, s, p.world, p.log)
    ensures TurnKeepsTrail(TakeTurn(x, q, turn, reply, p), sys, surface, s)
  {
    var c := x.engine.look(p.world);
    var p' := p.(world := c.world);
    assert c.snapshot == sys.sample(surface(p.world)) && surface(c.world) == surface(p.world);
    if c.snapshot.Ok? {
      var last := c.snapshot.value;
      match reply
      case Unreadable =>
      case Decided(Complete(claims)) => ConcludeStands(x, q, turn, claims, p', last);
      case Decided(ActOn(action, target)) =>
        ActMoves(x, q, turn, action, target, p', last);
        if x.engine.act(c.world, action, target).outcome == Executed {
          TrailGrows(sys, s, p.log, Dispatched(action, target, Executed));
        }
      case _ =>
    }
  }

  ghost predicate TurnKeepsTrail<W, S>(
    t: Turn<W>, sys: Behaviour<S>, surface: W -> S, s: S)
  {
    if t.GoesOn? then OnTrail(sys, surface, s, t.next.world, t.next.log)
    else t.run.result.outcome == Discovered ==> RunKeepsTrail(t.run, sys, surface, s)
  }

  ghost predicate RunKeepsTrail<W, S>(
    r: Run<W>, sys: Behaviour<S>, surface: W -> S, s: S)
  {
    OnTrail(sys, surface, s, r.world, r.log) && sys.sample(surface(r.world)) == Ok(r.last)
  }

  lemma {:induction false} LoopOnTrail<W(!new), S>(
    x: Explorer<W>, q: Request, replies: nat -> Reply, turn: nat, p: Progress<W>,
    sys: Behaviour<S>, surface: W -> S, s: S)
    requires 0 < turn <= Limit(q) + 1 && EngineDrives(x.engine, sys, surface) && EngineAsks(x.engine, sys, surface)
    requires OnTrail(sys, surface, s, p.world, p.log)
    ensures var r := From(x, q, replies, turn, p);
      r.result.outcome == Discovered ==> RunKeepsTrail(r, sys, surface, s)
    decreases Limit(q) + 1 - turn
  {
    if turn <= Limit(q) {
      TurnOnTrail(x, q, turn, replies(turn), p, sys, surface, s);
      var t := TakeTurn(x, q, turn, replies(turn), p);
      if t.GoesOn? {
        LoopOnTrail(x, q, replies, turn + 1, t.next, sys, surface, s);
      }
    }
  }

  // ---- The compiled run ---------------------------------------------------------------------------

  /** The gateway calls of a replay, in order. */
  function Calls(log: seq<R.Event>): seq<Dispatched> {
    if log == [] then [] else CallOf(log[0]) + Calls(log[1..])
  }

  function CallOf(e: R.Event): seq<Dispatched> {
    if e.Called? then [Dispatched(e.action, e.target, e.outcome)] else []
  }

  lemma {:induction false} CallsOfConcat(a: seq<R.Event>, b: seq<R.Event>)
    ensures Calls(a + b) == Calls(a) + Calls(b)
  {
    if a == [] {
      assert a + b == b;
    } else {
      var rest := a[1..];
      assert (a + b)[0] == a[0] && (a + b)[1..] == rest + b;
      CallsOfConcat(rest, b);
      assert Calls(a + b) == CallOf(a[0]) + (Calls(rest) + Calls(b));
    }
  }

  predicate CallsExecuted(log: seq<R.Event>) {
    forall p :: 0 <= p < |log| && log[p].Called? ==> log[p].outcome == Executed
  }

  /** The run reached the verified completion; reading an output may still have failed. */
  predicate Reached(r: R.ReplayResult) {
    r.Succeeded? || (r.Stopped? && r.reason == R.OutputExtractionFailed)
  }

  /** The definition is a bare script of the log: no metadata, no outcomes, and each step materialises to its action. */
  ghost predicate Script(d: Definition, inputs: E.Inputs, log: seq<Dispatched>) {
    && |d.steps| == |log| && d.outcomes == []
    && forall k :: 0 <= k < |log| ==>
      && Bare(d.steps[k]) && d.steps[k].action.target == log[k].target && log[k].outcome == Executed
      && R.Materialize(d.steps[k].action, inputs) == Some(log[k].action)
  }

  predicate AllHold(d: Definition, inputs: E.Inputs, s: Snapshot) {
    E.AllConditions(d.success, s, inputs).result == E.True
  }

  /** The run ended because a target could not be read. */
  predicate BlockedBy(r: R.ReplayResult, reason: R.Reason) {
    r.Stopped? && r.reason == reason && r.checkpoint == None
  }

  /** Without business outcomes a snapshot ends the run exactly when the success conditions hold on it. */
  lemma WithoutOutcomes(d: Definition, s: Snapshot, inputs: E.Inputs, stepId: string, attempted: nat)
    requires d.outcomes == []
    ensures var r := R.TerminalResult(d, s, inputs, stepId, attempted);
      (r.Some? ==> Reached(r.value)) && (r.Some? <==> AllHold(d, inputs, s))
  {
  }

  /**
   * A bare step looks, acts once and looks again. It stops where a look fails, or where the second is terminal.
   */
  ghost predicate IsBareRun<W>(
    e: R.Engine<W>, d: Definition, inputs: E.Inputs, i: nat, action: Action, w: W, s: R.StepRun<W>)
    requires i < |d.steps|
  {
    var before := e.look(w);
    var stepId := d.steps[i].stepId;
    if before.snapshot.Err? then
      s == R.StepRun(Some(R.Fail(before.snapshot.error, stepId, i + 1)), before.world, [R.Observed(i, None)])
    else
      var g := e.act(before.world, action, d.steps[i].action.target);
      var after := e.look(g.world);
      && |s.log| >= 2 && s.log[1] == R.Called(i, action, d.steps[i].action.target, g.outcome, g.events)
      && (g.outcome == Executed ==>
            && s.world == after.world && |s.log| == 3 && s.log[0].Observed? && s.log[2].Observed?
            && s.stop == if after.snapshot.Err? then Some(R.Fail(after.snapshot.error, stepId, i + 1))
                         else R.TerminalResult(d, after.snapshot.value, inputs, stepId, i + 1))
  }

  lemma BareStep<W>(e: R.Engine<W>, d: Definition, inputs: E.Inputs, i: nat, action: Action, w: W)
    requires i < |d.steps| && Bare(d.steps[i]) && R.Materialize(d.steps[i].action, inputs) == Some(action)
    ensures IsBareRun(e, d, inputs, i, action, w, R.RunStep(e, d, inputs, i, w))
  {
    var g := e.act(e.look(w).world, action, d.steps[i].action.target);
    BareWatch(e, d, inputs, i, g.world);
  }

  lemma BareWatch<W>(e: R.Engine<W>, d: Definition, inputs: E.Inputs, i: nat, w: W)
    requires i < |d.steps| && Bare(d.steps[i])
    ensures var after, s := e.look(w), R.Watch(e, d, inputs, i, 0, w);
      && s.world == after.world && s.log == [R.Observed(i, R.SeenOf(after.snapshot))]
      && s.stop == if after.snapshot.Err? then Some(R.Fail(after.snapshot.error, d.steps[i].stepId, i + 1))
                   else R.TerminalResult(d, after.snapshot.value, inputs, d.steps[i].stepId, i + 1)
  {
    assert R.MaxObservations(d.steps[i]) == 1;
    assert R.Watch(e, d, inputs, i, 1, e.look(w).world) == R.StepRun(None, e.look(w).world, []);
  }

  lemma NextState<S>(next: (S, Action, Target) -> S, s: S, log: seq<Dispatched>, i: nat)
    requires i < |log|
    ensures StateAfter(next, s, log[..i + 1]) == next(StateAfter(next, s, log[..i]), log[i].action, log[i].target)
  {
    assert log[..i + 1][..i] == log[..i];
  }

  /**
   * What step `i` of a script does on the trail, if its call is executed: it stops before the call when the state
   * cannot be read, and after it when the next one cannot, or when the completion holds there.
   */
  ghost predicate OnScript<W, S>(
    d: Definition, inputs: E.Inputs, log: seq<Dispatched>, i: nat, r: R.StepRun<W>,
    sys: Behaviour<S>, surface: W -> S, s: S)
    requires i < |log|
  {
    var here, there := StateAfter(sys.next, s, log[..i]), StateAfter(sys.next, s, log[..i + 1]);
    if sys.sample(here).Err? then
      surface(r.world) == here && Calls(r.log) == [] && r.stop.Some? && BlockedBy(r.stop.value, sys.sample(here).error)
    else
      && surface(r.world) == there && Calls(r.log) == [log[i]]
      && match sys.sample(there)
         case Err(reason) => r.stop.Some? && BlockedBy(r.stop.value, reason)
         case Ok(now) => (r.stop.Some? <==> AllHold(d, inputs, now)) && (r.stop.Some? ==> Reached(r.stop.value))
  }

  lemma ScriptStep<W(!new), S>(
    e: R.Engine<W>, d: Definition, inputs: E.Inputs, log: seq<Dispatched>, i: nat, w: W, r: R.StepRun<W>,
    sys: Behaviour<S>, surface: W -> S, s: S)
    requires EngineDrives(e, sys, surface) && Script(d, inputs, log)
    requires i < |log| && surface(w) == StateAfter(sys.next, s, log[..i])
    requires IsBareRun(e, d, inputs, i, log[i].action, w, r) && CallsExecuted(r.log)
    ensures OnScript(d, inputs, log, i, r, sys, surface, s)
  {
    var step, action := d.steps[i], log[i].action;
    NextState(sys.next, s, log, i);
    var before := e.look(w);
    assert before.snapshot == sys.sample(surface(w)) && surface(before.world) == surface(w);
    if before.snapshot.Err? {
      assert r.log[1..] == [];
    } else {
      var g := e.act(before.world, action, step.action.target);
      assert r.log[1].Called?;
      assert surface(g.world) == sys.next(surface(before.world), action, step.action.target);
      var after := e.look(g.world);
      assert after.snapshot == sys.sample(surface(g.world)) && surface(after.world) == surface(g.world);
      if after.snapshot.Ok? {
        WithoutOutcomes(d, after.snapshot.value, inputs, step.stepId, i + 1);
      }
      CallsOfOne(r.log);
    }
  }

  lemma CallsOfOne(log: seq<R.Event>)
    requires |log| == 3 && log[0].Observed? && log[1].Called? && log[2].Observed?
    ensures Calls(log) == [Dispatched(log[1].action, log[1].target, log[1].outcome)]
  {
    assert log[1..][1..] == [log[2]];
    assert Calls([log[2]]) == [];
  }

  lemma RunStepOnScript<W(!new), S>(
    e: R.Engine<W>, d: Definition, inputs: E.Inputs, log: seq<Dispatched>, i: nat, w: W,
    sys: Behaviour<S>, surface: W -> S, s: S)
    requires EngineDrives(e, sys, surface) && Script(d, inputs, log)
    requires i < |log| && surface(w) == StateAfter(sys.next, s, log[..i])
    requires CallsExecuted(R.RunStep(e, d, inputs, i, w).log)
    ensures OnScript(d, inputs, log, i, R.RunStep(e, d, inputs, i, w), sys, surface, s)
  {
    BareStep(e, d, inputs, i, log[i].action, w);
    ScriptStep(e, d, inputs, log, i, w, R.RunStep(e, d, inputs, i, w), sys, surface, s);
  }

  /** From state `i` the script goes on through state `n`: each before it can be read, and is not yet complete. */
  ghost predicate GoesThrough<S>(
    d: Definition, inputs: E.Inputs, log: seq<Dispatched>, i: nat, n: nat, sys: Behaviour<S>, s: S)
  {
    && i <= n <= |log|
    && (forall k :: i <= k < n ==> sys.sample(StateAfter(sys.next, s, log[..k])).Ok?)
    && (forall k :: i < k < n ==> !AllHold(d, inputs, sys.sample(StateAfter(sys.next, s, log[..k])).value))
  }

  /**
   * How a script ends from step `i` on: at the first state `n` that cannot be read, for that reason, or at the first
   * one after `i` where the completion holds; having dispatched exactly the actions that lead there.
   */
  ghost predicate EndsAt<W, S>(
    d: Definition, inputs: E.Inputs, log: seq<Dispatched>, i: nat, n: nat, r: R.Run<W>,
    sys: Behaviour<S>, surface: W -> S, s: S)
  {
    && GoesThrough(d, inputs, log, i, n, sys, s)
    && Calls(r.log) == log[i..n] && surface(r.world) == StateAfter(sys.next, s, log[..n])
    && match sys.sample(StateAfter(sys.next, s, log[..n]))
       case Err(reason) => BlockedBy(r.result, reason)
       case Ok(now) => i < n && AllHold(d, inputs, now) && Reached(r.result)
  }

  lemma ScriptEnds<W, S>(
    log: seq<Dispatched>, i: nat, r: R.StepRun<W>, d: Definition, inputs: E.Inputs,
    sys: Behaviour<S>, surface: W -> S, s: S) returns (n: nat)
    requires i < |log| && OnScript(d, inputs, log, i, r, sys, surface, s) && r.stop.Some?
    ensures EndsAt(d, inputs, log, i, n, R.Run(r.stop.value, r.world, r.log), sys, surface, s)
  {
    n := if sys.sample(StateAfter(sys.next, s, log[..i])).Err? then i else i + 1;
    assert log[i..i + 1] == [log[i]] && log[i..i] == [];
  }

  lemma ScriptGoesOn<W, S>(
    log: seq<Dispatched>, i: nat, n: nat, first: R.StepRun<W>, rest: R.Run<W>, d: Definition, inputs: E.Inputs,
    sys: Behaviour<S>, surface: W -> S, s: S)
    requires i < |log| && OnScript(d, inputs, log, i, first, sys, surface, s) && first.stop.None?
    requires EndsAt(d, inputs, log, i + 1, n, rest, sys, surface, s)
    ensures EndsAt(d, inputs, log, i, n, R.After(first.log, rest), sys, surface, s)
  {
    ThroughOneMore(log, i, n, d, inputs, sys, s);
    CallsOfConcat(first.log, rest.log);
    assert [log[i]] + log[i + 1..n] == log[i..n];
  }

  lemma ThroughOneMore<S>(
    log: seq<Dispatched>, i: nat, n: nat, d: Definition, inputs: E.Inputs, sys: Behaviour<S>, s: S)
    requires i < |log| && GoesThrough(d, inputs, log, i + 1, n, sys, s)
    requires sys.sample(StateAfter(sys.next, s, log[..i])).Ok?
    requires var there := sys.sample(StateAfter(sys.next, s, log[..i + 1])); there.Ok? && !AllHold(d, inputs, there.value)
    ensures GoesThrough(d, inputs, log, i, n, sys, s)
  {
  }

  /** `run` iterates `step` until one stops. */
  ghost predicate Iterates<W(!new)>(step: (nat, W) -> R.StepRun<W>, run: (nat, W) -> R.Run<W>, n: nat) {
    forall i: nat, w: W {:trigger step(i, w)} :: i < n ==>
      var s := step(i, w);
      run(i, w) == if s.stop.Some? then R.Run(s.stop.value, s.world, s.log) else R.After(s.log, run(i + 1, s.world))
  }

  /** On the trail, an executed step does what the script says. */
  ghost predicate StepsOnScript<W(!new), S>(
    step: (nat, W) -> R.StepRun<W>, d: Definition, inputs: E.Inputs, log: seq<Dispatched>,
    sys: Behaviour<S>, surface: W -> S, s: S)
  {
    forall i: nat, w: W {:trigger step(i, w)} ::
      i < |log| && surface(w) == StateAfter(sys.next, s, log[..i]) && CallsExecuted(step(i, w).log) ==>
        OnScript(d, inputs, log, i, step(i, w), sys, surface, s)
  }

  /** The completion holds at the end of the log, if the state there can be read. */
  ghost predicate Completes<S>(d: Definition, inputs: E.Inputs, log: seq<Dispatched>, sys: Behaviour<S>, s: S) {
    var last := sys.sample(StateAfter(sys.next, s, log));
    last.Ok? ==> AllHold(d, inputs, last.value)
  }

  lemma {:induction false} ScriptInduction<W(!new), S>(
    step: (nat, W) -> R.StepRun<W>, run: (nat, W) -> R.Run<W>, d: Definition, inputs: E.Inputs,
    log: seq<Dispatched>, i: nat, w: W,
    sys: Behaviour<S>, surface: W -> S, s: S) returns (n: nat)
    requires Iterates(step, run, |log|) && StepsOnScript(step, d, inputs, log, sys, surface, s)
    requires i < |log| && surface(w) == StateAfter(sys.next, s, log[..i])
    requires Completes(d, inputs, log, sys, s) && CallsExecuted(run(i, w).log)
    ensures EndsAt(d, inputs, log, i, n, run(i, w), sys, surface, s)
    decreases |log| - i
  {
    var first := step(i, w);
    if first.stop.Some? {
      n := ScriptEnds(log, i, first, d, inputs, sys, surface, s);
    } else {
      var rest := run(i + 1, first.world);
      ExecutedParts(first.log, rest.log);
      assert log[..|log|] == log;
      n := ScriptInduction(step, run, d, inputs, log, i + 1, first.world, sys, surface, s);
      ScriptGoesOn(log, i, n, first, rest, d, inputs, sys, surface, s);
    }
  }

  function StepOf<W>(e: R.Engine<W>, d: Definition, inputs: E.Inputs): (nat, W) -> R.StepRun<W> {
    (i: nat, w: W) => if i < |d.steps| then R.RunStep(e, d, inputs, i, w) else R.StepRun(None, w, [])
  }

  lemma EngineIterates<W(!new)>(e: R.Engine<W>, d: Definition, inputs: E.Inputs)
    ensures Iterates(StepOf(e, d, inputs), R.RunOf(e, d, inputs), |d.steps|)
  {
    forall i: nat, w: W | i < |d.steps|
      ensures var s := StepOf(e, d, inputs)(i, w);
        R.RunOf(e, d, inputs)(i, w) ==
          if s.stop.Some? then R.Run(s.stop.value, s.world, s.log)
          else R.After(s.log, R.RunOf(e, d, inputs)(i + 1, s.world))
    {
      R.RunUnfolds(e, d, inputs, i, w);
    }
  }

  lemma EngineOnScript<W(!new), S>(
    e: R.Engine<W>, d: Definition, inputs: E.Inputs, log: seq<Dispatched>,
    sys: Behaviour<S>, surface: W -> S, s: S)
    requires EngineDrives(e, sys, surface) && Script(d, inputs, log)
    ensures StepsOnScript(StepOf(e, d, inputs), d, inputs, log, sys, surface, s)
  {
    forall i: nat, w: W |
      i < |log| && surface(w) == StateAfter(sys.next, s, log[..i]) && CallsExecuted(StepOf(e, d, inputs)(i, w).log)
      ensures OnScript(d, inputs, log, i, StepOf(e, d, inputs)(i, w), sys, surface, s)
    {
      RunStepOnScript(e, d, inputs, log, i, w, sys, surface, s);
    }
  }

  lemma ScriptRun<W(!new), S>(
    e: R.Engine<W>, d: Definition, inputs: E.Inputs, log: seq<Dispatched>, w: W,
    sys: Behaviour<S>, surface: W -> S, s: S) returns (n: nat)
    requires EngineDrives(e, sys, surface) && Script(d, inputs, log)
    requires log != [] && surface(w) == s && Completes(d, inputs, log, sys, s)
    requires CallsExecuted(R.ExecuteFrom(e, d, inputs, 0, w).log)
    ensures EndsAt(d, inputs, log, 0, n, R.ExecuteFrom(e, d, inputs, 0, w), sys, surface, s)
  {
    EngineIterates(e, d, inputs);
    EngineOnScript(e, d, inputs, log, sys, surface, s);
    assert log[..0] == [];
    n := ScriptInduction(StepOf(e, d, inputs), R.RunOf(e, d, inputs), d, inputs, log, 0, w, sys, surface, s);
  }

  // ---- When nothing refuses --------------------------------------------------------------------------

  /** The evidence store takes every record, and the session admits every dispatch. */
  ghost predicate NeverRefuses<W(!new)>(ports: Ports<W>) {
    (forall w, e :: ports.record(w, e).0) && (forall w, g :: ports.admit(w, g).0.None?)
  }

  lemma PermittedExecutes<W(!new), S>(
    ports: Ports<W>, m: Surface<S>, surface: W -> S, profile: Profile, g: nat, a: Action, t: Target, w: W)
    requires Dispatches(ports, m, surface) && NeverRefuses(ports) && t in profile.bindings
    requires Permits(m, ports.policy)(surface(w), a, t)
    ensures Execute(ports, profile, g, a, t, w).outcome == Executed
  {
    StagesKeepSurface(ports, m, surface, w, g, a, t, PolicyEvidence(a.Kind(), t, ports.policy(a.Kind(), t)));
    ExecutedStages(ports, profile, g, a, t, w);
  }

  /** The engine executes the log, action by action, wherever it stands on the trail. */
  ghost predicate Executes<W(!new), S>(
    e: R.Engine<W>, log: seq<Dispatched>, sys: Behaviour<S>, surface: W -> S, s: S)
  {
    forall j, w: W :: 0 <= j < |log| && surface(w) == StateAfter(sys.next, s, log[..j]) ==>
      e.act(w, log[j].action, log[j].target).outcome == Executed
  }

  lemma StepIsExecuted<W(!new), S>(
    e: R.Engine<W>, d: Definition, inputs: E.Inputs, log: seq<Dispatched>, i: nat, w: W,
    sys: Behaviour<S>, surface: W -> S, s: S)
    requires EngineDrives(e, sys, surface) && Script(d, inputs, log)
    requires i < |log| && surface(w) == StateAfter(sys.next, s, log[..i]) && Executes(e, log, sys, surface, s)
    ensures CallsExecuted(R.RunStep(e, d, inputs, i, w).log)
  {
    var before := e.look(w);
    assert surface(before.world) == surface(w);
    assert e.act(before.world, log[i].action, log[i].target).outcome == Executed;
    BareStep(e, d, inputs, i, log[i].action, w);
    ExecutedStep(e, d, inputs, i, log[i].action, w, R.RunStep(e, d, inputs, i, w));
  }

  lemma ExecutedStep<W>(
    e: R.Engine<W>, d: Definition, inputs: E.Inputs, i: nat, action: Action, w: W, s: R.StepRun<W>)
    requires i < |d.steps| && IsBareRun(e, d, inputs, i, action, w, s)
    requires e.act(e.look(w).world, action, d.steps[i].action.target).outcome == Executed
    ensures CallsExecuted(s.log)
  {
  }

  ghost predicate StepsExecuted<W(!new), S>(
    step: (nat, W) -> R.StepRun<W>, log: seq<Dispatched>, next: (S, Action, Target) -> S, surface: W -> S, s: S)
  {
    forall i: nat, w: W {:trigger step(i, w)} ::
      i < |log| && surface(w) == StateAfter(next, s, log[..i]) ==> CallsExecuted(step(i, w).log)
  }

  lemma {:induction false} ExecutionInduction<W(!new), S>(
    step: (nat, W) -> R.StepRun<W>, run: (nat, W) -> R.Run<W>, d: Definition, inputs: E.Inputs,
    log: seq<Dispatched>, i: nat, w: W, sys: Behaviour<S>, surface: W -> S, s: S)
    requires Iterates(step, run, |log|) && Completes(d, inputs, log, sys, s)
    requires StepsOnScript(step, d, inputs, log, sys, surface, s) && StepsExecuted(step, log, sys.next, surface, s)
    requires i < |log| && surface(w) == StateAfter(sys.next, s, log[..i])
    ensures CallsExecuted(run(i, w).log)
    decreases |log| - i
  {
    var first := step(i, w);
    if first.stop.None? {
      assert log[..|log|] == log;
      ExecutionInduction(step, run, d, inputs, log, i + 1, first.world, sys, surface, s);
      ExecutedTogether(first.log, run(i + 1, first.world).log);
    }
  }

  lemma ExecutedTogether(a: seq<R.Event>, b: seq<R.Event>)
    requires CallsExecuted(a) && CallsExecuted(b)
    ensures CallsExecuted(a + b)
  {
  }

  /** An engine that executes the log replays its script with every call executed. */
  lemma ScriptIsExecuted<W(!new), S>(
    e: R.Engine<W>, d: Definition, inputs: E.Inputs, log: seq<Dispatched>, w: W,
    sys: Behaviour<S>, surface: W -> S, s: S)
    requires EngineDrives(e, sys, surface) && Script(d, inputs, log)
    requires log != [] && surface(w) == s && Completes(d, inputs, log, sys, s)
    requires Executes(e, log, sys, surface, s)
    ensures CallsExecuted(R.ExecuteFrom(e, d, inputs, 0, w).log)
  {
    EngineIterates(e, d, inputs);
    EngineOnScript(e, d, inputs, log, sys, surface, s);
    forall i: nat, w: W | i < |log| && surface(w) == StateAfter(sys.next, s, log[..i])
      ensures CallsExecuted(StepOf(e, d, inputs)(i, w).log)
    {
      StepIsExecuted(e, d, inputs, log, i, w, sys, surface, s);
    }
    assert log[..0] == [];
    ExecutionInduction(StepOf(e, d, inputs), R.RunOf(e, d, inputs), d, inputs, log, 0, w, sys, surface, s);
  }

  lemma ExecutedParts(a: seq<R.Event>, b: seq<R.Event>)
    requires CallsExecuted(a + b)
    ensures CallsExecuted(a) && CallsExecuted(b)
  {
    assert forall p :: 0 <= p < |a| ==> (a + b)[p] == a[p];
    assert forall p :: 0 <= p < |b| ==> (a + b)[|a| + p] == b[p];
  }
}
