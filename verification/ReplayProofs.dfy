/** What every replay, and every chain of suspended and resumed replays, does. */
module ReplayProofs {
  import opened Contracts
  import opened Evaluator
  import opened Meanings
  import opened Gateway
  import opened Validator
  import opened Replay

  // ---- Reading a log ------------------------------------------------------------------

  predicate IsCall(e: Event) { e.Called? }

  predicate IsExecution(e: Event) { e.Called? && e.outcome == Executed }

  /** The call reached the surface, whatever it answered. */
  predicate IsTouch(e: Event) { e.Called? && SurfaceTouched(e.calls) }

  /** The step indices of the chosen events, in order. */
  function Steps(log: seq<Event>, chosen: Event -> bool): seq<nat> {
    if log == [] then [] else StepOf(log[0], chosen) + Steps(log[1..], chosen)
  }

  function StepOf(e: Event, chosen: Event -> bool): seq<nat> { if chosen(e) then [e.step] else [] }

  function Observations(log: seq<Event>, j: nat): nat {
    if log == [] then 0
    else (if log[0].Observed? && log[0].step == j then 1 else 0) + Observations(log[1..], j)
  }

  function Range(lo: nat, n: nat): seq<nat> {
    seq(n, i requires 0 <= i < n => lo + i)
  }

  lemma {:induction false} StepsOfConcat(a: seq<Event>, b: seq<Event>, chosen: Event -> bool)
    ensures Steps(a + b, chosen) == Steps(a, chosen) + Steps(b, chosen)
  {
    if a == [] {
      assert a + b == b;
    } else {
      var rest := a[1..];
      assert (a + b)[0] == a[0] && (a + b)[1..] == rest + b;
      StepsOfConcat(rest, b, chosen);
      assert Steps(a + b, chosen) == StepOf(a[0], chosen) + (Steps(rest, chosen) + Steps(b, chosen));
    }
  }

  lemma {:induction false} ObservationsOfConcat(a: seq<Event>, b: seq<Event>, j: nat)
    ensures Observations(a + b, j) == Observations(a, j) + Observations(b, j)
  {
    if a == [] {
      assert a + b == b;
    } else {
      ObservationsOfConcat(a[1..], b, j);
      assert (a + b)[1..] == a[1..] + b;
    }
  }

  lemma {:induction false} OnlyObservations(log: seq<Event>, i: nat, chosen: Event -> bool)
    requires forall p :: 0 <= p < |log| ==> log[p].Observed? && log[p].step == i
    requires forall e: Event :: e.Observed? ==> !chosen(e)
    ensures Steps(log, chosen) == []
    ensures Observations(log, i) == |log|
    ensures forall j: nat :: j != i ==> Observations(log, j) == 0
  {
    if log != [] {
      OnlyObservations(log[1..], i, chosen);
    }
  }

  // ---- The shape of one step -----------------------------------------------------------

  /** A step is over on `s`: nothing terminal, and nothing left to wait for. */
  predicate Advances(d: Definition, inputs: Inputs, i: nat, s: Snapshot)
    requires i < |d.steps|
  {
    var step := d.steps[i];
    var terminal := EvaluateTerminal(d, s, inputs);
    && (terminal == Undetermined || terminal == Incomplete)
    && (step.postcondition.None?
        || EvaluateCondition(step.postcondition.value, s, inputs).result == True
        || (step.retry.None? && EvaluateCondition(step.postcondition.value, s, inputs).result == Unknown))
  }

  predicate Over(d: Definition, inputs: Inputs, e: Event) {
    e.step < |d.steps| && e.Observed? && e.seen.Some? && Advances(d, inputs, e.step, e.seen.value)
  }

  predicate TruthfulCall(outcome: GatewayOutcome, calls: seq<GatewayEvent>) {
    && (outcome == Executed ==> SurfaceTouched(calls))
    && (outcome == ApprovalRequired ==> !SurfaceTouched(calls))
  }

  ghost predicate Truthful<W(!new)>(e: Engine<W>) {
    forall w: W, action, target :: TruthfulCall(e.act(w, action, target).outcome, e.act(w, action, target).events)
  }

  lemma EngineIsTruthful<W(!new)>(ports: Ports<W>, d: Definition, ctx: Context)
    ensures Truthful(EngineFor(ports, d, ctx))
  {
    forall w: W, action, target
      ensures var r := EngineFor(ports, d, ctx).act(w, action, target); TruthfulCall(r.outcome, r.events)
    {
      ReasonTellsSurfaceCall(ports, ctx.profile, ctx.generation, action, target, w);
      var r := Execute(ports, ctx.profile, ctx.generation, action, target, w);
      assert r.outcome == Executed ==> r.events[2].SurfaceCalled?;
    }
  }

  ghost predicate StepShape<W>(e: Engine<W>, d: Definition, inputs: Inputs, i: nat, s: StepRun<W>)
    requires i < |d.steps|
  {
    && 1 <= |s.log| <= 2 + MaxObservations(d.steps[i])
    && (forall p :: 0 <= p < |s.log| ==> s.log[p].step == i && (s.log[p].Called? <==> p == 1))
    && (|s.log| > 2 ==> s.log[1].outcome == Executed)
    && (|s.log| >= 2 ==> s.log[0].seen.Some? && TruthfulCall(s.log[1].outcome, s.log[1].calls))
    && (s.stop.None? ==> |s.log| > 2 && Over(d, inputs, s.log[|s.log| - 1]))
    && (s.stop.Some? ==> s.stop.value.Suspension() == SuspensionOf(e, d, i, s.log))
  }

  /** The checkpoint a stopped step leaves, told by its log. */
  function SuspensionOf<W>(e: Engine<W>, d: Definition, i: nat, log: seq<Event>): Option<Checkpoint>
    requires i < |d.steps|
  {
    if |log| == 2 && log[1].Called? then CheckpointFor(d, e.generation, i, log[1].outcome) else None
  }

  lemma LookTells(d: Definition, inputs: Inputs, i: nat, s: Snapshot)
    requires i < |d.steps|
    ensures var v := Look(d, inputs, i, s);
      && (v.Finish? ==> v.result.Suspension() == None)
      && (v.PostMet? ==> Advances(d, inputs, i, s))
      && (v.LookAgain? && (d.steps[i].retry.None? || d.steps[i].postcondition.None?) ==> Advances(d, inputs, i, s))
  {
  }

  /** The shape of the observations from an attempt on. */
  ghost predicate WatchFits(d: Definition, inputs: Inputs, i: nat, attempt: nat, stop: Option<ReplayResult>, log: seq<Event>)
    requires i < |d.steps|
  {
    var step := d.steps[i];
    && |log| + attempt <= MaxObservations(step)
    && (attempt < MaxObservations(step) ==> log != [])
    && (forall p :: 0 <= p < |log| ==> log[p].Observed? && log[p].step == i)
    && (stop.None? ==> if log == [] then step.retry.None? || step.postcondition.None? else Over(d, inputs, log[|log| - 1]))
    && (stop.Some? ==> stop.value.Suspension() == None)
  }

  lemma LookFits(d: Definition, inputs: Inputs, i: nat, claim: WatchClaim, attempt: nat, snapshot: Result<Snapshot, Reason>)
    requires i < |d.steps| && attempt < MaxObservations(d.steps[i])
    requires forall k, stop, log :: claim(k, stop, log) == WatchFits(d, inputs, i, k, stop, log)
    ensures LookProves(claim, d, inputs, i, attempt, snapshot)
  {
    if snapshot.Ok? {
      LookTells(d, inputs, i, snapshot.value);
      if Look(d, inputs, i, snapshot.value).LookAgain? {
        forall stop, log | claim(attempt + 1, stop, log)
          ensures claim(attempt, stop, [Observed(i, Some(snapshot.value))] + log)
        {
          LookBefore(d, inputs, i, attempt, snapshot.value, stop, log);
        }
      }
    }
  }

  lemma LookBefore(
    d: Definition, inputs: Inputs, i: nat, attempt: nat, s: Snapshot, stop: Option<ReplayResult>, log: seq<Event>)
    requires i < |d.steps| && attempt < MaxObservations(d.steps[i]) && WatchFits(d, inputs, i, attempt + 1, stop, log)
    requires d.steps[i].retry.None? || d.steps[i].postcondition.None? ==> Advances(d, inputs, i, s)
    ensures WatchFits(d, inputs, i, attempt, stop, [Observed(i, Some(s))] + log)
  {
    var more := [Observed(i, Some(s))] + log;
    assert more[|more| - 1] == if log == [] then Observed(i, Some(s)) else log[|log| - 1];
  }

  lemma WatchShape<W(!new)>(e: Engine<W>, d: Definition, inputs: Inputs, i: nat, w: W)
    requires i < |d.steps|
    ensures var s := Watch(e, d, inputs, i, 0, w); WatchFits(d, inputs, i, 0, s.stop, s.log)
  {
    var claim: WatchClaim := (k: nat, stop: Option<ReplayResult>, log: seq<Event>) => WatchFits(d, inputs, i, k, stop, log);
    forall k: nat, w: W | k < MaxObservations(d.steps[i])
      ensures LookProves(claim, d, inputs, i, k, e.look(w).snapshot)
    {
      LookFits(d, inputs, i, claim, k, e.look(w).snapshot);
    }
    WatchInduction(e, d, inputs, i, claim, 0, w);
  }

  lemma StepHasShape<W(!new)>(e: Engine<W>, d: Definition, inputs: Inputs, i: nat, w: W)
    requires i < |d.steps| && Truthful(e)
    ensures StepShape(e, d, inputs, i, RunStep(e, d, inputs, i, w))
  {
    var before := e.look(w);
    var called := StepOrCall(e, d, inputs, i, w);
    if called {
      var action := Materialize(d.steps[i].action, inputs).value;
      var g := e.act(before.world, action, d.steps[i].action.target);
      assert TruthfulCall(g.outcome, g.events);
      WatchShape(e, d, inputs, i, g.world);
      CallShape(e, d, inputs, i, [Observed(i, SeenOf(before.snapshot))], action, g);
    }
  }

  /** A step either ends without a call and without a checkpoint, or calls the gateway once. */
  lemma StepOrCall<W>(e: Engine<W>, d: Definition, inputs: Inputs, i: nat, w: W) returns (called: bool)
    requires i < |d.steps|
    ensures var s, before, step := RunStep(e, d, inputs, i, w), e.look(w), d.steps[i];
      var seen := [Observed(i, SeenOf(before.snapshot))];
      if called then
        && before.snapshot.Ok? && Materialize(step.action, inputs).Some?
        && var action := Materialize(step.action, inputs).value;
           s == AfterCall(e, d, inputs, i, seen, action, e.act(before.world, action, step.action.target))
      else s.log == seen && s.stop.Some? && s.stop.value.Suspension() == None
  {
    var step, before := d.steps[i], e.look(w);
    called := before.snapshot.Ok? && Materialize(step.action, inputs).Some? &&
      (step.precondition.Some? ==>
         var condition := EvaluateCondition(step.precondition.value, before.snapshot.value, inputs);
         condition.result == True && condition.issue != Some(RuntimeInputMissing));
  }

  /** What a step makes of the gateway's answer. */
  function AfterCall<W>(
    e: Engine<W>, d: Definition, inputs: Inputs, i: nat, seen: seq<Event>, action: Action, g: GatewayRun<W>): StepRun<W>
    requires i < |d.steps|
  {
    var called := seen + [Called(i, action, d.steps[i].action.target, g.outcome, g.events)];
    if g.outcome == Executed then
      var watched := Watch(e, d, inputs, i, 0, g.world);
      StepRun(watched.stop, watched.world, called + watched.log)
    else
      StepRun(
        Some(Stopped(ByGateway(g.reason), Some(d.steps[i].stepId), i + 1, CheckpointFor(d, e.generation, i, g.outcome))),
        g.world, called)
  }

  lemma CallShape<W(!new)>(
    e: Engine<W>, d: Definition, inputs: Inputs, i: nat, seen: seq<Event>, action: Action, g: GatewayRun<W>)
    requires i < |d.steps| && TruthfulCall(g.outcome, g.events)
    requires |seen| == 1 && seen[0].Observed? && seen[0].step == i && seen[0].seen.Some?
    requires var watched := Watch(e, d, inputs, i, 0, g.world); WatchFits(d, inputs, i, 0, watched.stop, watched.log)
    ensures StepShape(e, d, inputs, i, AfterCall(e, d, inputs, i, seen, action, g))
  {
  }

  /** Counting one step's events. */
  lemma StepCounts<W>(e: Engine<W>, d: Definition, inputs: Inputs, i: nat, s: StepRun<W>)
    requires i < |d.steps| && StepShape(e, d, inputs, i, s)
    ensures Steps(s.log, IsCall) == if |s.log| >= 2 then [i] else []
    ensures Steps(s.log, IsExecution) == if |s.log| >= 2 && s.log[1].outcome == Executed then [i] else []
    ensures Steps(s.log, IsTouch) == if |s.log| >= 2 && SurfaceTouched(s.log[1].calls) then [i] else []
    ensures Observations(s.log, i) <= 1 + MaxObservations(d.steps[i])
    ensures forall j: nat :: j != i ==> Observations(s.log, j) == 0
  {
    if |s.log| >= 2 {
      var tail := s.log[2..];
      OnlyObservations(tail, i, IsCall);
      OnlyObservations(tail, i, IsExecution);
      OnlyObservations(tail, i, IsTouch);
      assert s.log[1..][1..] == tail;
      forall j: nat | j != i
        ensures Observations(s.log, j) == 0
      {
        assert Observations(s.log, j) == Observations(s.log[1..], j) == Observations(tail, j);
      }
    } else {
      assert s.log[1..] == [];
    }
  }

  // ---- The shape of one run --------------------------------------------------------------

  /** One event to the next: the same step, or the step after one that is over. */
  predicate Proceeds(d: Definition, inputs: Inputs, a: Event, b: Event) {
    b.step == a.step || (b.step == a.step + 1 && b.Observed? && Over(d, inputs, a))
  }

  ghost predicate Adjacent(next: (Event, Event) -> bool, log: seq<Event>) {
    forall p, q :: 0 <= p < q < |log| && q == p + 1 ==> next(log[p], log[q])
  }

  predicate OnlyLastFails(log: seq<Event>) {
    forall p :: 0 <= p < |log| - 1 && log[p].Called? ==> log[p].outcome == Executed
  }

  ghost predicate ObservesWithin(d: Definition, log: seq<Event>) {
    forall j :: 0 <= j < |d.steps| ==> Observations(log, j) <= 1 + MaxObservations(d.steps[j])
  }

  ghost predicate IntervalLog(d: Definition, next: (Event, Event) -> bool, start: nat, log: seq<Event>) {
    && Steps(log, IsCall) == Range(start, |Steps(log, IsCall)|)
    && (log != [] ==> log[0].step == start && log[0].Observed?)
    && (forall p :: 0 <= p < |log| ==> start <= log[p].step < |d.steps|)
    && Adjacent(next, log) && OnlyLastFails(log) && ObservesWithin(d, log)
  }

  lemma {:induction false} NothingOutside(log: seq<Event>, j: nat)
    requires forall p :: 0 <= p < |log| ==> log[p].step != j
    ensures Observations(log, j) == 0
  {
    if log != [] {
      NothingOutside(log[1..], j);
    }
  }

  lemma JoinObservations(d: Definition, i: nat, a: seq<Event>, b: seq<Event>)
    requires ObservesWithin(d, a) && ObservesWithin(d, b)
    requires forall p :: 0 <= p < |a| ==> a[p].step == i
    requires forall p :: 0 <= p < |b| ==> b[p].step > i
    ensures ObservesWithin(d, a + b)
  {
    forall j | 0 <= j < |d.steps|
      ensures Observations(a + b, j) <= 1 + MaxObservations(d.steps[j])
    {
      ObservationsOfConcat(a, b, j);
      if j == i {
        NothingOutside(b, j);
      } else {
        NothingOutside(a, j);
      }
    }
  }

  lemma JoinAdjacent(next: (Event, Event) -> bool, a: seq<Event>, b: seq<Event>)
    requires Adjacent(next, a) && Adjacent(next, b)
    requires a != [] && b != [] ==> next(a[|a| - 1], b[0])
    ensures Adjacent(next, a + b)
  {
    var log := a + b;
    forall p, q | 0 <= p < q < |log| && q == p + 1
      ensures next(log[p], log[q])
    {
      if q < |a| {
        assert log[p] == a[p] && log[q] == a[q];
      } else if p >= |a| {
        assert log[p] == b[p - |a|] && log[q] == b[q - |a|];
      }
    }
  }

  /** A step that is over, followed by the interval after it. */
  lemma JoinIntervals(d: Definition, next: (Event, Event) -> bool, i: nat, a: seq<Event>, b: seq<Event>)
    requires IntervalLog(d, next, i, a) && IntervalLog(d, next, i + 1, b)
    requires a != [] && a[|a| - 1].Observed? && Steps(a, IsCall) == [i]
    requires b != [] ==> next(a[|a| - 1], b[0])
    requires forall p :: 0 <= p < |a| ==> a[p].step == i
    ensures IntervalLog(d, next, i, a + b)
  {
    CountOn(i, a, b, IsCall);
    JoinObservations(d, i, a, b);
    JoinAdjacent(next, a, b);
    JoinFails(a, b);
    assert forall p :: 0 <= p < |a + b| ==> i <= (a + b)[p].step < |d.steps|;
  }

  /** One step, then an interval: the interval is one longer. */
  lemma CountOn(i: nat, a: seq<Event>, b: seq<Event>, chosen: Event -> bool)
    requires Steps(a, chosen) == [i] && Steps(b, chosen) == Range(i + 1, |Steps(b, chosen)|)
    ensures |Steps(a + b, chosen)| == 1 + |Steps(b, chosen)|
    ensures Steps(a + b, chosen) == Range(i, |Steps(a + b, chosen)|)
  {
    StepsOfConcat(a, b, chosen);
    RangeGrows(i, |Steps(b, chosen)|);
  }

  lemma JoinFails(a: seq<Event>, b: seq<Event>)
    requires OnlyLastFails(a) && OnlyLastFails(b) && a != [] && a[|a| - 1].Observed?
    ensures OnlyLastFails(a + b)
  {
    forall p | 0 <= p < |a + b| - 1 && (a + b)[p].Called?
      ensures (a + b)[p].outcome == Executed
    {
      assert (a + b)[p] == if p < |a| then a[p] else b[p - |a|];
    }
  }

  lemma RangeGrows(i: nat, n: nat)
    ensures [i] + Range(i + 1, n) == Range(i, n + 1)
  {
  }

  /** When two adjacent events may follow each other in a run. */
  ghost predicate Allows(d: Definition, inputs: Inputs, next: (Event, Event) -> bool) {
    && (forall a, b {:trigger Proceeds(d, inputs, a, b)} :: Proceeds(d, inputs, a, b) ==> next(a, b))
    && (forall a: Event, b: Event :: a.step == b.step ==> next(a, b))
  }

  /** What one step adds to an interval. */
  ghost predicate CoversStep<W>(d: Definition, inputs: Inputs, next: (Event, Event) -> bool, i: nat, s: StepRun<W>) {
    && IntervalLog(d, next, i, s.log)
    && (s.stop.None? ==>
          && Steps(s.log, IsCall) == [i] && s.log != [] && Over(d, inputs, s.log[|s.log| - 1])
          && forall p :: 0 <= p < |s.log| ==> s.log[p].step == i)
  }

  lemma StepIsInterval<W(!new)>(
    e: Engine<W>, d: Definition, inputs: Inputs, next: (Event, Event) -> bool, i: nat, w: W)
    requires i < |d.steps| && Truthful(e) && Allows(d, inputs, next)
    ensures CoversStep(d, inputs, next, i, RunStep(e, d, inputs, i, w))
  {
    StepHasShape(e, d, inputs, i, w);
    ShapeIsInterval(e, d, inputs, next, i, RunStep(e, d, inputs, i, w));
  }

  lemma ShapeIsInterval<W>(
    e: Engine<W>, d: Definition, inputs: Inputs, next: (Event, Event) -> bool, i: nat, s: StepRun<W>)
    requires i < |d.steps| && StepShape(e, d, inputs, i, s) && Allows(d, inputs, next)
    ensures CoversStep(d, inputs, next, i, s)
  {
    StepCounts(e, d, inputs, i, s);
    OneStepIsAdjacent(next, i, s.log);
    OneStepObserves(d, i, s.log);
    OneCallIsRange(i, Steps(s.log, IsCall));
    assert OnlyLastFails(s.log);
  }

  lemma OneStepObserves(d: Definition, i: nat, log: seq<Event>)
    requires i < |d.steps| && Observations(log, i) <= 1 + MaxObservations(d.steps[i])
    requires forall j: nat :: j != i ==> Observations(log, j) == 0
    ensures ObservesWithin(d, log)
  {
  }

  lemma OneCallIsRange(i: nat, calls: seq<nat>)
    requires calls == [i] || calls == []
    ensures calls == Range(i, |calls|)
  {
  }

  lemma OneStepIsAdjacent(next: (Event, Event) -> bool, i: nat, log: seq<Event>)
    requires forall p :: 0 <= p < |log| ==> log[p].step == i
    requires forall a: Event, b: Event :: a.step == b.step ==> next(a, b)
    ensures Adjacent(next, log)
  {
  }

  lemma IntervalGoesOn<W>(
    d: Definition, inputs: Inputs, next: (Event, Event) -> bool, i: nat, s: StepRun<W>, rest: seq<Event>)
    requires CoversStep(d, inputs, next, i, s) && s.stop.None? && Allows(d, inputs, next)
    requires IntervalLog(d, next, i + 1, rest)
    ensures IntervalLog(d, next, i, s.log + rest)
  {
    if rest != [] {
      assert Proceeds(d, inputs, s.log[|s.log| - 1], rest[0]);
    }
    JoinIntervals(d, next, i, s.log, rest);
  }

  /**
   * One run calls the gateway for a contiguous interval of steps, once each however often it looks again;
   * only its last event can be a call that was not executed; each step looks at most 1 + attempts times;
   * and a later step starts only from an observation on which the one before it was over.
   */
  lemma RunCoversAnInterval<W(!new)>(e: Engine<W>, d: Definition, inputs: Inputs, start: nat, w: W)
    requires Truthful(e)
    ensures var next := (a, b) => Proceeds(d, inputs, a, b);
      IntervalLog(d, next, start, ExecuteFrom(e, d, inputs, start, w).log)
  {
    var next := (a, b) => Proceeds(d, inputs, a, b);
    var claim: Claim := (i: nat, result: ReplayResult, log: seq<Event>) => IntervalLog(d, next, i, log);
    forall i: nat, w: W | i < |d.steps|
      ensures StepProves(claim, i, RunStep(e, d, inputs, i, w))
    {
      StepIsInterval(e, d, inputs, next, i, w);
      StepProvesInterval(d, inputs, next, claim, i, RunStep(e, d, inputs, i, w));
    }
    forall i: nat
      ensures IntervalLog(d, next, i, [])
    {
      OneCallIsRange(i, Steps([], IsCall));
    }
    RunInduction(e, d, inputs, claim, start, w);
  }

  lemma StepProvesInterval<W>(
    d: Definition, inputs: Inputs, next: (Event, Event) -> bool, claim: Claim, i: nat, s: StepRun<W>)
    requires forall i, result, log :: claim(i, result, log) == IntervalLog(d, next, i, log)
    requires CoversStep(d, inputs, next, i, s) && Allows(d, inputs, next)
    ensures StepProves(claim, i, s)
  {
    if s.stop.None? {
      forall result, log | claim(i + 1, result, log)
        ensures claim(i, result, s.log + log)
      {
        IntervalGoesOn(d, inputs, next, i, s, log);
      }
    }
  }

  // ---- At most once, across handoffs --------------------------------------------------------

  ghost predicate Increasing(xs: seq<nat>) {
    forall i, j :: 0 <= i < j < |xs| ==> xs[i] < xs[j]
  }

  /** What one run from `start` did to the surface, and where it is suspended. */
  ghost predicate SegmentLog(d: Definition, generation: nat, start: nat, log: seq<Event>, c: Option<Checkpoint>) {
    var executed, touched := Steps(log, IsExecution), Steps(log, IsTouch);
    && executed == Range(start, |executed|)
    && touched == Range(start, |touched|)
    && |executed| <= |touched| <= |executed| + 1
    && (c.Some? ==>
          && CheckpointFits(d, c.value) && c.value.suspendedGeneration == generation
          && c.value.blockedIndex == start + |executed| && touched == executed
          && log != [] && Blocked(log[|log| - 1], c.value.blockedIndex))
  }

  /** The gateway asked for approval of step `b`, and nothing reached the surface. */
  predicate Blocked(e: Event, b: nat) {
    e.Called? && e.step == b && e.outcome == ApprovalRequired && !SurfaceTouched(e.calls)
  }

  lemma StepIsSegment<W>(e: Engine<W>, d: Definition, inputs: Inputs, i: nat, s: StepRun<W>)
    requires i < |d.steps| && StepShape(e, d, inputs, i, s)
    ensures s.stop.Some? ==> SegmentLog(d, e.generation, i, s.log, s.stop.value.Suspension())
    ensures s.stop.None? ==> Steps(s.log, IsExecution) == Steps(s.log, IsTouch) == [i]
  {
    StepCounts(e, d, inputs, i, s);
    OneCallIsRange(i, Steps(s.log, IsExecution));
    OneCallIsRange(i, Steps(s.log, IsTouch));
  }

  lemma JoinSegments(d: Definition, generation: nat, i: nat, a: seq<Event>, b: seq<Event>, c: Option<Checkpoint>)
    requires Steps(a, IsExecution) == Steps(a, IsTouch) == [i]
    requires SegmentLog(d, generation, i + 1, b, c)
    ensures SegmentLog(d, generation, i, a + b, c)
  {
    CountOn(i, a, b, IsExecution);
    CountOn(i, a, b, IsTouch);
    if c.Some? {
      assert (a + b)[|a + b| - 1] == b[|b| - 1];
    }
  }

  /** A suspension leaves the blocked step untouched, after executing every step from `start` up to it. */
  lemma SuspensionIsClean<W(!new)>(e: Engine<W>, d: Definition, inputs: Inputs, start: nat, w: W)
    requires Truthful(e)
    ensures var r := ExecuteFrom(e, d, inputs, start, w);
      SegmentLog(d, e.generation, start, r.log, r.result.Suspension())
  {
    var claim: Claim := (i: nat, result: ReplayResult, log: seq<Event>) => SegmentLog(d, e.generation, i, log, result.Suspension());
    forall i: nat, w: W | i < |d.steps|
      ensures StepProves(claim, i, RunStep(e, d, inputs, i, w))
    {
      StepHasShape(e, d, inputs, i, w);
      StepProvesSegment(e, d, inputs, claim, i, RunStep(e, d, inputs, i, w));
    }
    forall i: nat
      ensures SegmentLog(d, e.generation, i, [], None)
    {
      OneCallIsRange(i, Steps([], IsExecution));
    }
    RunInduction(e, d, inputs, claim, start, w);
  }

  lemma StepProvesSegment<W>(e: Engine<W>, d: Definition, inputs: Inputs, claim: Claim, i: nat, s: StepRun<W>)
    requires i < |d.steps| && StepShape(e, d, inputs, i, s)
    requires forall i, result: ReplayResult, log ::
      claim(i, result, log) == SegmentLog(d, e.generation, i, log, result.Suspension())
    ensures StepProves(claim, i, s)
  {
    StepIsSegment(e, d, inputs, i, s);
    if s.stop.None? {
      forall result, log | claim(i + 1, result, log)
        ensures claim(i, result, s.log + log)
      {
        JoinSegments(d, e.generation, i, s.log, log, result.Suspension());
      }
    }
  }

  /** What meets the chain at one resumption: any context, and any world the operator left. */
  datatype Handoff<W> = Handoff(ctx: Context, world: W)

  /** The log of the resumptions that follow a suspension, one per result that suspends again. */
  function Resumptions<W>(
    resume: (Checkpoint, Handoff<W>) -> Run<W>, c: Option<Checkpoint>, handoffs: seq<Handoff<W>>): seq<Event>
    decreases |handoffs|
  {
    if c.None? || handoffs == [] then []
    else
      var r := resume(c.value, handoffs[0]);
      r.log + Resumptions(resume, r.result.Suspension(), handoffs[1..])
  }

  function Chain<W>(
    ports: Ports<W>, d: Definition, inputs: Inputs, ctx: Context, w: W, handoffs: seq<Handoff<W>>): seq<Event>
  {
    var r := Start(ports, d, inputs, ctx, w);
    r.log + Resumptions(
      (c, h: Handoff<W>) => Resume(ports, d, c, inputs, h.ctx, h.world), r.result.Suspension(), handoffs)
  }

  /** Step `k` was blocked for approval, and the next snapshot proved its postcondition. */
  ghost predicate ProvedDone(proved: Proof, log: seq<Event>, k: nat) {
    exists p, q :: 0 <= p < q < |log| && q == p + 1 && proved(log[p], log[q], k)
  }

  /** When two adjacent events prove a step done. */
  type Proof = (Event, Event, nat) -> bool

  predicate ProvedDoneAt(d: Definition, inputs: Inputs, a: Event, b: Event, k: nat) {
    && k < |d.steps| && d.steps[k].postcondition.Some?
    && Blocked(a, k)
    && b.Observed? && b.step == k && b.seen.Some?
    && EvaluateCondition(d.steps[k].postcondition.value, b.seen.value, inputs).result == True
  }

  /** Every step below `n` was executed or proved done. */
  ghost predicate Accounted(proved: Proof, log: seq<Event>, n: nat) {
    forall k :: 0 <= k < n ==> k in Steps(log, IsExecution) || ProvedDone(proved, log, k)
  }

  /** What the log of a chain keeps, as far as it has got. */
  ghost predicate ChainKeeps(proved: Proof, log: seq<Event>) {
    && Increasing(Steps(log, IsTouch))
    && (forall k :: k in Steps(log, IsExecution) ==> k in Steps(log, IsTouch))
    && (forall k :: k in Steps(log, IsTouch) ==> Accounted(proved, log, k))
  }

  /** A log that ends blocked at `c`, with everything before it accounted for. */
  ghost predicate BlockedAt(d: Definition, proved: Proof, log: seq<Event>, c: Checkpoint) {
    && ChainKeeps(proved, log)
    && CheckpointFits(d, c) && Accounted(proved, log, c.blockedIndex)
    && (forall k :: k in Steps(log, IsTouch) ==> k < c.blockedIndex)
    && log != [] && Blocked(log[|log| - 1], c.blockedIndex)
  }

  lemma AccountedGrows(proved: Proof, a: seq<Event>, b: seq<Event>, n: nat)
    requires Accounted(proved, a, n)
    ensures Accounted(proved, a + b, n)
  {
    StepsOfConcat(a, b, IsExecution);
    forall k | 0 <= k < n && ProvedDone(proved, a, k)
      ensures ProvedDone(proved, a + b, k)
    {
      var p, q :| 0 <= p < q < |a| && q == p + 1 && proved(a[p], a[q], k);
      assert (a + b)[p] == a[p] && (a + b)[q] == a[q];
    }
  }

  /** A segment that starts where everything before is accounted for keeps the account. */
  lemma SegmentExtendsChain(
    d: Definition, proved: Proof, generation: nat, start: nat, past: seq<Event>, log: seq<Event>, c: Option<Checkpoint>)
    requires ChainKeeps(proved, past) && Accounted(proved, past, start)
    requires forall k :: k in Steps(past, IsTouch) ==> k < start
    requires SegmentLog(d, generation, start, log, c)
    ensures ChainKeeps(proved, past + log)
    ensures c.Some? ==> BlockedAt(d, proved, past + log, c.value)
  {
    var executed, touched := Steps(log, IsExecution), Steps(log, IsTouch);
    StepsOfConcat(past, log, IsExecution);
    StepsOfConcat(past, log, IsTouch);
    RangeHolds(start, |executed|);
    RangeHolds(start, |touched|);
    IncreasingOn(Steps(past, IsTouch), start, |touched|);
    AccountedGrows(proved, past, log, start);
    assert Accounted(proved, past + log, start + |executed|);
    forall k | k in Steps(past, IsTouch)
      ensures Accounted(proved, past + log, k)
    {
      AccountedGrows(proved, past, log, k);
    }
    if c.Some? {
      assert (past + log)[|past + log| - 1] == log[|log| - 1];
    }
  }

  lemma IncreasingOn(before: seq<nat>, start: nat, n: nat)
    requires Increasing(before) && forall k :: k in before ==> k < start
    ensures Increasing(before + Range(start, n))
  {
    assert forall i :: 0 <= i < |before| ==> before[i] in before;
  }

  lemma RangeHolds(lo: nat, n: nat)
    ensures forall k :: k in Range(lo, n) <==> lo <= k < lo + n
  {
    forall k | lo <= k < lo + n
      ensures k in Range(lo, n)
    {
      assert Range(lo, n)[k - lo] == k;
    }
  }

  lemma RunExtendsChain<W(!new)>(
    e: Engine<W>, d: Definition, inputs: Inputs, proved: Proof, start: nat, w: W, past: seq<Event>)
    requires Truthful(e) && ChainKeeps(proved, past) && Accounted(proved, past, start)
    requires forall k :: k in Steps(past, IsTouch) ==> k < start
    ensures ChainExtends(d, proved, past, ExecuteFrom(e, d, inputs, start, w))
  {
    SuspensionIsClean(e, d, inputs, start, w);
    var r := ExecuteFrom(e, d, inputs, start, w);
    SegmentExtendsChain(d, proved, e.generation, start, past, r.log, r.result.Suspension());
  }

  ghost predicate ChainExtends<W>(d: Definition, proved: Proof, past: seq<Event>, r: Run<W>) {
    && ChainKeeps(proved, past + r.log)
    && (r.result.Suspension().Some? ==> BlockedAt(d, proved, past + r.log, r.result.Suspension().value))
  }

  /** A fresh snapshot behind the blocked call; from it the run starts at that step, or after it when proved done. */
  lemma FreshSnapshotExtendsChain(
    d: Definition, proved: Proof, c: Checkpoint, past: seq<Event>, seen: Event, index: nat)
    requires BlockedAt(d, proved, past, c) && seen.Observed?
    requires index == c.blockedIndex
          || (index == c.blockedIndex + 1 && proved(past[|past| - 1], seen, c.blockedIndex))
    ensures ChainKeeps(proved, past + [seen])
    ensures Steps(past + [seen], IsTouch) == Steps(past, IsTouch)
    ensures Accounted(proved, past + [seen], index)
  {
    var log := past + [seen];
    ObservationKeepsChain(proved, past, seen);
    AccountedGrows(proved, past, [seen], c.blockedIndex);
    if index > c.blockedIndex {
      assert proved(log[|past| - 1], log[|past|], c.blockedIndex);
      assert ProvedDone(proved, log, c.blockedIndex);
      forall k | 0 <= k < index
        ensures k in Steps(log, IsExecution) || ProvedDone(proved, log, k)
      {
        assert k < c.blockedIndex || k == c.blockedIndex;
      }
    }
  }

  lemma PositionTells(d: Definition, c: Checkpoint, s: Snapshot, inputs: Inputs)
    requires CheckpointFits(d, c)
    ensures var p := ResumePosition(d, c, s, inputs);
      && (p.Ended? ==> p.result.Suspension() == None)
      && (p.StartAt? && p.index != c.blockedIndex ==> p.index == c.blockedIndex + 1)
      && (p == StartAt(c.blockedIndex + 1) ==> forall a :: Blocked(a, c.blockedIndex) ==>
            ProvedDoneAt(d, inputs, a, Observed(c.blockedIndex, Some(s)), c.blockedIndex))
  {
  }

  /** A resumption either ends on the fresh snapshot, or runs on from where that snapshot says. */
  lemma ResumeAtTells<W>(e: Engine<W>, d: Definition, inputs: Inputs, c: Checkpoint, w: W)
    requires CheckpointFits(d, c)
    ensures var r, current := ResumeAt(e, d, c, inputs, w), e.look(w);
      var seen := Observed(c.blockedIndex, SeenOf(current.snapshot));
      if current.snapshot.Ok? && ResumePosition(d, c, current.snapshot.value, inputs).StartAt? then
        r == After([seen], ExecuteFrom(e, d, inputs, ResumePosition(d, c, current.snapshot.value, inputs).index, current.world))
      else r.log == [seen] && r.result.Suspension() == None
  {
    var current := e.look(w);
    if current.snapshot.Ok? {
      PositionTells(d, c, current.snapshot.value, inputs);
    }
  }

  lemma EndExtendsChain<W>(
    d: Definition, proved: Proof, c: Checkpoint, past: seq<Event>, seen: Event, r: Run<W>)
    requires BlockedAt(d, proved, past, c) && seen.Observed? && r.log == [seen] && r.result.Suspension() == None
    ensures ChainExtends(d, proved, past, r)
  {
    ObservationKeepsChain(proved, past, seen);
  }

  lemma ResumeAtExtendsChain<W(!new)>(
    e: Engine<W>, d: Definition, inputs: Inputs, proved: Proof, c: Checkpoint, w: W, past: seq<Event>)
    requires Truthful(e) && BlockedAt(d, proved, past, c)
    requires forall a, b, k :: ProvedDoneAt(d, inputs, a, b, k) ==> proved(a, b, k)
    ensures ChainExtends(d, proved, past, ResumeAt(e, d, c, inputs, w))
  {
    var current := e.look(w);
    var seen := Observed(c.blockedIndex, SeenOf(current.snapshot));
    ResumeAtTells(e, d, inputs, c, w);
    if current.snapshot.Ok? && ResumePosition(d, c, current.snapshot.value, inputs).StartAt? {
      PositionTells(d, c, current.snapshot.value, inputs);
      var position := ResumePosition(d, c, current.snapshot.value, inputs);
      StartExtendsChain(e, d, inputs, proved, c, past, seen, position.index, current.world);
    } else {
      EndExtendsChain(d, proved, c, past, seen, ResumeAt(e, d, c, inputs, w));
    }
  }

  lemma StartExtendsChain<W(!new)>(
    e: Engine<W>, d: Definition, inputs: Inputs, proved: Proof, c: Checkpoint, past: seq<Event>, seen: Event,
    index: nat, w: W)
    requires Truthful(e) && BlockedAt(d, proved, past, c) && seen.Observed?
    requires index == c.blockedIndex
          || (index == c.blockedIndex + 1 && proved(past[|past| - 1], seen, c.blockedIndex))
    ensures ChainExtends(d, proved, past, After([seen], ExecuteFrom(e, d, inputs, index, w)))
  {
    FreshSnapshotExtendsChain(d, proved, c, past, seen, index);
    RunExtendsChain(e, d, inputs, proved, index, w, past + [seen]);
    ExtendsBehind(d, proved, past, seen, ExecuteFrom(e, d, inputs, index, w));
  }

  lemma ExtendsBehind<W>(d: Definition, proved: Proof, past: seq<Event>, seen: Event, run: Run<W>)
    requires ChainExtends(d, proved, past + [seen], run)
    ensures ChainExtends(d, proved, past, After([seen], run))
  {
    assert past + ([seen] + run.log) == (past + [seen]) + run.log;
  }

  lemma ResumeExtendsChain<W(!new)>(
    ports: Ports<W>, d: Definition, inputs: Inputs, proved: Proof, c: Checkpoint, h: Handoff<W>, past: seq<Event>)
    requires BlockedAt(d, proved, past, c)
    requires forall a, b, k :: ProvedDoneAt(d, inputs, a, b, k) ==> proved(a, b, k)
    ensures ChainExtends(d, proved, past, Resume(ports, d, c, inputs, h.ctx, h.world))
  {
    var r := Resume(ports, d, c, inputs, h.ctx, h.world);
    if !RefusedAtOnce(r) {
      ResumeLooks(ports, d, c, inputs, h.ctx, h.world);
      EngineIsTruthful(ports, d, h.ctx);
      ResumeAtExtendsChain(EngineFor(ports, d, h.ctx), d, inputs, proved, c, h.world, past);
    } else {
      RefusalExtendsChain(d, proved, past, r);
    }
  }

  predicate RefusedAtOnce<W>(r: Run<W>) { r.log == [] && r.result.Suspension() == None }

  lemma ResumeLooks<W>(ports: Ports<W>, d: Definition, c: Checkpoint, inputs: Inputs, ctx: Context, w: W)
    ensures var r := Resume(ports, d, c, inputs, ctx, w);
      RefusedAtOnce(r) || (CheckpointFits(d, c) && r == ResumeAt(EngineFor(ports, d, ctx), d, c, inputs, w))
  {
  }

  lemma RefusalExtendsChain<W>(d: Definition, proved: Proof, past: seq<Event>, r: Run<W>)
    requires ChainKeeps(proved, past) && RefusedAtOnce(r)
    ensures ChainExtends(d, proved, past, r)
  {
    assert past + r.log == past;
  }

  lemma ObservationKeepsChain(proved: Proof, past: seq<Event>, e: Event)
    requires ChainKeeps(proved, past) && e.Observed?
    ensures ChainKeeps(proved, past + [e])
    ensures Steps(past + [e], IsTouch) == Steps(past, IsTouch)
  {
    OnlyObservations([e], e.step, IsTouch);
    OnlyObservations([e], e.step, IsExecution);
    StepsOfConcat(past, [e], IsTouch);
    StepsOfConcat(past, [e], IsExecution);
    forall k | k in Steps(past, IsTouch)
      ensures Accounted(proved, past + [e], k)
    {
      AccountedGrows(proved, past, [e], k);
    }
  }

  /** Whatever is resumed, the chain's account is kept. */
  ghost predicate KeepsChain<W(!new)>(
    resume: (Checkpoint, Handoff<W>) -> Run<W>, d: Definition, proved: Proof)
  {
    forall past, c, h: Handoff<W> :: BlockedAt(d, proved, past, c) ==> ChainExtends(d, proved, past, resume(c, h))
  }

  lemma {:induction false} ResumptionsKeepChain<W(!new)>(
    resume: (Checkpoint, Handoff<W>) -> Run<W>, d: Definition, proved: Proof,
    c: Option<Checkpoint>, handoffs: seq<Handoff<W>>, past: seq<Event>)
    requires KeepsChain(resume, d, proved)
    requires ChainKeeps(proved, past) && (c.Some? ==> BlockedAt(d, proved, past, c.value))
    ensures ChainKeeps(proved, past + Resumptions(resume, c, handoffs))
    decreases |handoffs|
  {
    if c.None? || handoffs == [] {
      assert past + [] == past;
    } else {
      var r := resume(c.value, handoffs[0]);
      assert ChainExtends(d, proved, past, r);
      ResumptionsKeepChain(resume, d, proved, r.result.Suspension(), handoffs[1..], past + r.log);
      var later := Resumptions(resume, r.result.Suspension(), handoffs[1..]);
      assert past + (r.log + later) == (past + r.log) + later;
    }
  }

  /**
   * Over any chain of a replay and its resumptions, whatever the gateway answers and the operators change,
   * the steps whose action reached the surface are strictly increasing, so none is repeated, not even one
   * of uncertain effect; and a step passed over had been blocked before its dispatch and then proved done.
   */
  lemma ChainIsAtMostOnce<W(!new)>(
    ports: Ports<W>, d: Definition, inputs: Inputs, ctx: Context, w: W, handoffs: seq<Handoff<W>>)
    ensures var log := Chain(ports, d, inputs, ctx, w, handoffs);
      var proved := (a, b, k: nat) => ProvedDoneAt(d, inputs, a, b, k);
      && Increasing(Steps(log, IsTouch))
      && (forall k :: k in Steps(log, IsExecution) ==> k in Steps(log, IsTouch))
      && (forall j, k :: j in Steps(log, IsTouch) && 0 <= k < j ==>
            k in Steps(log, IsExecution) || ProvedDone(proved, log, k))
  {
    var proved := (a, b, k: nat) => ProvedDoneAt(d, inputs, a, b, k);
    var resume := (c, h: Handoff<W>) => Resume(ports, d, c, inputs, h.ctx, h.world);
    forall past, c, h: Handoff<W> | BlockedAt(d, proved, past, c)
      ensures ChainExtends(d, proved, past, resume(c, h))
    {
      ResumeExtendsChain(ports, d, inputs, proved, c, h, past);
    }
    StartKeepsChain(ports, d, inputs, proved, ctx, w);
    var r := Start(ports, d, inputs, ctx, w);
    assert [] + r.log == r.log;
    ResumptionsKeepChain(resume, d, proved, r.result.Suspension(), handoffs, r.log);
    var log := Chain(ports, d, inputs, ctx, w, handoffs);
    assert ChainKeeps(proved, log);
    forall j, k | j in Steps(log, IsTouch) && 0 <= k < j
      ensures k in Steps(log, IsExecution) || ProvedDone(proved, log, k)
    {
      assert Accounted(proved, log, j);
    }
  }

  lemma StartKeepsChain<W(!new)>(ports: Ports<W>, d: Definition, inputs: Inputs, proved: Proof, ctx: Context, w: W)
    ensures ChainExtends(d, proved, [], Start(ports, d, inputs, ctx, w))
  {
    var r := Start(ports, d, inputs, ctx, w);
    StartLooks(ports, d, inputs, ctx, w);
    if RefusedAtOnce(r) {
      RefusalExtendsChain(d, proved, [], r);
    } else {
      EngineIsTruthful(ports, d, ctx);
      RunExtendsChain(EngineFor(ports, d, ctx), d, inputs, proved, 0, w, []);
    }
  }

  lemma StartLooks<W>(ports: Ports<W>, d: Definition, inputs: Inputs, ctx: Context, w: W)
    ensures var r := Start(ports, d, inputs, ctx, w);
      RefusedAtOnce(r) || r == ExecuteFrom(EngineFor(ports, d, ctx), d, inputs, 0, w)
  {
  }
}
