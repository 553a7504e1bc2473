/**
 * What is validated is what is resumed: with one live continuation, and its replay the only automation, the
 * surface that the engine resumes from is the surface it validated, which is the one the operator handed back.
 */
module Freshness {
  import opened Contracts
  import opened SessionControl
  import opened Runs
  import D = Dispatch
  import opened Registry
  import opened Handoff
  import opened Evaluator
  import G = Gateway
  import R = Replay
  import ReplaySoundness

  // ---- The two conditions on a run ----------------------------------------------------------

  /** A continuation is live while it is pending, and while a call works on it. */
  ghost predicate Live<S>(s: State<S>, r: Ref) {
    || (exists id :: Holds(s.registry, id, r))
    || (exists t :: t in s.calls && Working(s.calls[t]) && s.calls[t].ref == r)
  }

  predicate Working<S>(c: Call<S>) { 2 <= Rank(c.stage) <= 9 }

  ghost predicate OneLive<S>(s: State<S>) {
    forall r, q :: Live(s, r) && Live(s, q) ==> r == q
  }

  /** After the first handoff, automation dispatches only from a resumed run that is still going on. */
  ghost predicate ChainOnly<S>(s: State<S>, step: Move<S>) {
    step.Surface? && step.step.Check? && step.step.task in s.d.tasks ==>
      var task := s.d.tasks[step.step.task];
      task.Holding? && task.client.AutomationClient? && task.expected > 0 ==>
        exists t :: At(s, t, Running) && s.calls[t].generation == task.expected
  }

  // ---- The surface stands still --------------------------------------------------------------

  /** Nothing is in effect, nothing was admitted since control was returned, and the surface is as it was then. */
  ghost predicate Frozen<S>(d: D.State<S>) {
    D.Quiet(d) && d.surface == d.handback && |d.log| == d.settled
  }

  predicate AllAre<S(==)>(s: seq<S>, x: S) {
    forall k :: 0 <= k < |s| ==> s[k] == x
  }

  /** Where the session can be while no operator has control again after automation got generation `g`. */
  predicate NotYetHandedOn(s: SessionState, g: nat) {
    || (s.control == AutomationControlled && s.generation == g)
    || (s.control == PauseRequested && s.generation == g + 1)
    || (s.control == Terminal && s.generation == g + 1)
  }

  ghost predicate Fresh<S>(d: D.State<S>, c: Call<S>) {
    && (Rank(c.stage) <= 3 ==> c.looked == [])
    && (Rank(c.stage) <= 7 ==> c.again == [])
    && (3 <= Rank(c.stage) <= 5 && d.session.control != Terminal ==>
          && d.session.control == ResumeRequested && d.session.generation == c.seen
          && AllAre(c.looked, d.handback))
    && (6 <= Rank(c.stage) <= 8 ==> c.generation == c.seen + 1)
    && (6 <= Rank(c.stage) <= 8 && d.session.generation <= c.generation + 1 ==>
          && NotYetHandedOn(d.session, c.generation) && Frozen(d)
          && AllAre(c.looked, d.handback) && AllAre(c.again, d.handback))
  }

  ghost predicate AllFresh<S>(s: State<S>) {
    forall t :: t in s.calls ==> Fresh(s.d, s.calls[t])
  }

  ghost predicate OneWorks<S>(s: State<S>) {
    forall t, u :: t in s.calls && u in s.calls && Working(s.calls[t]) && Working(s.calls[u]) ==> t == u
  }

  lemma OneLiveMeansOneWorks<S>(s: State<S>)
    requires OneLive(s) && LocksKept(s)
    ensures OneWorks(s)
  {
    forall t, u | t in s.calls && u in s.calls && Working(s.calls[t]) && Working(s.calls[u])
      ensures t == u
    {
      assert Live(s, s.calls[t].ref) && Live(s, s.calls[u].ref);
    }
  }

  lemma ResumeRequestedIsFrozen<S>(d: D.State<S>)
    requires D.Inv(d) && d.session.control == ResumeRequested
    ensures Frozen(d)
  {
  }

  /** A frozen surface stays frozen until a dispatch is admitted or an operator takes control. */
  lemma FrozenStep<S>(d: D.State<S>, step: D.Step<S>, e: D.State<S>)
    requires D.Inv(d) && Frozen(d) && D.Apply(d, step) == Some(e)
    requires d.session.control != OperatorControlled && |e.log| == |d.log|
    ensures Frozen(e) && e.handback == d.handback
  {
  }

  /** Nothing is admitted while the session waits for its resume check, is paused, or is stopped. */
  lemma NothingIsAdmitted<S>(d: D.State<S>, step: D.Step<S>, e: D.State<S>)
    requires D.Inv(d) && D.Apply(d, step) == Some(e) && d.session.control != OperatorControlled
    requires d.session.control == AutomationControlled && step.Check? && step.task in d.tasks
      && d.tasks[step.task].Holding? && d.tasks[step.task].client.AutomationClient?
      ==> d.tasks[step.task].expected != d.session.generation
    ensures e.log == d.log
  {
  }

  // ---- One step ---------------------------------------------------------------------------------

  /** What a change of the session must respect for a call that stands still to stay fresh. */
  ghost predicate Harmless<S>(d: D.State<S>, e: D.State<S>, c: Call<S>) {
    && (3 <= Rank(c.stage) <= 5 && e.session.control != Terminal ==> e.session == d.session && e.handback == d.handback)
    && (6 <= Rank(c.stage) <= 8 && e.session.generation <= c.generation + 1 ==>
          && d.session.generation <= c.generation + 1 && NotYetHandedOn(e.session, c.generation)
          && Frozen(e) && e.handback == d.handback)
  }

  lemma StillFresh<S>(d: D.State<S>, e: D.State<S>, c: Call<S>)
    requires Fresh(d, c) && (d.session.control == Terminal ==> e.session.control == Terminal)
    requires Harmless(d, e, c)
    ensures Fresh(e, c)
  {
  }

  /** The surface steps that the two conditions allow are harmless to the one working call. */
  lemma SurfaceIsHarmless<S>(s: State<S>, inner: D.Step<S>, e: D.State<S>, task: TaskId)
    requires D.Inv(s.d) && OneWorks(s) && AllFresh(s) && ChainOnly(s, Surface(inner))
    requires D.Apply(s.d, inner) == Some(e) && !inner.Resume? && task in s.calls
    ensures Harmless(s.d, e, s.calls[task])
  {
    var c := s.calls[task];
    D.StepKeepsInv(s.d, inner, e);
    if 6 <= Rank(c.stage) <= 8 && e.session.generation <= c.generation + 1 {
      assert s.d.session.generation <= c.generation + 1;
      if s.d.session.control == AutomationControlled && inner.Check? && inner.task in s.d.tasks
        && s.d.tasks[inner.task].Holding? && s.d.tasks[inner.task].client.AutomationClient?
        && s.d.tasks[inner.task].expected == s.d.session.generation {
        assert false;
      }
      NothingIsAdmitted(s.d, inner, e);
      FrozenStep(s.d, inner, e);
      SessionAfter(s.d, inner, e, c.generation);
    } else if 3 <= Rank(c.stage) <= 5 {
      WaitsForResume(s.d, inner, e);
    }
  }

  lemma SessionAfter<S>(d: D.State<S>, step: D.Step<S>, e: D.State<S>, g: nat)
    requires D.Apply(d, step) == Some(e) && !step.Resume? && NotYetHandedOn(d.session, g) && e.session.generation <= g + 1
    ensures NotYetHandedOn(e.session, g)
  {
  }

  lemma WaitsForResume<S>(d: D.State<S>, step: D.Step<S>, e: D.State<S>)
    requires D.Apply(d, step) == Some(e) && !step.Resume?
    ensures d.session.control == ResumeRequested && e.session.control != Terminal ==>
      e.session == d.session && e.handback == d.handback
    ensures d.session.control == Terminal ==> e.session.control == Terminal
  {
  }

  lemma RequestIsHarmless<S>(s: State<S>, step: Move<S>, c: Call<S>)
    requires D.Inv(s.d) && step.Request? && Managed(s, step).Some? && Fresh(s.d, c)
    ensures Fresh(Managed(s, step).value.d, c)
  {
    var e := Managed(s, step).value.d;
    if e != s.d {
      assert D.Apply(s.d, D.Pause) == Some(e);
      if 6 <= Rank(c.stage) <= 8 && e.session.generation <= c.generation + 1 {
        FrozenStep(s.d, D.Pause, e);
      }
      StillFresh(s.d, e, c);
    }
  }

  /** The call that moves stays fresh. */
  lemma MovedIsFresh<S>(s: State<S>, c: Call<S>, free: bool, progress: Progress)
    requires Advanced(s, c, free, progress).Some? && Fresh(s.d, c) && D.Inv(s.d)
    ensures var change := Advanced(s, c, free, progress).value;
      Fresh(s.d.(session := change.session), change.call)
  {
    if s.d.session.control == ResumeRequested {
      ResumeRequestedIsFrozen(s.d);
    }
  }

  /** Only a working call changes the session. */
  lemma OnlyWorkingCallsResume<S>(s: State<S>, c: Call<S>, free: bool, progress: Progress)
    requires Advanced(s, c, free, progress).Some?
    ensures Advanced(s, c, free, progress).value.session != s.d.session ==> Working(c)
  {
  }

  /** A working call that moves leaves the others alone: no other is working. */
  lemma AdvanceIsFresh<S>(s: State<S>, task: TaskId, progress: Progress, change: Change<S>)
    requires D.Inv(s.d) && OneWorks(s) && AllFresh(s) && task in s.calls
    requires Advanced(s, s.calls[task], LockIsFree(s, s.calls[task].ref), progress) == Some(change)
    ensures AllFresh(Then(s, task, change))
  {
    var c, free := s.calls[task], LockIsFree(s, s.calls[task].ref);
    MovedIsFresh(s, c, free, progress);
    OnlyWorkingCallsResume(s, c, free, progress);
    var e := s.d.(session := change.session);
    forall u | u in s.calls && u != task
      ensures Fresh(e, s.calls[u])
    {
      if change.session == s.d.session {
        assert e == s.d;
      } else {
        assert !Working(s.calls[u]);
        assert Fresh(s.d, s.calls[u]);
      }
    }
  }

  lemma FreshStep<S>(s: State<S>, step: Move<S>, t: State<S>)
    requires D.Inv(s.d) && LocksKept(s) && OneLive(s) && ChainOnly(s, step) && AllFresh(s)
    requires Apply(s, step) == Some(t)
    ensures AllFresh(t)
  {
    OneLiveMeansOneWorks(s);
    match step
    case Surface(inner) =>
      WaitsForResume(s.d, inner, t.d);
      forall u | u in t.calls
        ensures Fresh(t.d, t.calls[u])
      {
        SurfaceIsHarmless(s, inner, t.d, u);
        StillFresh(s.d, t.d, s.calls[u]);
      }
    case Advance(task, progress) =>
      AdvanceIsFresh(s, task, progress,
        Advanced(s, s.calls[task], LockIsFree(s, s.calls[task].ref), progress).value);
    case _ => RestIsFresh(s, step);
  }

  lemma RestIsFresh<S>(s: State<S>, step: Move<S>)
    requires D.Inv(s.d) && AllFresh(s) && !step.Surface? && !step.Advance?
    ensures var r := Managed(s, step); r.Some? ==> AllFresh(r.value)
  {
    var r := Managed(s, step);
    if r.Some? {
      forall u | u in r.value.calls
        ensures Fresh(r.value.d, r.value.calls[u])
      {
        if step.Request? {
          RequestIsHarmless(s, step, s.calls[u]);
        }
      }
    }
  }

  /** A run with one live continuation at a time, whose replay is the only automation. */
  ghost predicate IsChainRun<S(!new)>(states: seq<State<S>>, steps: seq<Move<S>>) {
    && IsRun(states, steps)
    && (forall k :: 0 <= k < |states| ==> OneLive(states[k]))
    && (forall k :: 0 <= k < |steps| ==> ChainOnly(states[k], steps[k]))
  }

  lemma RunIsFresh<S(!new)>(states: seq<State<S>>, steps: seq<Move<S>>, i: nat)
    requires IsChainRun(states, steps) && i < |states|
    ensures AllFresh(states[i])
  {
    var inv := s => AllFresh(s);
    forall k | 0 <= k < |states| - 1 && inv(states[k])
      ensures inv(states[k + 1])
    {
      RunKeepsInv(states, steps, k);
      FreshStep(states[k], steps[k], states[k + 1]);
    }
    InvariantAlong(states, inv, i);
  }

  /**
   * As long as no operator has taken control again, the engine resumes from the surface it validated: every
   * inspection of either sees the surface handed back, and no dispatch was admitted since.
   */
  lemma ResumedFromWhatWasValidated<S(!new)>(states: seq<State<S>>, steps: seq<Move<S>>, i: nat, t: TaskId)
    requires IsChainRun(states, steps) && i < |states| && At(states[i], t, Collecting)
    requires states[i].d.session.generation <= states[i].calls[t].generation + 1
    ensures var s := states[i];
      && AllAre(s.calls[t].looked, s.d.handback) && AllAre(s.calls[t].again, s.d.handback)
      && s.d.surface == s.d.handback && |s.d.log| == s.d.settled
  {
    RunIsFresh(states, steps, i);
  }

  // ---- When the chain is all there is -----------------------------------------------------------

  /** Nobody asks for a pause while a continuation is being resumed. */
  ghost predicate PausesBetweenCalls<S>(s: State<S>, step: Move<S>) {
    step.Request? || (step.Surface? && step.step.Pause?) ==> forall t :: t in s.calls ==> !Working(s.calls[t])
  }

  /** Until the engine starts, automation has the generation it got back, unless the session is stopped. */
  ghost predicate NeverHandedOn<S>(s: State<S>) {
    forall t :: t in s.calls && 6 <= Rank(s.calls[t].stage) <= 8 ==> Alone(s.d.session, s.calls[t].generation)
  }

  predicate Alone(s: SessionState, g: nat) {
    || (s.control == AutomationControlled && s.generation == g)
    || (s.control == Terminal && s.generation == g + 1)
  }

  lemma AloneAfter<S>(d: D.State<S>, step: D.Step<S>, e: D.State<S>, g: nat)
    requires D.Apply(d, step) == Some(e) && !step.Pause? && Alone(d.session, g)
    ensures Alone(e.session, g)
  {
  }

  lemma MovedIsAlone<S>(s: State<S>, c: Call<S>, free: bool, progress: Progress)
    requires Advanced(s, c, free, progress).Some? && Fresh(s.d, c)
    requires 6 <= Rank(c.stage) <= 8 ==> Alone(s.d.session, c.generation)
    ensures var change := Advanced(s, c, free, progress).value;
      6 <= Rank(change.call.stage) <= 8 ==> Alone(change.session, change.call.generation)
  {
  }

  lemma AloneStep<S>(s: State<S>, step: Move<S>, t: State<S>)
    requires LocksKept(s) && OneLive(s) && AllFresh(s) && PausesBetweenCalls(s, step) && NeverHandedOn(s)
    requires Apply(s, step) == Some(t)
    ensures NeverHandedOn(t)
  {
    OneLiveMeansOneWorks(s);
    match step
    case Surface(inner) =>
      forall u | u in t.calls && 6 <= Rank(t.calls[u].stage) <= 8
        ensures Alone(t.d.session, t.calls[u].generation)
      {
        AloneAfter(s.d, inner, t.d, s.calls[u].generation);
      }
    case Advance(task, progress) =>
      MovedIsAlone(s, s.calls[task], LockIsFree(s, s.calls[task].ref), progress);
      OnlyWorkingCallsResume(s, s.calls[task], LockIsFree(s, s.calls[task].ref), progress);
    case _ =>
  }

  lemma ChainIsNeverHandedOn<S(!new)>(states: seq<State<S>>, steps: seq<Move<S>>, i: nat)
    requires IsChainRun(states, steps) && i < |states|
    requires forall k :: 0 <= k < |steps| ==> PausesBetweenCalls(states[k], steps[k])
    ensures NeverHandedOn(states[i])
  {
    var inv := s => NeverHandedOn(s);
    forall k | 0 <= k < |states| - 1 && inv(states[k])
      ensures inv(states[k + 1])
    {
      RunIsFresh(states, steps, k);
      RunKeepsInv(states, steps, k);
      AloneStep(states[k], steps[k], states[k + 1]);
    }
    InvariantAlong(states, inv, i);
  }

  // ---- What it means for the engine ------------------------------------------------------------

  /** The snapshot of one inspection per target, each of the surface as it was at that moment. */
  function Sampled<S>(view: (S, Target) -> Inspection, targets: seq<Target>, seen: seq<S>): Result<Snapshot, R.Reason>
    requires |seen| == |targets|
  {
    if targets == [] then Ok([])
    else if !view(seen[0], targets[0]).Readable() then Err(R.WhyUnread(view(seen[0], targets[0])))
    else
      var rest := Sampled(view, targets[1..], seen[1..]);
      if rest.Err? then rest else Ok([R.ToObservation(targets[0], view(seen[0], targets[0]))] + rest.value)
  }

  lemma {:induction false} SampledAlike<S>(view: (S, Target) -> Inspection, targets: seq<Target>, a: seq<S>, b: seq<S>, x: S)
    requires |a| == |b| == |targets| && AllAre(a, x) && AllAre(b, x)
    ensures Sampled(view, targets, a) == Sampled(view, targets, b)
  {
    if targets != [] {
      SampledAlike(view, targets[1..], a[1..], b[1..], x);
    }
  }

  /**
   * The validator's answer and the resumed run, when the snapshots of both are samples of the surface in a chain
   * run: the run takes the start index or the terminal result that was validated, and never ends unverified.
   */
  lemma ValidAnswersAreHonoured<S(!new), W(!new)>(
    states: seq<State<S>>, steps: seq<Move<S>>, i: nat, t: TaskId,
    view: (S, Target) -> Inspection, ports: G.Ports<W>, d: Definition, c: R.Checkpoint, inputs: Inputs,
    before: Context, after: Context, w: W, w': W)
    requires IsChainRun(states, steps) && i < |states| && At(states[i], t, Collecting)
    requires states[i].d.session.generation <= states[i].calls[t].generation + 1
    requires var call := states[i].calls[t];
      && |call.looked| == |call.again| == |R.TargetsFor(d)|
      && R.Collect(ports, before.profile, R.TargetsFor(d), w).snapshot == Sampled(view, R.TargetsFor(d), call.looked)
      && R.Collect(ports, after.profile, R.TargetsFor(d), w').snapshot == Sampled(view, R.TargetsFor(d), call.again)
      && after.generation == call.generation && after.profile == before.profile
      && call.ref in states[i].heap && states[i].heap[call.ref].suspended == c.suspendedGeneration
    requires R.ValidateResume(ports, d, c, inputs, before, w).answer.Valid?
    ensures R.CheckpointFits(d, c)
    ensures var v := R.ValidateResume(ports, d, c, inputs, before, w).answer;
      var current := R.Collect(ports, after.profile, R.TargetsFor(d), w');
      var r := R.Resume(ports, d, c, inputs, after, w');
      && current.snapshot.Ok? && !ReplaySoundness.Unverified(r.result)
      && ReplaySoundness.AgreesWith(R.EngineFor(ports, d, after), d, c, inputs, current.snapshot.value, v, current, r)
  {
    ResumedFromWhatWasValidated(states, steps, i, t);
    RunKeepsInv(states, steps, i);
    var call := states[i].calls[t];
    SampledAlike(view, R.TargetsFor(d), call.looked, call.again, states[i].d.handback);
    ReplaySoundness.ValidatedIsResumed(ports, d, c, inputs, before, after, w, w');
  }
}
