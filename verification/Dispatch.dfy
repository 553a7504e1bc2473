/**
 * One live session under any number of concurrent tasks: the dispatch lock, the check made under the
 * state lock, the effect on the surface, and every control transition are separate atomic steps.
 */
module Dispatch {
  import opened Contracts
  import opened SessionControl
  import opened Runs

  type TaskId = nat

  /** Where one dispatching task stands; `expected` is the generation it was given. */
  datatype Task =
    | Waiting(client: Client, expected: nat)   // queued for the dispatch lock
    | Holding(client: Client, expected: nat)   // holds the lock, not yet checked
    | InEffect(client: Client, expected: nat)  // admitted; the surface may be changing
    | Done

  datatype Admission = Admission(client: Client, generation: nat)

  /** `handback` remembers the surface at the last return of control, `settled` how many dispatches had been admitted. */
  datatype State<S> = State(
    session: SessionState, runId: string, lock: Option<TaskId>, tasks: map<TaskId, Task>,
    surface: S, handback: S, settled: nat, log: seq<Admission>)

  datatype Step<S> =
    | Arrive(task: TaskId, client: Client, expected: nat)
    | Acquire(task: TaskId)
    | Check(task: TaskId)
    | Affect(task: TaskId, surface: S)
    | Release(task: TaskId)
    | Abandon(task: TaskId)
    | Pause
    | Grant(operatorId: string, displayName: Option<string>)
    | Return
    | Resume
    | Stop

  /** The state after a control transition's answer; a refused transition leaves the session as it was. */
  function Answered<S>(s: State<S>, r: Result<SessionState, ControlError>): State<S> {
    if r.Ok? then s.(session := r.value) else s
  }

  /** The state after `step`, or None when the step is not possible in `s`. */
  function Apply<S>(s: State<S>, step: Step<S>): Option<State<S>> {
    match step
    case Arrive(t, client, expected) =>
      if t in s.tasks then None else Some(s.(tasks := s.tasks[t := Waiting(client, expected)]))
    case Acquire(t) =>
      if t in s.tasks && s.tasks[t].Waiting? && s.lock.None?
      then Some(s.(lock := Some(t), tasks := s.tasks[t := Holding(s.tasks[t].client, s.tasks[t].expected)]))
      else None
    case Check(t) =>
      if t in s.tasks && s.tasks[t].Holding? then
        var Holding(client, expected) := s.tasks[t];
        if Refusal(s.session, client, expected).None?
        then Some(s.(tasks := s.tasks[t := InEffect(client, expected)], log := s.log + [Admission(client, expected)]))
        else Some(s.(lock := None, tasks := s.tasks[t := Done]))
      else None
    case Affect(t, surface) =>
      if t in s.tasks && s.tasks[t].InEffect? then Some(s.(surface := surface)) else None
    case Release(t) =>
      if t in s.tasks && s.tasks[t].InEffect? then Some(s.(lock := None, tasks := s.tasks[t := Done])) else None
    case Abandon(t) =>
      if t in s.tasks && s.tasks[t].Waiting? then Some(s.(tasks := s.tasks[t := Done])) else None
    case Pause => Some(Answered(s, Paused(s.session)))
    case Grant(op, name) => Some(Answered(s, Granted(s.session, s.lock.Some?, op, name)))
    case Return =>
      var r := Returned(s.session, s.lock.Some?);
      var t := Answered(s, r);
      Some(if r.Ok? && s.session.control != ResumeRequested then t.(handback := s.surface, settled := |s.log|) else t)
    case Resume => Some(Answered(s, Resumed(s.session, s.runId)))
    case Stop => Some(s.(session := Stopped(s.session)))
  }

  predicate Initial<S>(s: State<S>) {
    && s.session == Opened(s.session.sessionId, s.runId)
    && s.lock == None && s.tasks == map[] && s.log == []
  }

  ghost predicate IsRun<S(!new)>(states: seq<State<S>>, steps: seq<Step<S>>) {
    && |states| == |steps| + 1
    && Initial(states[0])
    && forall i :: 0 <= i < |steps| ==> Apply(states[i], steps[i]) == Some(states[i + 1])
  }

  // ---- The invariant ----------------------------------------------------------------

  /** An effect admitted at `g` survives a pause or a stop, and nothing else. */
  predicate EffectAllowed(session: SessionState, client: Client, g: nat) {
    match client
    case AutomationClient =>
      || (session.control == AutomationControlled && session.generation == g)
      || (session.control == PauseRequested && session.generation == g + 1)
      || (session.control == Terminal && g + 1 <= session.generation <= g + 2)
    case OperatorClient(op) =>
      || (session.control == OperatorControlled && session.generation == g
          && session.owner.Operator? && session.owner.operatorId == op)
      || (session.control == Terminal && session.generation == g + 1)
  }

  /** Whoever is in the lock's region is the one the lock names. */
  ghost predicate LockExact<S>(s: State<S>) {
    forall t :: t in s.tasks ==> ((s.tasks[t].Holding? || s.tasks[t].InEffect?) <==> s.lock == Some(t))
  }

  /** Whoever is in effect was admitted last. */
  ghost predicate EffectsAllowed<S>(s: State<S>) {
    forall t :: t in s.tasks && s.tasks[t].InEffect? ==>
      && EffectAllowed(s.session, s.tasks[t].client, s.tasks[t].expected)
      && s.log != [] && s.log[|s.log| - 1] == Admission(s.tasks[t].client, s.tasks[t].expected)
  }

  /** An admission's generation tells which kind of client it was. */
  predicate AdmissionFits(a: Admission, session: SessionState) {
    && a.generation <= session.generation
    && a.generation % 3 == (if a.client.AutomationClient? then 0 else 2)
    && (a.client.OperatorClient? && session.control.OperatorControlled? && a.generation == session.generation
        ==> session.owner.Operator? && session.owner.operatorId == a.client.operatorId)
  }

  ghost predicate LogFits<S>(s: State<S>) {
    && (forall i :: 0 <= i < |s.log| ==> AdmissionFits(s.log[i], s.session))
    && (forall i, j :: 0 <= i < j < |s.log| ==>
          && s.log[i].generation <= s.log[j].generation
          && (s.log[i].generation == s.log[j].generation ==> s.log[i].client == s.log[j].client))
  }

  ghost predicate Inv<S>(s: State<S>) {
    && Consistent(s.session)
    && (s.lock.Some? ==> s.lock.value in s.tasks)
    && LockExact(s)
    && EffectsAllowed(s)
    && LogFits(s)
    && (s.session.control == ResumeRequested ==> s.lock.Some? ==> s.tasks[s.lock.value].Holding?)
    && (s.session.control == ResumeRequested ==> s.surface == s.handback && |s.log| == s.settled)
  }

  lemma EffectsStep<S>(s: State<S>, step: Step<S>, t: State<S>)
    requires Inv(s) && Apply(s, step) == Some(t)
    ensures EffectsAllowed(t)
    ensures s.log <= t.log && |t.log| <= |s.log| + 1
    ensures t.surface != s.surface ==> step.Affect?
  {
  }

  lemma LogStep<S>(s: State<S>, step: Step<S>, t: State<S>)
    requires Inv(s) && Apply(s, step) == Some(t)
    ensures LogFits(t)
  {
  }

  lemma StepKeepsInv<S>(s: State<S>, step: Step<S>, t: State<S>)
    requires Inv(s) && Apply(s, step) == Some(t)
    ensures Inv(t)
    ensures Follows(s.session, t.session)
    ensures s.log <= t.log && |t.log| <= |s.log| + 1
    ensures t.surface != s.surface ==> step.Affect?
  {
    EffectsStep(s, step, t);
    LogStep(s, step, t);
  }

  lemma RunKeepsInv<S(!new)>(states: seq<State<S>>, steps: seq<Step<S>>, i: nat)
    requires IsRun(states, steps) && i < |states|
    ensures Inv(states[i])
  {
    var inv := s => Inv(s);
    forall k | 0 <= k < |states| - 1 && inv(states[k])
      ensures inv(states[k + 1])
    {
      StepKeepsInv(states[k], steps[k], states[k + 1]);
    }
    InvariantAlong(states, inv, i);
  }

  /** Nobody is in effect. */
  ghost predicate Quiet<S>(s: State<S>) {
    forall t :: t in s.tasks ==> !s.tasks[t].InEffect?
  }

  /** Between two admissions at one generation there are only admissions of that client at that generation. */
  ghost predicate OneClientPerGeneration(log: seq<Admission>) {
    forall a, b, c :: 0 <= a <= b <= c < |log| && log[a].generation == log[c].generation ==>
      log[a] == log[b] == log[c]
  }

  // ---- What holds over every run ------------------------------------------------------

  /** Mutual exclusion: one dispatch in effect at most, and only under the control that admitted it. */
  lemma MutualExclusion<S(!new)>(states: seq<State<S>>, steps: seq<Step<S>>, i: nat, t: TaskId, u: TaskId)
    requires IsRun(states, steps) && i < |states|
    requires t in states[i].tasks && states[i].tasks[t].InEffect?
    requires u in states[i].tasks && (states[i].tasks[u].InEffect? || states[i].tasks[u].Holding?)
    ensures t == u
    ensures EffectAllowed(states[i].session, states[i].tasks[t].client, states[i].tasks[t].expected)
  {
    RunKeepsInv(states, steps, i);
  }

  /** From `s` to `t` the past is kept, and what is new is not stale. */
  ghost predicate Onward<S>(s: State<S>, t: State<S>) {
    && Follows(s.session, t.session) && s.log <= t.log
    && forall k :: |s.log| <= k < |t.log| ==> t.log[k].generation >= s.session.generation
  }

  lemma StepIsOnward<S>(s: State<S>, step: Step<S>, t: State<S>)
    requires Inv(s) && Apply(s, step) == Some(t)
    ensures Onward(s, t)
  {
    StepKeepsInv(s, step, t);
  }

  lemma RunMovesForward<S(!new)>(states: seq<State<S>>, steps: seq<Step<S>>, i: nat, j: nat)
    requires IsRun(states, steps) && i <= j < |states|
    ensures Onward(states[i], states[j])
  {
    var later := (s, t) => Onward(s, t);
    forall k | 0 <= k < |states| - 1
      ensures later(states[k], states[k + 1])
    {
      RunKeepsInv(states, steps, k);
      StepIsOnward(states[k], steps[k], states[k + 1]);
    }
    OrderAlong(states, later, i, j);
  }

  /** Fencing: the generation tells who may dispatch, and no operator slips in at an automation generation. */
  lemma GenerationFencing<S(!new)>(states: seq<State<S>>, steps: seq<Step<S>>, i: nat, j: nat)
    requires IsRun(states, steps) && i <= j < |states|
    ensures Consistent(states[i].session)
    ensures Follows(states[i].session, states[j].session)
    ensures OneClientPerGeneration(states[j].log)
    ensures forall k :: |states[i].log| <= k < |states[j].log| ==>
      states[j].log[k].generation >= states[i].session.generation
  {
    RunKeepsInv(states, steps, i);
    RunKeepsInv(states, steps, j);
    RunMovesForward(states, steps, i, j);
  }

  /** Taking control waits for quiescence, and no dispatch of an earlier generation is admitted afterwards. */
  lemma GrantIsQuiescent<S(!new)>(states: seq<State<S>>, steps: seq<Step<S>>, i: nat, j: nat, t: TaskId)
    requires IsRun(states, steps) && i < j < |states| && steps[i].Grant?
    requires states[i].session.control != OperatorControlled && states[i + 1].session.control == OperatorControlled
    requires t in states[j].tasks && states[j].tasks[t].InEffect?
    ensures Quiet(states[i + 1])
    ensures states[j].tasks[t].expected >= states[i + 1].session.generation == states[i].session.generation + 1
  {
    RunKeepsInv(states, steps, i);
    RunKeepsInv(states, steps, i + 1);
    RunKeepsInv(states, steps, j);
    RunMovesForward(states, steps, i + 1, j);
    if states[j].tasks[t].expected < states[i + 1].session.generation {
      assert |states[j].log| <= |states[i + 1].log|;
      NothingInEffect(states, steps, i + 1, j);
    }
  }

  /** While nobody is in effect and nobody is admitted, the surface stands still. */
  lemma {:induction false} NothingInEffect<S(!new)>(states: seq<State<S>>, steps: seq<Step<S>>, i: nat, j: nat)
    requires IsRun(states, steps) && i <= j < |states|
    requires Quiet(states[i])
    requires |states[j].log| == |states[i].log|
    ensures Quiet(states[j])
    ensures states[j].surface == states[i].surface
    decreases j - i
  {
    if i < j {
      RunMovesForward(states, steps, i, j - 1);
      RunMovesForward(states, steps, j - 1, j);
      NothingInEffect(states, steps, i, j - 1);
    }
  }

  /**
   * The surface an operator hands back stays as it is until the next admission, whatever else happens:
   * pauses, refusals, waiting tasks, the return to automation, a stop.
   */
  lemma HandbackIsFrozen<S(!new)>(states: seq<State<S>>, steps: seq<Step<S>>, i: nat, j: nat)
    requires IsRun(states, steps) && i <= j < |states|
    requires states[i].session.control == ResumeRequested
    requires |states[j].log| == |states[i].log|
    ensures states[j].surface == states[i].handback == states[i].surface
  {
    RunKeepsInv(states, steps, i);
    NothingInEffect(states, steps, i, j);
  }

  // ---- Who is admitted, and when nobody is any more ---------------------------------------

  /** The check admits exactly the one in control at the current generation, and frees the lock otherwise. */
  lemma CheckAdmitsExactly<S(!new)>(states: seq<State<S>>, steps: seq<Step<S>>, i: nat, t: TaskId)
    requires IsRun(states, steps) && i < |steps| && steps[i] == Check(t)
    ensures var s, next := states[i], states[i + 1];
      && t in s.tasks && s.tasks[t].Holding? && s.lock == Some(t)
      && var client, g := s.tasks[t].client, s.tasks[t].expected;
      && next.session == s.session && next.surface == s.surface
      && (if MayDispatch(s.session, client, g)
          then next.tasks == s.tasks[t := InEffect(client, g)] && next.lock == s.lock && next.log == s.log + [Admission(client, g)]
          else next.tasks == s.tasks[t := Done] && next.lock == None && next.log == s.log)
  {
    RunKeepsInv(states, steps, i);
    assert Apply(states[i], steps[i]) == Some(states[i + 1]);
    AdmissionMeans(states[i].session, states[i].tasks[t].client, states[i].tasks[t].expected);
  }

  /** Once stopped, a session stays as it is, nobody is admitted, and only who was in effect may still finish. */
  ghost predicate Halts<S>(s: State<S>, t: State<S>) {
    s.session.control == Terminal ==>
      && t.session == s.session && t.log == s.log
      && forall u :: u in t.tasks && t.tasks[u].InEffect? ==> u in s.tasks && s.tasks[u] == t.tasks[u]
  }

  lemma StepHalts<S>(s: State<S>, step: Step<S>, t: State<S>)
    requires Apply(s, step) == Some(t)
    ensures Halts(s, t)
  {
  }

  /** A stop is final over every run. */
  lemma StopIsFinal<S(!new)>(states: seq<State<S>>, steps: seq<Step<S>>, i: nat, j: nat)
    requires IsRun(states, steps) && i < j < |states| && steps[i].Stop?
    ensures var before, s := states[i], states[j];
      && s.session.control == Terminal && s.log == before.log
      && s.session.generation == before.session.generation + (if before.session.control == Terminal then 0 else 1)
      && (forall u :: u in s.tasks && s.tasks[u].InEffect? ==> u in before.tasks && before.tasks[u] == s.tasks[u])
      && (Quiet(before) ==> s.surface == before.surface)
  {
    var later := (s, t) => Halts(s, t);
    forall k | 0 <= k < |states| - 1
      ensures later(states[k], states[k + 1])
    {
      StepHalts(states[k], steps[k], states[k + 1]);
    }
    OrderAlong(states, later, i + 1, j);
    assert Apply(states[i], steps[i]) == Some(states[i + 1]);
    if Quiet(states[i]) {
      NothingInEffect(states, steps, i, j);
    }
  }

  // ---- A handoff can always be made -------------------------------------------------------

  ghost predicate Leads<S(!new)>(s: State<S>, steps: seq<Step<S>>, t: State<S>)
    decreases |steps|
  {
    if steps == [] then s == t
    else Apply(s, steps[0]).Some? && Leads(Apply(s, steps[0]).value, steps[1..], t)
  }

  lemma {:induction false} LeadsOn<S(!new)>(s: State<S>, a: seq<Step<S>>, t: State<S>, b: seq<Step<S>>, u: State<S>)
    requires Leads(s, a, t) && Leads(t, b, u)
    ensures Leads(s, a + b, u)
    decreases |a|
  {
    if a == [] {
      assert a + b == b;
    } else {
      LeadsOn(Apply(s, a[0]).value, a[1..], t, b, u);
      assert (a + b)[1..] == a[1..] + b;
    }
  }

  /** One dispatch of a new task by the one in control, which leaves `surface`. */
  function DispatchSteps<S>(t: TaskId, client: Client, g: nat, surface: S): seq<Step<S>> {
    [Arrive(t, client, g), Acquire(t), Check(t), Affect(t, surface), Release(t)]
  }

  lemma DispatchLeads<S(!new)>(s: State<S>, t: TaskId, client: Client, surface: S)
    requires Consistent(s.session) && s.lock == None && t !in s.tasks && MayDispatch(s.session, client, s.session.generation)
    ensures Leads(s, DispatchSteps(t, client, s.session.generation, surface),
      s.(tasks := s.tasks[t := Done], log := s.log + [Admission(client, s.session.generation)], surface := surface))
  {
    var g := s.session.generation;
    AdmissionMeans(s.session, client, g);
    var s1 := Apply(s, Arrive(t, client, g)).value;
    var s2 := Apply(s1, Acquire(t)).value;
    var s3 := Apply(s2, Check(t)).value;
    var s4 := Apply(s3, Affect(t, surface)).value;
    var s5 := Apply(s4, Release(t)).value;
    assert s5.tasks == s.tasks[t := Done];
    LeadsBefore(s4, Release(t), s5, [], s5);
    LeadsBefore(s3, Affect(t, surface), s4, [Release(t)] + [], s5);
    LeadsBefore(s2, Check(t), s3, [Affect(t, surface)] + ([Release(t)] + []), s5);
    LeadsBefore(s1, Acquire(t), s2, [Check(t)] + ([Affect(t, surface)] + ([Release(t)] + [])), s5);
    LeadsBefore(s, Arrive(t, client, g), s1, [Acquire(t)] + ([Check(t)] + ([Affect(t, surface)] + ([Release(t)] + []))), s5);
    assert DispatchSteps(t, client, g, surface)
        == [Arrive(t, client, g)] + ([Acquire(t)] + ([Check(t)] + ([Affect(t, surface)] + ([Release(t)] + []))));
  }

  lemma LeadsBefore<S(!new)>(s: State<S>, step: Step<S>, t: State<S>, rest: seq<Step<S>>, u: State<S>)
    requires Apply(s, step) == Some(t) && Leads(t, rest, u)
    ensures Leads(s, [step] + rest, u)
  {
    assert ([step] + rest)[1..] == rest;
  }

  /** The tasks are new, and different. */
  predicate NewTasks<S>(s: State<S>, a: TaskId, b: TaskId) { a !in s.tasks && b !in s.tasks && a != b }

  /** The way to the operator's dispatch, and the way back to automation's. */
  function OperatorSteps<S>(g: nat, op: string, name: Option<string>, t: TaskId, surface: S): seq<Step<S>> {
    [Pause] + ([Grant(op, name)] + DispatchSteps(t, OperatorClient(op), g + 2, surface))
  }

  function BackSteps<S>(g: nat, t: TaskId, surface: S): seq<Step<S>> {
    [Return] + ([Resume] + DispatchSteps(t, AutomationClient, g + 3, surface))
  }

  lemma OperatorLeads<S(!new)>(s: State<S>, op: string, name: Option<string>, t: TaskId, surface: S)
    requires Consistent(s.session) && s.session.control == AutomationControlled && s.lock == None && t !in s.tasks
    ensures var g := s.session.generation;
      Leads(s, OperatorSteps(g, op, name, t, surface),
        s.(session := s.session.(control := OperatorControlled, owner := Operator(op, name), generation := g + 2),
           tasks := s.tasks[t := Done], log := s.log + [Admission(OperatorClient(op), g + 2)], surface := surface))
  {
    var g := s.session.generation;
    var s1 := Apply(s, Pause).value;
    var s2 := Apply(s1, Grant(op, name)).value;
    var s3 := s2.(tasks := s.tasks[t := Done], log := s.log + [Admission(OperatorClient(op), g + 2)], surface := surface);
    DispatchLeads(s2, t, OperatorClient(op), surface);
    LeadsBefore(s1, Grant(op, name), s2, DispatchSteps(t, OperatorClient(op), g + 2, surface), s3);
    LeadsBefore(s, Pause, s1, [Grant(op, name)] + DispatchSteps(t, OperatorClient(op), g + 2, surface), s3);
  }

  lemma BackLeads<S(!new)>(s: State<S>, g: nat, t: TaskId, surface: S)
    requires Consistent(s.session) && s.session.control == OperatorControlled && s.session.generation == g + 2
    requires s.lock == None && t !in s.tasks
    ensures Leads(s, BackSteps(g, t, surface),
      s.(session := SessionState(s.session.sessionId, AutomationControlled, Automation(s.runId), g + 3),
         tasks := s.tasks[t := Done], surface := surface, handback := s.surface, settled := |s.log|,
         log := s.log + [Admission(AutomationClient, g + 3)]))
  {
    var s1 := Apply(s, Return).value;
    var s2 := Apply(s1, Resume).value;
    var s3 := s2.(tasks := s.tasks[t := Done], log := s.log + [Admission(AutomationClient, g + 3)], surface := surface);
    DispatchLeads(s2, t, AutomationClient, surface);
    LeadsBefore(s1, Resume, s2, DispatchSteps(t, AutomationClient, g + 3, surface), s3);
    LeadsBefore(s, Return, s1, [Resume] + DispatchSteps(t, AutomationClient, g + 3, surface), s3);
  }

  /**
   * A handoff can be made from any state of automation where no dispatch is in flight: the operator is granted control
   * and admitted, the surface that is handed back is remembered, and automation is admitted again, each once.
   */
  lemma HandoffLeads<S(!new)>(
    s: State<S>, op: string, name: Option<string>, a: TaskId, handed: S, b: TaskId, after: S)
    requires Consistent(s.session) && s.session.control == AutomationControlled && s.lock == None && NewTasks(s, a, b)
    ensures var g := s.session.generation;
      Leads(s, OperatorSteps(g, op, name, a, handed) + BackSteps(g, b, after),
        s.(session := SessionState(s.session.sessionId, AutomationControlled, Automation(s.runId), g + 3),
           tasks := s.tasks[a := Done][b := Done], surface := after, handback := handed, settled := |s.log| + 1,
           log := s.log + [Admission(OperatorClient(op), g + 2)] + [Admission(AutomationClient, g + 3)]))
  {
    var g := s.session.generation;
    var m := s.(session := s.session.(control := OperatorControlled, owner := Operator(op, name), generation := g + 2),
                tasks := s.tasks[a := Done], log := s.log + [Admission(OperatorClient(op), g + 2)], surface := handed);
    OperatorLeads(s, op, name, a, handed);
    BackLeads(m, g, b, after);
    var end := m.(session := SessionState(s.session.sessionId, AutomationControlled, Automation(s.runId), g + 3),
                  tasks := m.tasks[b := Done], surface := after, handback := handed, settled := |m.log|,
                  log := m.log + [Admission(AutomationClient, g + 3)]);
    LeadsOn(s, OperatorSteps(g, op, name, a, handed), m, BackSteps(g, b, after), end);
    assert |m.log| == |s.log| + 1;
  }
}
