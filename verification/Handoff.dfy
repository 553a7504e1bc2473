/**
 * The whole handoff of one session as a step machine: any number of concurrent calls to resume any
 * continuation, interleaved with registrations, discards, interventions, operators and dispatches.
 */
module Handoff {
  import opened Contracts
  import opened SessionControl
  import opened Runs
  import D = Dispatch
  import opened Registry
  import I = Interventions

  type TaskId = nat
  type Ref = nat

  /** What is stored with a pending continuation. */
  datatype Continuation = Continuation(id: string, runId: string, sessionId: string, surface: string, suspended: nat)

  /** Where one call of the coordinator's resume stands. From Locked to Running it holds the resume lock. */
  datatype Stage =
    | Queued       // found the pending continuation, waits for its resume lock
    | Locked       // holds the lock
    | Rechecked    // the continuation is still the pending one
    | Asked        // the manager saw the session waiting for the resume check
    | Validating   // the record matches; the engine reads the surface to validate
    | Validated    // the engine answered VALID
    | Returned     // automation owns the session again
    | Claimed      // the continuation is consumed
    | Collecting   // the engine resumes and reads the surface again
    | Running      // the engine runs steps
    | Finished

  function Rank(s: Stage): nat {
    match s
    case Queued => 0 case Locked => 1 case Rechecked => 2 case Asked => 3 case Validating => 4 case Validated => 5
    case Returned => 6 case Claimed => 7 case Collecting => 8 case Running => 9 case Finished => 10
  }

  /** `seen` is the generation the manager saw, `generation` the one automation got back. */
  datatype Call<S> = Call(
    stage: Stage, id: string, ref: Ref, seen: nat, generation: nat, looked: seq<S>, again: seq<S>)
  {
    predicate HoldsLock() { 1 <= Rank(stage) <= 9 }
  }

  datatype State<S> = State(
    d: D.State<S>, registry: Table<Ref>, heap: map<Ref, Continuation>, records: map<string, I.Intervention>,
    calls: map<TaskId, Call<S>>, engineCalls: seq<string>)

  /** The next atomic step of one call of the coordinator's resume. */
  datatype Progress =
    | TakeLock | Recheck | AskManager | Match | ReadToValidate | Judge(valid: bool)
    | Transition | Claim | CallEngine | ReadToResume | Begin | End

  datatype Move<S> =
    | Surface(step: D.Step<S>)
    | Request(request: I.Request)
    | Register(ref: Ref, continuation: Continuation)
    | Discard(id: string)
    | Enter(task: TaskId, id: string)
    | Advance(task: TaskId, progress: Progress)

  predicate At<S>(s: State<S>, t: TaskId, stage: Stage) {
    t in s.calls && s.calls[t].stage == stage
  }

  predicate Matches(c: Continuation, i: I.Intervention) {
    I.Matches(c.runId, c.sessionId, c.surface, c.suspended, i)
  }

  /** The state after `step`, or None when the step is not possible in `s`. */
  function Apply<S>(s: State<S>, step: Move<S>): Option<State<S>> {
    match step
    case Surface(inner) => OnSurface(s, inner)
    case Advance(t, progress) =>
      if t !in s.calls then None
      else
        var r := Advanced(s, s.calls[t], LockIsFree(s, s.calls[t].ref), progress);
        if r.None? then None else Some(Then(s, t, r.value))
    case _ => Managed(s, step)
  }

  /** A step of the dispatch machine; only a validated call resumes automation. */
  function OnSurface<S>(s: State<S>, step: D.Step<S>): Option<State<S>> {
    var r := D.Apply(s.d, step);
    if step.Resume? || r.None? then None else Some(s.(d := r.value))
  }

  /** A step of the manager, of the registry, or of a call that begins. */
  function Managed<S>(s: State<S>, step: Move<S>): Option<State<S>>
    requires !step.Surface? && !step.Advance?
  {
    match step
    case Request(q) =>
      var session := s.d.session;
      var r := Paused(session);
      if q.sessionId != session.sessionId then None
      else if session.owner == Automation(q.runId) && q.id !in s.records && r.Ok?
      then Some(s.(d := s.d.(session := r.value), records := s.records[q.id := I.Intervention(q, r.value.generation)]))
      else Some(s)
    case Register(ref, c) =>
      if ref in s.heap then None
      else if s.registry.Knows(c.id) then Some(s)
      else Some(s.(heap := s.heap[ref := c], registry := Registered(s.registry, c.id, ref)))
    case Discard(id) => Some(s.(registry := Discarded(s.registry, id)))
    case Enter(t, id) =>
      if t in s.calls || id !in s.registry.pending then None
      else Some(s.(calls := s.calls[t := Call(Queued, id, s.registry.pending[id], 0, 0, [], [])]))
  }

  predicate LockIsFree<S>(s: State<S>, ref: Ref) {
    forall u | u in s.calls && s.calls[u].HoldsLock() :: s.calls[u].ref != ref
  }

  /** What one step of a call changes: itself, the registry, the session, and whether it called the engine. */
  datatype Change<S> = Change(call: Call<S>, registry: Table<Ref>, session: SessionState, called: bool)

  function Then<S>(s: State<S>, t: TaskId, change: Change<S>): State<S> {
    s.(calls := s.calls[t := change.call], registry := change.registry, d := s.d.(session := change.session),
       engineCalls := if change.called then s.engineCalls + [change.call.id] else s.engineCalls)
  }

  /** One step of call `c`. A stopped session gives the continuation up, if it is still this one. */
  function Advanced<S>(s: State<S>, c: Call<S>, free: bool, progress: Progress): Option<Change<S>> {
    var held := Holds(s.registry, c.id, c.ref);
    var stay := Change(c, s.registry, s.d.session, false);
    var over := stay.(call := c.(stage := Finished));
    var givenUp := if held then over.(registry := Consumed(s.registry, c.id)) else over;
    match progress
    case TakeLock =>
      if c.stage == Queued && free then Some(stay.(call := c.(stage := Locked))) else None
    case Recheck =>
      if c.stage != Locked then None else Some(if held then stay.(call := c.(stage := Rechecked)) else over)
    case AskManager =>
      if c.stage != Rechecked then None
      else if c.id !in s.records then Some(over)
      else if s.d.session.control == Terminal then Some(givenUp)
      else if s.d.session.control != ResumeRequested then Some(over)
      else Some(stay.(call := c.(stage := Asked, seen := s.d.session.generation)))
    case Match =>
      if c.stage != Asked then None
      else
        var found := c.id in s.registry.pending && s.registry.pending[c.id] in s.heap && c.id in s.records
                     && Matches(s.heap[s.registry.pending[c.id]], s.records[c.id]);
        Some(if found then stay.(call := c.(stage := Validating)) else over)
    case ReadToValidate =>
      if c.stage == Validating then Some(stay.(call := c.(looked := c.looked + [s.d.surface]))) else None
    case Judge(valid) =>
      if c.stage == Validating then Some(if valid then stay.(call := c.(stage := Validated)) else over) else None
    case Transition =>
      if c.stage != Validated then None
      else
        var r := Resumed(s.d.session, s.d.runId);
        if r.Ok? then
          Some(stay.(call := c.(stage := Returned, generation := r.value.generation), session := r.value))
        else Some(if r.error == SessionStopped then givenUp else over)
    case Claim =>
      if c.stage != Returned then None
      else Some(if held then stay.(call := c.(stage := Claimed), registry := Consumed(s.registry, c.id)) else over)
    case CallEngine =>
      if c.stage == Claimed then Some(stay.(call := c.(stage := Collecting), called := true)) else None
    case ReadToResume =>
      if c.stage == Collecting then Some(stay.(call := c.(again := c.again + [s.d.surface]))) else None
    case Begin => if c.stage == Collecting then Some(stay.(call := c.(stage := Running))) else None
    case End => if c.stage == Collecting || c.stage == Running then Some(over) else None
  }

  predicate Initial<S>(s: State<S>) {
    && D.Initial(s.d) && s.registry == Table(map[], {}) && s.heap == map[] && s.records == map[]
    && s.calls == map[] && s.engineCalls == []
  }

  ghost predicate IsRun<S(!new)>(states: seq<State<S>>, steps: seq<Move<S>>) {
    && |states| == |steps| + 1
    && Initial(states[0])
    && forall i :: 0 <= i < |steps| ==> Apply(states[i], steps[i]) == Some(states[i + 1])
  }

  // ---- What every reachable state keeps ----------------------------------------------------

  ghost predicate RegistryKept<S>(s: State<S>) {
    && s.registry.pending.Keys !! s.registry.consumed
    && (forall id :: id in s.registry.pending ==>
          s.registry.pending[id] in s.heap && s.heap[s.registry.pending[id]].id == id)
    && (forall t :: t in s.calls ==> s.calls[t].ref in s.heap && s.heap[s.calls[t].ref].id == s.calls[t].id)
  }

  ghost predicate LocksKept<S>(s: State<S>) {
    forall t, u :: t in s.calls && u in s.calls && s.calls[t].HoldsLock() && s.calls[u].HoldsLock()
      && s.calls[t].ref == s.calls[u].ref
      ==> t == u
  }

  /** A consumed continuation reaches the engine once at most. */
  ghost predicate EngineCallsKept<S>(s: State<S>) {
    && (forall i :: 0 <= i < |s.engineCalls| ==> s.engineCalls[i] in s.registry.consumed)
    && (forall i, j :: 0 <= i < j < |s.engineCalls| ==> s.engineCalls[i] != s.engineCalls[j])
    && (forall t :: At(s, t, Claimed) ==>
          s.calls[t].id in s.registry.consumed && s.calls[t].id !in s.engineCalls)
    && (forall t, u :: At(s, t, Claimed) && At(s, u, Claimed) && t != u ==> s.calls[t].id != s.calls[u].id)
  }

  /** The continuation of a call can still reach the engine, or has reached it. */
  predicate Alive<S>(s: State<S>, c: Call<S>) {
    Holds(s.registry, c.id, c.ref) || 7 <= Rank(c.stage) <= 9
  }

  predicate CallKept<S>(s: State<S>, c: Call<S>) {
    && (3 <= Rank(c.stage) <= 9 ==>
          c.id in s.records && s.records[c.id].requested <= c.seen <= s.d.session.generation && c.seen % 3 == 2)
    && (4 <= Rank(c.stage) <= 9 && Alive(s, c) ==>
          c.ref in s.heap && s.records[c.id].requested > s.heap[c.ref].suspended)
    && (6 <= Rank(c.stage) <= 9 ==>
          c.seen < c.generation <= s.d.session.generation && c.generation % 3 == 0)
  }

  ghost predicate GenerationsKept<S>(s: State<S>) {
    && RecordsKept(s)
    && (forall t :: t in s.calls ==> CallKept(s, s.calls[t]))
  }

  /** What only grows along a run. */
  ghost predicate Later<S>(s: State<S>, t: State<S>) {
    s.registry.consumed <= t.registry.consumed && s.engineCalls <= t.engineCalls
  }

  ghost predicate Inv<S>(s: State<S>) {
    D.Inv(s.d) && RegistryKept(s) && LocksKept(s) && EngineCallsKept(s) && GenerationsKept(s)
  }

  /** What a step of a call may change, apart from the session: itself, and its own entry in the registry. */
  ghost predicate IsLocal<S>(s: State<S>, c: Call<S>, free: bool, change: Change<S>) {
    var c' := change.call;
    && c'.id == c.id && c'.ref == c.ref
    && (change.registry == s.registry
        || (Holds(s.registry, c.id, c.ref) && change.registry == Consumed(s.registry, c.id)))
    && (c'.HoldsLock() && !c.HoldsLock() ==> free)
    && (c'.stage == Claimed ==> Holds(s.registry, c.id, c.ref) && change.registry == Consumed(s.registry, c.id))
    && (change.called ==> c.stage == Claimed && c'.stage == Collecting)
  }

  lemma ChangesAreLocal<S>(s: State<S>, c: Call<S>, free: bool, progress: Progress)
    ensures var r := Advanced(s, c, free, progress); r.Some? ==> IsLocal(s, c, free, r.value)
  {
  }

  lemma CallKeepsRegistry<S>(s: State<S>, task: TaskId, change: Change<S>)
    requires RegistryKept(s) && EngineCallsKept(s) && task in s.calls
    requires IsLocal(s, s.calls[task], LockIsFree(s, s.calls[task].ref), change)
    ensures var t := Then(s, task, change);
      RegistryKept(t) && EngineCallsKept(t) && Later(s, t)
  {
  }

  lemma CallKeepsLocks<S>(s: State<S>, task: TaskId, change: Change<S>)
    requires LocksKept(s) && task in s.calls
    requires IsLocal(s, s.calls[task], LockIsFree(s, s.calls[task].ref), change)
    ensures LocksKept(Then(s, task, change))
  {
  }

  lemma RestKeepsRegistry<S>(s: State<S>, step: Move<S>)
    requires RegistryKept(s) && !step.Surface? && !step.Advance?
    ensures var r := Managed(s, step); r.Some? ==> RegistryKept(r.value) && Later(s, r.value)
  {
  }

  lemma RestKeepsCallsApart<S>(s: State<S>, step: Move<S>)
    requires LocksKept(s) && EngineCallsKept(s) && !step.Surface? && !step.Advance?
    ensures var r := Managed(s, step); r.Some? ==> LocksKept(r.value) && EngineCallsKept(r.value)
  {
    var r := Managed(s, step);
    if r.Some? {
      assert forall t :: t in r.value.calls && t !in s.calls ==> r.value.calls[t].stage == Queued;
    }
  }

  /** Every step that changes the session is a step of the dispatch machine. */
  lemma SessionStep<S>(s: State<S>, step: Move<S>, t: State<S>)
    requires D.Inv(s.d) && Apply(s, step) == Some(t)
    ensures D.Inv(t.d) && Follows(s.d.session, t.d.session)
  {
    match step
    case Surface(inner) => D.StepKeepsInv(s.d, inner, t.d);
    case Request(q) => PauseStep(s, step);
    case Advance(task, progress) =>
      ResumeStep(s, s.calls[task], LockIsFree(s, s.calls[task].ref), progress, t.d);
    case _ =>
  }

  lemma PauseStep<S>(s: State<S>, step: Move<S>)
    requires D.Inv(s.d) && step.Request? && Managed(s, step).Some?
    ensures var t := Managed(s, step).value; D.Inv(t.d) && Follows(s.d.session, t.d.session)
  {
    D.StepKeepsInv(s.d, D.Pause, D.Apply(s.d, D.Pause).value);
  }

  lemma ResumeStep<S>(s: State<S>, c: Call<S>, free: bool, progress: Progress, d: D.State<S>)
    requires D.Inv(s.d) && Advanced(s, c, free, progress).Some?
    requires d == s.d.(session := Advanced(s, c, free, progress).value.session)
    ensures D.Inv(d) && Follows(s.d.session, d.session)
  {
    var resumed := D.Apply(s.d, D.Resume).value;
    D.StepKeepsInv(s.d, D.Resume, resumed);
    assert d == s.d || d == resumed;
  }

  /** A call that did not move keeps what it knows: records stay, generations grow, the dead stay dead. */
  lemma StillKept<S>(s: State<S>, t: State<S>, c: Call<S>)
    requires CallKept(s, c) && Keeps(s, t)
    requires s.d.session.generation <= t.d.session.generation
    requires Alive(t, c) ==> Alive(s, c)
    ensures CallKept(t, c)
  {
  }

  /** Records and continuations are never changed or forgotten. */
  predicate Keeps<S>(s: State<S>, t: State<S>) {
    && (forall id :: id in s.records ==> id in t.records && t.records[id] == s.records[id])
    && (forall r :: r in s.heap ==> r in t.heap && t.heap[r] == s.heap[r])
  }

  /** What a moving call learns, stage by stage. */
  ghost predicate Learns<S>(s: State<S>, c: Call<S>, change: Change<S>) {
    var c' := change.call;
    && (c'.stage == Asked ==>
          && c.id in s.records && c'.seen == s.d.session.generation && s.d.session.control == ResumeRequested)
    && (4 <= Rank(c'.stage) <= 9 ==> 3 <= Rank(c.stage) <= 9 && c'.seen == c.seen)
    && (4 <= Rank(c'.stage) <= 9 && c.stage == Asked && Holds(s.registry, c.id, c.ref) ==>
          c.ref in s.heap && c.id in s.records && Matches(s.heap[c.ref], s.records[c.id]))
    && (c'.stage == Returned ==> c'.generation == change.session.generation && c'.generation % 3 == 0)
    && (7 <= Rank(c'.stage) <= 9 ==> 6 <= Rank(c.stage) <= 9 && c'.generation == c.generation)
    && (c'.stage == Claimed ==> Holds(s.registry, c.id, c.ref))
    && (8 <= Rank(c'.stage) <= 9 ==> Rank(c.stage) >= 7)
    && s.d.session.generation <= change.session.generation
  }

  lemma ChangesLearn<S>(s: State<S>, c: Call<S>, free: bool, progress: Progress)
    requires Consistent(s.d.session)
    ensures var r := Advanced(s, c, free, progress); r.Some? ==> Learns(s, c, r.value)
  {
  }

  lemma LearningKeeps<S>(s: State<S>, task: TaskId, free: bool, change: Change<S>)
    requires task in s.calls && IsLocal(s, s.calls[task], free, change) && Learns(s, s.calls[task], change)
    requires Consistent(s.d.session) && CallKept(s, s.calls[task])
    requires forall id :: id in s.records ==> s.records[id].requested <= s.d.session.generation
    ensures CallKept(Then(s, task, change), change.call)
  {
  }

  predicate RecordsKept<S>(s: State<S>) {
    forall id :: id in s.records ==> s.records[id].requested <= s.d.session.generation && s.records[id].requested % 3 == 1
  }

  lemma RestKeepsRecords<S>(s: State<S>, step: Move<S>)
    requires Consistent(s.d.session) && RecordsKept(s) && !step.Surface? && !step.Advance?
    ensures var r := Managed(s, step); r.Some? ==> RecordsKept(r.value) && Keeps(s, r.value)
  {
  }

  lemma CallKeepsGenerations<S>(s: State<S>, task: TaskId, progress: Progress, change: Change<S>)
    requires Consistent(s.d.session) && GenerationsKept(s) && task in s.calls
    requires Advanced(s, s.calls[task], LockIsFree(s, s.calls[task].ref), progress) == Some(change)
    ensures GenerationsKept(Then(s, task, change))
  {
    var c, free := s.calls[task], LockIsFree(s, s.calls[task].ref);
    ChangesAreLocal(s, c, free, progress);
    ChangesLearn(s, c, free, progress);
    LearningKeeps(s, task, free, change);
    OthersKeepGenerations(s, task, free, change);
  }

  lemma OthersKeepGenerations<S>(s: State<S>, task: TaskId, free: bool, change: Change<S>)
    requires GenerationsKept(s) && task in s.calls && IsLocal(s, s.calls[task], free, change)
    requires s.d.session.generation <= change.session.generation
    requires CallKept(Then(s, task, change), change.call)
    ensures GenerationsKept(Then(s, task, change))
  {
    var t := Then(s, task, change);
    forall u | u in t.calls
      ensures CallKept(t, t.calls[u])
    {
      if u != task {
        StillKept(s, t, s.calls[u]);
      }
    }
  }

  lemma GenerationsStep<S>(s: State<S>, step: Move<S>, t: State<S>)
    requires D.Inv(s.d) && RegistryKept(s) && GenerationsKept(s) && Apply(s, step) == Some(t)
    requires s.d.session.generation <= t.d.session.generation
    ensures GenerationsKept(t)
  {
    match step
    case Advance(task, progress) =>
      CallKeepsGenerations(s, task, progress, Advanced(s, s.calls[task], LockIsFree(s, s.calls[task].ref), progress).value);
    case Surface(_) =>
      forall u | u in t.calls
        ensures CallKept(t, t.calls[u])
      {
        StillKept(s, t, s.calls[u]);
      }
    case _ =>
      RestKeepsRecords(s, step);
      RestKeepsCalls(s, step);
  }

  lemma RestKeepsCalls<S>(s: State<S>, step: Move<S>)
    requires RegistryKept(s) && GenerationsKept(s) && !step.Surface? && !step.Advance?
    requires Managed(s, step).Some? && Keeps(s, Managed(s, step).value)
    requires s.d.session.generation <= Managed(s, step).value.d.session.generation
    ensures forall u :: u in Managed(s, step).value.calls ==> CallKept(Managed(s, step).value, Managed(s, step).value.calls[u])
  {
    var t := Managed(s, step).value;
    forall u | u in t.calls
      ensures CallKept(t, t.calls[u])
    {
      if u in s.calls {
        StillKept(s, t, s.calls[u]);
      }
    }
  }

  lemma StepKeepsInv<S>(s: State<S>, step: Move<S>, t: State<S>)
    requires Inv(s) && Apply(s, step) == Some(t)
    ensures Inv(t)
    ensures Later(s, t) && Follows(s.d.session, t.d.session)
  {
    SessionStep(s, step, t);
    GenerationsStep(s, step, t);
    match step
    case Advance(task, progress) =>
      var change := Advanced(s, s.calls[task], LockIsFree(s, s.calls[task].ref), progress).value;
      ChangesAreLocal(s, s.calls[task], LockIsFree(s, s.calls[task].ref), progress);
      CallKeepsRegistry(s, task, change);
      CallKeepsLocks(s, task, change);
    case Surface(_) =>
    case _ =>
      RestKeepsRegistry(s, step);
      RestKeepsCallsApart(s, step);
  }

  lemma RunKeepsInv<S(!new)>(states: seq<State<S>>, steps: seq<Move<S>>, i: nat)
    requires IsRun(states, steps) && i < |states|
    ensures Inv(states[i])
  {
    var inv := s => Inv(s);
    forall k | 0 <= k < |states| - 1 && inv(states[k])
      ensures inv(states[k + 1])
    {
      StepKeepsInv(states[k], steps[k], states[k + 1]);
    }
    InvariantAlong(states, inv, i);
  }

  // ---- Exactly once ------------------------------------------------------------------------

  lemma OneLater<S(!new)>(states: seq<State<S>>, steps: seq<Move<S>>, k: nat)
    requires IsRun(states, steps) && k < |steps|
    ensures Later(states[k], states[k + 1])
  {
    RunKeepsInv(states, steps, k);
    StepKeepsInv(states[k], steps[k], states[k + 1]);
  }

  lemma ConsumedStays<S(!new)>(states: seq<State<S>>, steps: seq<Move<S>>, i: nat, j: nat)
    requires IsRun(states, steps) && i <= j < |states|
    ensures Later(states[i], states[j])
  {
    var later := (s, t) => Later(s, t);
    forall k | 0 <= k < |states| - 1
      ensures later(states[k], states[k + 1])
    {
      OneLater(states, steps, k);
    }
    OrderAlong(states, later, i, j);
  }

  /**
   * Whatever calls to resume, register and discard run concurrently: the engine is called once at most for an
   * intervention, only for one that is consumed, and what is consumed is never pending again.
   */
  lemma ExactlyOnce<S(!new)>(states: seq<State<S>>, steps: seq<Move<S>>, i: nat, j: nat, id: string)
    requires IsRun(states, steps) && i <= j < |states|
    ensures multiset(states[j].engineCalls)[id] <= 1
    ensures id in states[j].engineCalls ==> id in states[j].registry.consumed
    ensures id in states[i].registry.consumed ==> id !in states[j].registry.pending
    ensures id in states[i].registry.consumed && j < |steps| && steps[j].Register? && steps[j].continuation.id == id
      ==> states[j + 1] == states[j]
  {
    RunKeepsInv(states, steps, j);
    ConsumedStays(states, steps, i, j);
    NoDuplicates(states[j].engineCalls, id);
  }

  lemma {:induction false} NoDuplicates(s: seq<string>, id: string)
    requires forall i, j :: 0 <= i < j < |s| ==> s[i] != s[j]
    ensures multiset(s)[id] <= 1
  {
    if s != [] {
      var last := |s| - 1;
      NoDuplicates(s[..last], id);
      assert s == s[..last] + [s[last]];
      if s[last] == id {
        assert id !in s[..last];
      }
    }
  }

  // ---- Never stale ------------------------------------------------------------------------

  /** Whenever the engine resumes, its generation is past the pause by two and past the suspension. */
  lemma ResumeIsNeverStale<S(!new)>(states: seq<State<S>>, steps: seq<Move<S>>, i: nat, task: TaskId)
    requires IsRun(states, steps) && i < |steps| && steps[i] == Advance(task, CallEngine)
    ensures var s := states[i];
      && task in s.calls
      && var c := s.calls[task];
         c.id in s.records && c.ref in s.heap
         && c.generation >= s.records[c.id].requested + 2
         && c.generation > s.heap[c.ref].suspended
  {
    RunKeepsInv(states, steps, i);
    assert Apply(states[i], steps[i]) == Some(states[i + 1]);
  }

  // ---- A stop ends handoffs -----------------------------------------------------------------

  /** After a stop, a call that has automation's generation got it before. */
  ghost predicate Halts<S>(s: State<S>, t: State<S>) {
    s.d.session.control == Terminal ==>
      && t.d.session.control == Terminal
      && forall u :: u in t.calls && 6 <= Rank(t.calls[u].stage) <= 9 ==> u in s.calls && 6 <= Rank(s.calls[u].stage) <= 9
  }

  lemma StepHalts<S>(s: State<S>, step: Move<S>, t: State<S>)
    requires Apply(s, step) == Some(t)
    ensures Halts(s, t)
  {
    match step
    case Surface(inner) =>
    case Advance(task, progress) => ProgressHalts(s, s.calls[task], LockIsFree(s, s.calls[task].ref), progress);
    case _ =>
  }

  lemma ProgressHalts<S>(s: State<S>, c: Call<S>, free: bool, progress: Progress)
    ensures var r := Advanced(s, c, free, progress);
      r.Some? && s.d.session.control == Terminal ==>
        r.value.session == s.d.session && (6 <= Rank(r.value.call.stage) <= 9 ==> 6 <= Rank(c.stage) <= 9)
  {
  }

  /**
   * Once the session is stopped, no call is let past the return to automation: it is finished, and the continuation
   * it held is given up. Only calls that had automation's generation before may still call the engine.
   */
  lemma StopEndsHandoffs<S(!new)>(states: seq<State<S>>, steps: seq<Move<S>>, i: nat, j: nat, task: TaskId)
    requires IsRun(states, steps) && i < j < |steps| && steps[i].Surface? && steps[i].step.Stop?
    ensures states[j].d.session.control == Terminal
    ensures steps[j] == Advance(task, Transition) ==> GivesUp(states[j], task, states[j + 1])
    ensures steps[j] == Advance(task, AskManager) && task in states[j].calls && states[j].calls[task].id in states[j].records
      ==> GivesUp(states[j], task, states[j + 1])
    ensures steps[j] == Advance(task, CallEngine) ==>
      task in states[i].calls && 6 <= Rank(states[i].calls[task].stage) <= 9
  {
    var later := (s, t) => Halts(s, t);
    forall k | 0 <= k < |states| - 1
      ensures later(states[k], states[k + 1])
    {
      StepHalts(states[k], steps[k], states[k + 1]);
    }
    StopStops(states[i], steps[i], states[i + 1]);
    OrderAlong(states, later, i + 1, j);
    assert Halts(states[i + 1], states[j]);
    assert Apply(states[j], steps[j]) == Some(states[j + 1]);
    if steps[j] == Advance(task, Transition) {
      StoppedTransition(states[j], task, states[j + 1]);
    } else if steps[j] == Advance(task, AskManager) && states[j].calls[task].id in states[j].records {
      StoppedQuestion(states[j], task, states[j + 1]);
    } else if steps[j] == Advance(task, CallEngine) {
      CallsWhenClaimed(states[j], task, states[j + 1]);
    }
  }

  /** The call is finished, and consumes the continuation if it still held it. */
  predicate GivesUp<S>(s: State<S>, task: TaskId, t: State<S>) {
    && task in s.calls && At(t, task, Finished)
    && (Holds(s.registry, s.calls[task].id, s.calls[task].ref) ==> s.calls[task].id in t.registry.consumed)
  }

  lemma StopStops<S>(s: State<S>, step: Move<S>, t: State<S>)
    requires Apply(s, step) == Some(t) && step.Surface? && step.step.Stop?
    ensures t.d.session.control == Terminal && t.calls == s.calls
  {
  }

  lemma StoppedTransition<S>(s: State<S>, task: TaskId, t: State<S>)
    requires Apply(s, Advance(task, Transition)) == Some(t) && s.d.session.control == Terminal
    ensures GivesUp(s, task, t)
  {
  }

  lemma StoppedQuestion<S>(s: State<S>, task: TaskId, t: State<S>)
    requires Apply(s, Advance(task, AskManager)) == Some(t) && s.d.session.control == Terminal
    requires s.calls[task].id in s.records
    ensures GivesUp(s, task, t)
  {
  }

  lemma CallsWhenClaimed<S>(s: State<S>, task: TaskId, t: State<S>)
    requires Apply(s, Advance(task, CallEngine)) == Some(t)
    ensures At(s, task, Claimed)
  {
  }

  // ---- What comes before the engine's call ---------------------------------------------------

  predicate Reached<S>(s: State<S>, task: TaskId, rank: nat) {
    task in s.calls && rank <= Rank(s.calls[task].stage) <= 9
  }

  /** A call that has got so far got there by some step. */
  lemma Crossing<S(!new)>(states: seq<State<S>>, steps: seq<Move<S>>, i: nat, task: TaskId, rank: nat) returns (j: nat)
    requires IsRun(states, steps) && i < |states| && Reached(states[i], task, rank) && rank > 0
    ensures j < i && !Reached(states[j], task, rank) && Reached(states[j + 1], task, rank)
  {
    j := HoldsFrom(states, s => Reached(s, task, rank), i);
  }

  /** The step that takes a call to a stage, and what it found: nothing else leads there. */
  ghost predicate Passes<S>(s: State<S>, step: Move<S>, task: TaskId, stage: Stage)
    requires task in s.calls
  {
    var c := s.calls[task];
    match stage
    case Asked => step == Advance(task, AskManager) && c.id in s.records && s.d.session.control == ResumeRequested
    case Validating =>
      && step == Advance(task, Match) && c.id in s.records
      && c.id in s.registry.pending && s.registry.pending[c.id] in s.heap
      && var (pending, request) := (s.heap[s.registry.pending[c.id]], s.records[c.id].request);
      && request.runId == pending.runId && request.sessionId == pending.sessionId && request.surface == pending.surface
      && s.records[c.id].requested > pending.suspended
    case Validated => step == Advance(task, Judge(true))
    case Returned => step == Advance(task, Transition) && Resumed(s.d.session, s.d.runId).Ok?
    case Claimed => step == Advance(task, Claim) && Holds(s.registry, c.id, c.ref)
    case _ => true
  }

  lemma OnlyThisWay<S>(s: State<S>, step: Move<S>, t: State<S>, task: TaskId, rank: nat)
    requires Apply(s, step) == Some(t) && 3 <= rank <= 7 && !Reached(s, task, rank) && Reached(t, task, rank)
    ensures task in s.calls && Rank(s.calls[task].stage) == rank - 1 && Passes(s, step, task, t.calls[task].stage)
    ensures Rank(t.calls[task].stage) == rank
  {
    OthersStay(s, step, t, task);
    ProgressPasses(s, task, step.progress, rank);
  }

  /** A call moves by its own steps only. */
  lemma OthersStay<S>(s: State<S>, step: Move<S>, t: State<S>, task: TaskId)
    requires Apply(s, step) == Some(t) && task in t.calls
    ensures (step.Advance? && step.task == task) || t.calls[task].stage == Queued
         || (task in s.calls && t.calls[task] == s.calls[task])
  {
  }

  lemma ProgressPasses<S>(s: State<S>, task: TaskId, progress: Progress, rank: nat)
    requires task in s.calls && 3 <= rank <= 7 && !(rank <= Rank(s.calls[task].stage) <= 9)
    ensures var r := Advanced(s, s.calls[task], LockIsFree(s, s.calls[task].ref), progress);
      r.Some? && rank <= Rank(r.value.call.stage) <= 9 ==>
        && Rank(s.calls[task].stage) == rank - 1 && Rank(r.value.call.stage) == rank
        && Passes(s, Advance(task, progress), task, r.value.call.stage)
  {
  }

  /** The steps of one call, in order, with what each found. */
  ghost predicate WentThrough<S>(
    states: seq<State<S>>, steps: seq<Move<S>>, task: TaskId, asked: nat, matched: nat, judged: nat, returned: nat, claimed: nat)
  {
    && asked < matched < judged < returned < claimed < |steps| < |states|
    && task in states[asked].calls && task in states[matched].calls && task in states[judged].calls
    && task in states[returned].calls && task in states[claimed].calls
    && Passes(states[asked], steps[asked], task, Asked) && Passes(states[matched], steps[matched], task, Validating)
    && Passes(states[judged], steps[judged], task, Validated) && Passes(states[returned], steps[returned], task, Returned)
    && Passes(states[claimed], steps[claimed], task, Claimed)
  }

  lemma CameBy<S(!new)>(states: seq<State<S>>, steps: seq<Move<S>>, i: nat, task: TaskId, rank: nat) returns (j: nat)
    requires IsRun(states, steps) && i < |states| && 3 <= rank <= 7
    requires task in states[i].calls && Rank(states[i].calls[task].stage) == rank
    ensures j < i && task in states[j].calls && Rank(states[j].calls[task].stage) == rank - 1
    ensures Passes(states[j], steps[j], task, states[i].calls[task].stage)
  {
    j := Crossing(states, steps, i, task, rank);
    assert Apply(states[j], steps[j]) == Some(states[j + 1]);
    OnlyThisWay(states[j], steps[j], states[j + 1], task, rank);
    RankTells(states[j + 1].calls[task].stage, states[i].calls[task].stage);
  }

  lemma RankTells(a: Stage, b: Stage)
    requires Rank(a) == Rank(b)
    ensures a == b
  {
  }

  /**
   * The engine is called only after the manager saw the session waiting, the record matched the continuation, the
   * validator answered VALID, the session went back to automation, and the continuation was claimed, in this order.
   */
  lemma EngineCallIsEarned<S(!new)>(states: seq<State<S>>, steps: seq<Move<S>>, i: nat, task: TaskId)
    returns (asked: nat, matched: nat, judged: nat, returned: nat, claimed: nat)
    requires IsRun(states, steps) && i < |steps| && steps[i] == Advance(task, CallEngine)
    ensures claimed < i && WentThrough(states, steps, task, asked, matched, judged, returned, claimed)
  {
    assert Apply(states[i], steps[i]) == Some(states[i + 1]);
    CallsWhenClaimed(states[i], task, states[i + 1]);
    claimed := CameBy(states, steps, i, task, 7);
    returned := CameBy(states, steps, claimed, task, 6);
    judged := CameBy(states, steps, returned, task, 5);
    matched := CameBy(states, steps, judged, task, 4);
    asked := CameBy(states, steps, matched, task, 3);
  }
}
