/**
 * Why freshness needs one live continuation: asking for a pause twice is allowed, so one suspended replay can be
 * registered under two identifiers. Both are validated on the surface handed back; the first to resume changes it,
 * and the second resumes, at the same generation, from a surface it never validated.
 */
module TwoContinuations {
  import opened Contracts
  import opened SessionControl
  import D = Dispatch
  import I = Interventions
  import opened Registry
  import opened Handoff
  import opened Freshness

  type St = State<bool>

  /** `s` ends a run in which the replay chain is the only automation. */
  ghost predicate Reached(s: St) {
    exists states: seq<St>, steps: seq<Move<bool>> :: ChainRunTo(states, steps, s)
  }

  ghost predicate ChainRunTo(states: seq<St>, steps: seq<Move<bool>>, s: St) {
    && IsRun(states, steps) && states[|states| - 1] == s
    && forall k :: 0 <= k < |steps| ==> ChainOnly(states[k], steps[k])
  }

  lemma Extend(s: St, step: Move<bool>, t: St)
    requires Reached(s) && Apply(s, step) == Some(t) && ChainOnly(s, step)
    ensures Reached(t)
  {
    var states, steps :| ChainRunTo(states, steps, s);
    var states', steps' := states + [t], steps + [step];
    forall k | 0 <= k < |steps'|
      ensures Apply(states'[k], steps'[k]) == Some(states'[k + 1]) && ChainOnly(states'[k], steps'[k])
    {
      if k < |steps| {
        assert Apply(states[k], steps[k]) == Some(states[k + 1]) && ChainOnly(states[k], steps[k]);
      }
    }
    assert ChainRunTo(states', steps', t);
  }

  // ---- The stretches of the run -------------------------------------------------------------

  const Start: St :=
    State(
      D.State(Opened("session", "run"), "run", None, map[], false, false, 0, []),
      Table(map[], {}), map[], map[], map[], [])

  function Suspended(id: string): Continuation { Continuation(id, "run", "session", "page", 0) }

  function RecordOf(id: string): I.Intervention { I.Intervention(I.Request(id, "run", "session", "page"), 1) }

  const ReturnedSession: SessionState := SessionState("session", ResumeRequested, Operator("teller", None), 2)

  function With(session: SessionState, records: map<string, I.Intervention>): St {
    State(
      D.State(session, "run", None, map[], false, false, 0, []),
      Table(map["a" := 0, "b" := 1], {}), map[0 := Suspended("a"), 1 := Suspended("b")], records, map[], [])
  }

  /** One result suspended under two identifiers, then handed to an operator and back. */
  const HandedBack: St := With(ReturnedSession, map["a" := RecordOf("a"), "b" := RecordOf("b")])

  lemma RegisterTwice()
    ensures Reached(With(Opened("session", "run"), map[]))
  {
    assert ChainRunTo([Start], [], Start);
    var s1 := Apply(Start, Register(0, Suspended("a"))).value;
    Extend(Start, Register(0, Suspended("a")), s1);
    Extend(s1, Register(1, Suspended("b")), With(Opened("session", "run"), map[]));
  }

  lemma SuspendTwice()
    ensures Reached(HandedBack)
  {
    RegisterTwice();
    var first, paused := Opened("session", "run"), SessionState("session", PauseRequested, Automation("run"), 1);
    var granted := paused.(control := OperatorControlled, owner := Operator("teller", None), generation := 2);
    var both := map["a" := RecordOf("a"), "b" := RecordOf("b")];
    Extend(With(first, map[]), Request(RecordOf("a").request), With(paused, map["a" := RecordOf("a")]));
    Extend(With(paused, map["a" := RecordOf("a")]), Request(RecordOf("b").request), With(paused, both));
    Extend(With(paused, both), Surface(D.Grant("teller", None)), With(granted, both));
    Extend(With(granted, both), Surface(D.Return), HandedBack);
  }

  function Put(s: St, task: TaskId, c: Call<bool>): St { s.(calls := s.calls[task := c]) }

  lemma Lock(s: St, task: TaskId, id: string, ref: Ref) returns (t: St)
    requires Reached(s) && task !in s.calls && Holds(s.registry, id, ref) && LockIsFree(s, ref)
    ensures Reached(t) && t == Put(s, task, Call(Locked, id, ref, 0, 0, [], []))
  {
    t := Put(s, task, Call(Queued, id, ref, 0, 0, [], []));
    Extend(s, Enter(task, id), t);
    t := Go(t, task, TakeLock, Call(Locked, id, ref, 0, 0, [], []));
  }

  /** A call that finds its continuation pending and the session waiting for the resume check. */
  lemma Ask(s: St, task: TaskId, id: string, ref: Ref) returns (t: St)
    requires Reached(s) && task !in s.calls && Holds(s.registry, id, ref) && LockIsFree(s, ref)
    requires id in s.records && s.d.session.control == ResumeRequested
    ensures Reached(t) && t == Put(s, task, Call(Asked, id, ref, s.d.session.generation, 0, [], []))
  {
    t := Lock(s, task, id, ref);
    t := Go(t, task, Recheck, Call(Rechecked, id, ref, 0, 0, [], []));
    t := Go(t, task, AskManager, Call(Asked, id, ref, s.d.session.generation, 0, [], []));
  }

  /** It then validates the continuation on the surface as it is. */
  lemma Validate(s: St, task: TaskId) returns (t: St)
    requires Reached(s) && task in s.calls && s.calls[task].stage == Asked && s.calls[task].looked == []
    requires var c := s.calls[task];
      && Holds(s.registry, c.id, c.ref) && c.id in s.records && c.ref in s.heap && Matches(s.heap[c.ref], s.records[c.id])
    ensures Reached(t) && t == Put(s, task, s.calls[task].(stage := Validated, looked := [s.d.surface]))
  {
    var c := s.calls[task];
    assert c.looked + [s.d.surface] == [s.d.surface];
    t := Go(s, task, Match, c.(stage := Validating));
    t := Go(t, task, ReadToValidate, c.(stage := Validating, looked := [s.d.surface]));
    t := Go(t, task, Judge(true), c.(stage := Validated, looked := [s.d.surface]));
  }

  /** A step of one call that changes nothing but the call. */
  lemma Go(s: St, task: TaskId, progress: Progress, c: Call<bool>) returns (t: St)
    requires Reached(s) && task in s.calls
    requires Advanced(s, s.calls[task], LockIsFree(s, s.calls[task].ref), progress)
          == Some(Change(c, s.registry, s.d.session, false))
    ensures Reached(t) && t == Put(s, task, c)
  {
    t := Put(s, task, c);
    Extend(s, Advance(task, progress), t);
  }

  /** A validated call that resumes automation, or finds it resumed, and calls the engine. */
  lemma ResumeCall(s: St, task: TaskId) returns (t: St)
    requires Reached(s) && task in s.calls && s.calls[task].stage == Validated
    requires Holds(s.registry, s.calls[task].id, s.calls[task].ref) && Resumed(s.d.session, s.d.runId).Ok?
    ensures Reached(t)
    ensures var c, session := s.calls[task], Resumed(s.d.session, s.d.runId).value;
      t == Put(s, task, c.(stage := Collecting, generation := session.generation)).(
             d := s.d.(session := session), registry := Consumed(s.registry, c.id), engineCalls := s.engineCalls + [c.id])
  {
    var c, session := s.calls[task], Resumed(s.d.session, s.d.runId).value;
    var returned := c.(stage := Returned, generation := session.generation);
    var claimed, collecting := returned.(stage := Claimed), returned.(stage := Collecting);
    t := GoOn(s, task, Transition, Change(returned, s.registry, session, false));
    t := GoOn(t, task, Claim, Change(claimed, Consumed(s.registry, c.id), session, false));
    t := GoOn(t, task, CallEngine, Change(collecting, Consumed(s.registry, c.id), session, true));
  }

  lemma GoOn(s: St, task: TaskId, progress: Progress, change: Change<bool>) returns (t: St)
    requires Reached(s) && task in s.calls
    requires Advanced(s, s.calls[task], LockIsFree(s, s.calls[task].ref), progress) == Some(change)
    ensures Reached(t) && t == Then(s, task, change)
  {
    t := Then(s, task, change);
    Extend(s, Advance(task, progress), t);
  }

  /** A dispatch of a running resumption, which changes the surface. */
  lemma DispatchOnce(s: St, running: TaskId, task: D.TaskId, surface: bool) returns (t: St)
    requires Reached(s) && At(s, running, Running) && s.d.lock == None && task !in s.d.tasks
    requires s.d.session.control == AutomationControlled && s.d.session.owner.Automation?
    requires s.calls[running].generation == s.d.session.generation
    ensures Reached(t)
    ensures t.d.surface == surface && t.d.session == s.d.session && t.d.runId == s.d.runId && t == s.(d := t.d)
  {
    var client, g := AutomationClient, s.d.session.generation;
    var m1 := Surface(D.Arrive(task, client, g));
    var s1 := Apply(s, m1).value;
    Extend(s, m1, s1);
    var s2 := Apply(s1, Surface(D.Acquire(task))).value;
    Extend(s1, Surface(D.Acquire(task)), s2);
    assert At(s2, running, Running) && s2.calls[running].generation == g;
    var s3 := Apply(s2, Surface(D.Check(task))).value;
    Extend(s2, Surface(D.Check(task)), s3);
    t := Apply(s3, Surface(D.Affect(task, surface))).value;
    Extend(s3, Surface(D.Affect(task, surface)), t);
  }

  const Seen0 := Call(Validated, "a", 0, 2, 0, [false], [])
  const Seen1 := Call(Validated, "b", 1, 2, 0, [false], [])

  lemma ValidateBoth() returns (s: St)
    ensures Reached(s) && s == Put(Put(HandedBack, 0, Seen0), 1, Seen1)
  {
    SuspendTwice();
    s := Ask(HandedBack, 0, "a", 0);
    s := Validate(s, 0);
    s := Ask(s, 1, "b", 1);
    s := Validate(s, 1);
  }

  /** The first call resumes and changes the surface. */
  lemma ResumeFirst(s: St) returns (t: St)
    requires Reached(s) && s == Put(Put(HandedBack, 0, Seen0), 1, Seen1)
    ensures Reached(t) && t.d.surface && t.d.session == Resumed(ReturnedSession, "run").value && t.d.runId == "run"
    ensures 1 in t.calls && t.calls[1] == Seen1 && Holds(t.registry, "b", 1)
  {
    t := ResumeCall(s, 0);
    t := Go(t, 0, Begin, t.calls[0].(stage := Running));
    t := DispatchOnce(t, 0, 0, true);
  }

  /** The run exists: the second continuation validated one surface, and resumes from another. */
  lemma FreshnessNeedsOneContinuation() returns (s: St)
    ensures Reached(s) && At(s, 1, Collecting)
    ensures s.d.session.generation == s.calls[1].generation
    ensures s.calls[1].looked == [false] && s.calls[1].again == [true]
  {
    s := ValidateBoth();
    s := ResumeFirst(s);
    s := ResumeCall(s, 1);
    assert s.calls[1].again + [s.d.surface] == [true];
    s := Go(s, 1, ReadToResume, s.calls[1].(again := [true]));
  }
}
