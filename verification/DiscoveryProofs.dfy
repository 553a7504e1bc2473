/** A successful discovery leaves a trace that can be compiled. */
module DiscoveryProofs {
  import opened Contracts
  import opened Text
  import opened Gateway
  import opened Validator
  import opened Discovery

  lemma {:induction false} ActsOfConcat(a: seq<Entry>, b: seq<Entry>)
    ensures Acts(a + b) == Acts(a) + Acts(b)
  {
    if a == [] {
      assert a + b == b;
    } else {
      var rest := a[1..];
      assert (a + b)[0] == a[0] && (a + b)[1..] == rest + b;
      ActsOfConcat(rest, b);
      assert Acts(a + b) == ActOf(a[0]) + (Acts(rest) + Acts(b));
    }
  }

  lemma {:induction false} ActsAreActs(trace: seq<Entry>)
    ensures forall e :: e in Acts(trace) <==> e in trace && e.ActEntry?
    ensures |Acts(trace)| <= |trace|
  {
    if trace != [] {
      ActsAreActs(trace[1..]);
      assert trace == [trace[0]] + trace[1..];
    }
  }

  predicate SpansValue(span: Option<Span>, goal: string, value: string) {
    && span.Some? && span.value.start < span.value.end <= |goal|
    && goal[span.value.start..span.value.end] == value
  }

  /** The entry tells what was executed; a fill's value is the part of the goal its source points at. */
  predicate Tells(e: Entry, d: Dispatched, goal: string) {
    && e.ActEntry? && e.kind == d.action.Kind() && e.target == d.target
    && e.outcome == d.outcome == Executed
    && (d.action.Fill? ==> SpansValue(e.source, goal, d.action.value))
    && (d.action.Click? ==> e.source == None)
  }

  ghost predicate TellsAll(acts: seq<Entry>, log: seq<Dispatched>, goal: string) {
    |acts| == |log| && forall k :: 0 <= k < |log| ==> Tells(acts[k], log[k], goal)
  }

  predicate OnlyActsAndInvalid(trace: seq<Entry>) {
    forall k :: 0 <= k < |trace| ==> trace[k].ActEntry? || trace[k].InvalidEntry?
  }

  // ---- Values filled --------------------------------------------------------------------------

  /** The value of the latest fill of a target. */
  function LatestFill(log: seq<Dispatched>, target: Target): Option<string> {
    if log == [] then None
    else
      var last := log[|log| - 1];
      if last.target == target && last.action.Fill? then Some(last.action.value)
      else LatestFill(log[..|log| - 1], target)
  }

  ghost predicate FillsAreLatest(filled: seq<Filled>, log: seq<Dispatched>) {
    && (forall i, j :: 0 <= i < j < |filled| ==> filled[i].target != filled[j].target)
    && (forall i :: 0 <= i < |filled| ==> LatestFill(log, filled[i].target) == Some(filled[i].value))
  }

  lemma {:induction false} RefillReplaces(filled: seq<Filled>, target: Target, value: string)
    requires forall i, j :: 0 <= i < j < |filled| ==> filled[i].target != filled[j].target
    ensures var r := Refill(filled, target, value);
      && (forall i, j :: 0 <= i < j < |r| ==> r[i].target != r[j].target)
      && (forall f :: f in r ==> f == Filled(target, value) || (f in filled && f.target != target))
  {
    if filled != [] && filled[0].target != target {
      RefillReplaces(filled[1..], target, value);
      var r := Refill(filled[1..], target, value);
      assert forall j :: 0 <= j < |r| ==> r[j] in r;
      assert forall f :: f in filled[1..] ==> f.target != filled[0].target;
    }
  }

  lemma FillKeepsLatest(filled: seq<Filled>, log: seq<Dispatched>, target: Target, value: string, outcome: GatewayOutcome)
    requires FillsAreLatest(filled, log)
    ensures FillsAreLatest(Refill(filled, target, value), log + [Dispatched(Fill(value), target, outcome)])
  {
    RefillReplaces(filled, target, value);
    var r, log' := Refill(filled, target, value), log + [Dispatched(Fill(value), target, outcome)];
    assert log'[..|log' | - 1] == log;
    forall i | 0 <= i < |r|
      ensures LatestFill(log', r[i].target) == Some(r[i].value)
    {
      assert r[i] in r;
    }
  }

  lemma ClickKeepsLatest(filled: seq<Filled>, log: seq<Dispatched>, d: Dispatched)
    requires FillsAreLatest(filled, log) && d.action.Click?
    ensures FillsAreLatest(filled, log + [d])
  {
    assert (log + [d])[..|log + [d]| - 1] == log;
  }

  lemma {:induction false} SourceIsLatest(filled: seq<Filled>, log: seq<Dispatched>, text: string)
    requires forall i :: 0 <= i < |filled| ==> LatestFill(log, filled[i].target) == Some(filled[i].value)
    ensures var t := MatchingSource(filled, text); t.Some? ==> LatestFill(log, t.value) == Some(text)
  {
    if filled != [] && filled[0].value != text {
      SourceIsLatest(filled[1..], log, text);
    }
  }

  /** The source of a text is the first target, in the order of first fills, that holds it. */
  lemma {:induction false} SourceIsFirst(filled: seq<Filled>, text: string)
    ensures var t := MatchingSource(filled, text);
      if t.None? then forall k :: 0 <= k < |filled| ==> filled[k].value != text
      else exists k :: 0 <= k < |filled| && filled[k] == Filled(t.value, text) && forall j :: 0 <= j < k ==> filled[j].value != text
  {
    if filled != [] && filled[0].value != text {
      SourceIsFirst(filled[1..], text);
      if MatchingSource(filled, text).Some? {
        var k :| 0 <= k < |filled[1..]| && filled[1..][k] == Filled(MatchingSource(filled, text).value, text)
                 && forall j :: 0 <= j < k ==> filled[1..][j].value != text;
        assert filled[k + 1] == filled[1..][k];
        assert forall j :: 0 < j < k + 1 ==> filled[j] == filled[1..][j - 1];
      } else {
        assert forall k :: 0 < k < |filled| ==> filled[k] == filled[1..][k - 1];
      }
    }
  }

  // ---- What the loop keeps ---------------------------------------------------------------------

  ghost predicate Kept<W>(x: Explorer<W>, q: Request, turn: nat, p: Progress<W>) {
    && (forall k :: 0 <= k < |p.log| ==> p.log[k].target in x.trusted)
    && p.actions == |p.log| <= MaxActions && p.invalid < MaxInvalid
    && |p.trace| + 1 == turn
    && OnlyActsAndInvalid(p.trace) && RemembersLast(p)
    && TellsAll(Acts(p.trace), p.log, q.goal)
    && FillsAreLatest(p.filled, p.log)
  }

  /** The attempt that is remembered is the last one dispatched. */
  predicate RemembersLast<W>(p: Progress<W>) {
    && (p.previous.None? <==> p.log == [])
    && (p.log != [] ==>
          p.previous.value.action == p.log[|p.log| - 1].action && p.previous.value.target == p.log[|p.log| - 1].target)
  }

  /** An action is dispatched again right after itself only when what is seen has changed in between. */
  lemma RepeatsNeedChange<W>(
    x: Explorer<W>, q: Request, turn: nat, action: Action, target: Target, p: Progress<W>, s: Snapshot)
    requires Kept(x, q, turn, p) && p.log != []
    requires action == p.log[|p.log| - 1].action && target == p.log[|p.log| - 1].target
    ensures var t := Act(x, q, turn, action, target, p, s);
      if p.previous.value.snapshot == s
      then t.GoesOn? ==> t.next.log == p.log
      else t.GoesOn? && t.next.log != p.log ==> t.next.previous.value.snapshot == s
  {
  }

  lemma SpanOfGroundedValue(action: Action, goal: string)
    requires action.Fill? && action.value != "" && Contains(goal, action.value)
    ensures SpansValue(GoalSpan(action, goal), goal, action.value)
  {
    var i :| 0 <= i <= |goal| && OccursAt(goal, action.value, i);
  }

  lemma NoteKeeps(trace: seq<Entry>, e: Entry)
    ensures Acts(trace + [e]) == Acts(trace) + (if e.ActEntry? then [e] else [])
  {
    ActsOfConcat(trace, [e]);
    assert Acts([e]) == if e.ActEntry? then [e] else [];
  }

  lemma RejectKeeps<W>(x: Explorer<W>, q: Request, turn: nat, p: Progress<W>, rejection: Rejection, last: Snapshot)
    requires Kept(x, q, turn, p)
    ensures var t := Reject(p, turn, rejection, last);
      if t.GoesOn? then Kept(x, q, turn + 1, t.next) else t.run.result.outcome == GaveUp
  {
    NoteKeeps(p.trace, InvalidEntry(turn, rejection));
  }

  lemma DispatchKeeps<W>(x: Explorer<W>, q: Request, turn: nat, action: Action, target: Target, p: Progress<W>, s: Snapshot)
    requires Kept(x, q, turn, p) && ValidateAction(action, target, q.goal, x.trusted).None? && p.actions < MaxActions
    ensures var (next, g) := Dispatch(x, q, turn, action, target, p, s);
      g.outcome == Executed ==> Kept(x, q, turn + 1, next)
  {
    var g := x.engine.act(p.world, action, target);
    NoteKeeps(p.trace, ActEntry(turn, action.Kind(), target, GoalSpan(action, q.goal), g.outcome, g.reason));
    match action
    case Fill(value) =>
      SpanOfGroundedValue(action, q.goal);
      FillKeepsLatest(p.filled, p.log, target, value, g.outcome);
    case Click =>
      ClickKeepsLatest(p.filled, p.log, Dispatched(action, target, g.outcome));
  }

  lemma ActKeeps<W>(x: Explorer<W>, q: Request, turn: nat, action: Action, target: Target, p: Progress<W>, s: Snapshot)
    requires Kept(x, q, turn, p)
    ensures var t := Act(x, q, turn, action, target, p, s);
      if t.GoesOn? then Kept(x, q, turn + 1, t.next) else t.run.result.outcome != Discovered
  {
    var rejection := ValidateAction(action, target, q.goal, x.trusted);
    if rejection.Some? {
      RejectKeeps(x, q, turn, p, rejection.value, s);
    } else if p.actions < MaxActions {
      DispatchKeeps(x, q, turn, action, target, p, s);
    }
  }

  // ---- What a success means ----------------------------------------------------------------------

  /** The evidence is true of the snapshot; where it names a source, the text is what was last filled there. */
  predicate EvidenceHolds(v: Verified, s: Snapshot, log: seq<Dispatched>, fingerprint: string -> string) {
    var text := CurrentText(v.target, s);
    && text.Some? && v.fingerprint == fingerprint(text.value)
    && (v.source.Some? ==> LatestFill(log, v.source.value) == text)
  }

  function EvidenceTargets(evidence: seq<Verified>): seq<Target> {
    seq(|evidence|, i requires 0 <= i < |evidence| => evidence[i].target)
  }

  ghost predicate Compilable<W>(x: Explorer<W>, q: Request, r: Run<W>) {
    var d := r.result;
    && d.reason == Completed && 0 < d.turns <= Limit(q) && d.turns <= MaxTurns && d.actions <= MaxActions
    && d.actions == |r.log| && TellsAll(Acts(d.trace), r.log, q.goal)
    && (forall k :: 0 <= k < |r.log| ==> r.log[k].target in x.trusted)
    && d.trace != [] && |d.trace| == d.turns && d.trace[|d.trace| - 1] == CompleteEntry(d.turns)
    && OnlyActsAndInvalid(d.trace[..|d.trace| - 1])
    && Distinct(EvidenceTargets(d.evidence))
    && (forall i :: 0 <= i < |d.evidence| ==>
          && d.evidence[i].target in x.trusted && EvidenceHolds(d.evidence[i], r.last, r.log, x.fingerprint))
    && (forall t :: t in q.required ==> t in EvidenceTargets(d.evidence))
    && (exists i :: 0 <= i < |d.evidence| && TextFromGoal(d.evidence[i], r.last, q.goal))
  }

  predicate TextFromGoal(v: Verified, s: Snapshot, goal: string) {
    CurrentText(v.target, s).Some? && FromGoal(CurrentText(v.target, s).value, goal)
  }

  lemma ConcludeIsSound<W>(x: Explorer<W>, q: Request, turn: nat, claims: seq<Claim>, p: Progress<W>, s: Snapshot)
    requires Kept(x, q, turn, p) && 0 < turn <= Limit(q)
    ensures var t := Conclude(x, q, turn, claims, p, s);
      if t.GoesOn? then Kept(x, q, turn + 1, t.next)
      else t.run.result.outcome == Discovered ==> Compilable(x, q, t.run)
  {
    if !Grounded(claims, s, q.goal, x.trusted) {
      RejectKeeps(x, q, turn, p, CompletionNotGrounded, s);
      return;
    }
    var evidence := EvidenceOf(claims, p.filled, x.fingerprint);
    if !(q.required <= set i | 0 <= i < |evidence| :: evidence[i].target) {
      RejectKeeps(x, q, turn, p, CompletionEvidenceMissing, s);
      return;
    }
    NoteKeeps(p.trace, CompleteEntry(turn));
    GroundedEvidenceHolds(x, q, claims, p.filled, p.log, s);
  }

  lemma GroundedEvidenceHolds<W>(
    x: Explorer<W>, q: Request, claims: seq<Claim>, filled: seq<Filled>, log: seq<Dispatched>, s: Snapshot)
    requires Grounded(claims, s, q.goal, x.trusted) && FillsAreLatest(filled, log)
    ensures var evidence := EvidenceOf(claims, filled, x.fingerprint);
      && EvidenceTargets(evidence) == ClaimTargets(claims)
      && (forall i :: 0 <= i < |evidence| ==>
            evidence[i].target in x.trusted && EvidenceHolds(evidence[i], s, log, x.fingerprint))
      && (forall i :: 0 <= i < |evidence| ==> evidence[i].target in EvidenceTargets(evidence))
      && (exists i :: 0 <= i < |evidence| && TextFromGoal(evidence[i], s, q.goal))
  {
    var evidence := EvidenceOf(claims, filled, x.fingerprint);
    forall i | 0 <= i < |evidence|
      ensures EvidenceHolds(evidence[i], s, log, x.fingerprint)
      ensures evidence[i].target in EvidenceTargets(evidence)
    {
      SourceIsLatest(filled, log, claims[i].text);
      assert EvidenceTargets(evidence)[i] == evidence[i].target;
    }
    var i :| 0 <= i < |claims| && FromGoal(claims[i].text, q.goal);
    assert TextFromGoal(evidence[i], s, q.goal);
  }

  lemma TurnIsSound<W>(x: Explorer<W>, q: Request, turn: nat, reply: Reply, p: Progress<W>)
    requires Kept(x, q, turn, p) && 0 < turn <= Limit(q)
    ensures var t := TakeTurn(x, q, turn, reply, p);
      if t.GoesOn? then Kept(x, q, turn + 1, t.next)
      else t.run.result.outcome == Discovered ==> Compilable(x, q, t.run)
  {
    var c := x.engine.look(p.world);
    var p' := p.(world := c.world);
    if c.snapshot.Ok? {
      match reply
      case Unreadable => RejectKeeps(x, q, turn, p', UnreadableReply, c.snapshot.value);
      case Decided(Complete(claims)) => ConcludeIsSound(x, q, turn, claims, p', c.snapshot.value);
      case Decided(ActOn(action, target)) => ActKeeps(x, q, turn, action, target, p', c.snapshot.value);
      case _ =>
    }
  }

  lemma {:induction false} LoopIsSound<W>(x: Explorer<W>, q: Request, replies: nat -> Reply, turn: nat, p: Progress<W>)
    requires Kept(x, q, turn, p) && 0 < turn <= Limit(q) + 1
    ensures var r := From(x, q, replies, turn, p); r.result.outcome == Discovered ==> Compilable(x, q, r)
    decreases Limit(q) + 1 - turn
  {
    if turn <= Limit(q) {
      TurnIsSound(x, q, turn, replies(turn), p);
      var t := TakeTurn(x, q, turn, replies(turn), p);
      if t.GoesOn? {
        LoopIsSound(x, q, replies, turn + 1, t.next);
      }
    }
  }

  /**
   * Whatever the model replies and the surface does, a successful discovery is compilable: every action was
   * executed and is told by its entry, every filled value is a part of the goal, the bounds are kept, and the
   * completion is verified on the last snapshot for distinct targets that include the required ones.
   */
  lemma SuccessIsCompilable<W>(x: Explorer<W>, q: Request, replies: nat -> Reply, w: W)
    ensures var r := Discover(x, q, replies, w); r.result.outcome == Discovered ==> Compilable(x, q, r)
  {
    if q.required <= x.trusted {
      LoopIsSound(x, q, replies, 1, Begin(w));
    }
  }
}
