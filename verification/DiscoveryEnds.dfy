/** What the trace of a discovery tells: of every turn what the model answered, and at the end why it ended. */
module DiscoveryEnds {
  import opened Contracts
  import opened Text
  import G = Gateway
  import opened Discovery
  import opened DiscoveryProofs

  function TurnOf(e: Entry): nat {
    match e
    case ActEntry(turn, _, _, _, _, _) => turn
    case CompleteEntry(turn) => turn
    case HelpEntry(turn) => turn
    case DeclineEntry(turn) => turn
    case InvalidEntry(turn, _) => turn
  }

  /** A proposed action that discovery may dispatch: a trusted target, and for a fill a value out of the goal. */
  predicate Acceptable(decision: Decision, goal: string, trusted: set<Target>) {
    decision.ActOn? && decision.target in trusted && (decision.action.Fill? ==> FromGoal(decision.action.value, goal))
  }

  /** Why a reply was refused. */
  ghost predicate RefusedFor(rejection: Rejection, reply: Reply, q: Request, trusted: set<Target>) {
    match rejection
    case UnreadableReply => reply.Unreadable?
    case UnknownTarget => reply.Decided? && reply.decision.ActOn? && reply.decision.target !in trusted
    case UngroundedFillValue =>
      && reply.Decided? && reply.decision.ActOn? && reply.decision.target in trusted
      && reply.decision.action.Fill? && !FromGoal(reply.decision.action.value, q.goal)
    case CompletionNotGrounded => reply.Decided? && reply.decision.Complete?
    case CompletionEvidenceMissing =>
      reply.Decided? && reply.decision.Complete? && exists t :: t in q.required && t !in ClaimTargets(reply.decision.claims)
  }

  /** The entry tells what the model answered in its turn. */
  ghost predicate EntryTold<W>(x: Explorer<W>, q: Request, replies: nat -> Reply, e: Entry) {
    var reply := replies(TurnOf(e));
    match e
    case ActEntry(_, kind, target, _, _, _) =>
      reply.Decided? && Acceptable(reply.decision, q.goal, x.trusted) && reply.decision.target == target
      && reply.decision.action.Kind() == kind
    case CompleteEntry(_) => reply.Decided? && reply.decision.Complete?
    case HelpEntry(_) => reply.Decided? && reply.decision.AskForHelp?
    case DeclineEntry(_) => reply.Decided? && reply.decision.Decline?
    case InvalidEntry(_, rejection) => RefusedFor(rejection, reply, q, x.trusted)
  }

  /** One entry per turn, each telling the model's answer. */
  ghost predicate TraceTold<W>(x: Explorer<W>, q: Request, replies: nat -> Reply, trace: seq<Entry>) {
    forall k :: 0 <= k < |trace| ==> TurnOf(trace[k]) == k + 1 && EntryTold(x, q, replies, trace[k])
  }

  function Invalids(trace: seq<Entry>): nat {
    if trace == [] then 0
    else Invalids(trace[..|trace| - 1]) + if trace[|trace| - 1].InvalidEntry? then 1 else 0
  }

  lemma InvalidsOfMore(trace: seq<Entry>, e: Entry)
    ensures Invalids(trace + [e]) == Invalids(trace) + if e.InvalidEntry? then 1 else 0
  {
    assert (trace + [e])[..|trace + [e]| - 1] == trace;
  }

  /** The entry of a turn after which the discovery goes on: an executed action, or the first refused reply. */
  predicate GoesOnAfter(e: Entry) { e.InvalidEntry? || (e.ActEntry? && e.outcome == G.Executed) }

  /** The loop before a turn: every earlier turn went on, and at most one reply was refused. */
  ghost predicate Stands<W>(x: Explorer<W>, q: Request, replies: nat -> Reply, turn: nat, p: Progress<W>) {
    && |p.trace| + 1 == turn && TraceTold(x, q, replies, p.trace)
    && (forall k :: 0 <= k < |p.trace| ==> GoesOnAfter(p.trace[k]))
    && p.invalid == Invalids(p.trace) <= 1
    && p.actions == |Acts(p.trace)| <= 8 && (p.previous.Some? ==> p.actions > 0)
  }

  /** The outcome and reason that the last entry stands for, when its turn ended the discovery. */
  ghost predicate LastTells(last: Entry, reply: Reply, outcome: Outcome, reason: Reason) {
    match last
    case CompleteEntry(_) => outcome == Discovered && reason == Completed
    case HelpEntry(_) => outcome == HelpNeeded && reason.FromModel? && reply == Decided(AskForHelp(reason.code))
    case DeclineEntry(_) => outcome == GaveUp && reason.FromModel? && reply == Decided(Decline(reason.code))
    case InvalidEntry(_, rejection) => outcome == GaveUp && reason == Rejected(rejection)
    case ActEntry(_, _, _, _, answer, why) =>
      match answer
      case Executed => false
      case Denied => outcome == GaveUp && reason == PolicyDenied
      case ApprovalRequired => outcome == HelpNeeded && reason == NeedsApproval
      case Failed =>
        if why == G.ActionEffectOccurredEvidenceFailed then outcome == HelpNeeded && reason == EffectUncertain
        else outcome == GaveUp && reason == ActionFailed
  }

  /** The reasons of an end that leaves no entry: the turn has none, or there was no turn left. */
  ghost predicate NoEntryTells<W>(
    x: Explorer<W>, q: Request, replies: nat -> Reply, r: DiscoveryResult, n: nat)
  {
    && r.outcome == GaveUp
    && match r.reason
       case ObservationFailed => r.turns == n
       case ModelError(code) => r.turns == n + 1 && replies(n + 1) == ModelFailed(code)
       case ActionLimitReached =>
         r.turns == n + 1 && r.actions == 8
         && replies(n + 1).Decided? && Acceptable(replies(n + 1).decision, q.goal, x.trusted)
       case NoProgress =>
         r.turns == n + 1 && 0 < r.actions < 8
         && replies(n + 1).Decided? && Acceptable(replies(n + 1).decision, q.goal, x.trusted)
       case TurnLimitReached => r.turns == n == (if q.maxSteps <= 12 then q.maxSteps else 12)
       case _ => false
  }

  /**
   * How a discovery ended: either its last entry tells, being the only one after which it does not go on, or there is
   * no entry for its last turn; every other turn dispatched an executed action or was the one refused reply.
   */
  ghost predicate EndTold<W>(x: Explorer<W>, q: Request, replies: nat -> Reply, r: DiscoveryResult) {
    var n := |r.trace|;
    && TraceTold(x, q, replies, r.trace) && r.actions == |Acts(r.trace)| && (r.outcome != Discovered ==> r.evidence == [])
    && (forall k :: 0 <= k < n - 1 ==> GoesOnAfter(r.trace[k]))
    && if n > 0 && (Invalids(r.trace) == 2 || !GoesOnAfter(r.trace[n - 1]))
       then r.turns == n && LastTells(r.trace[n - 1], replies(n), r.outcome, r.reason) && Invalids(r.trace[..n - 1]) <= 1
       else Invalids(r.trace) <= 1 && NoEntryTells(x, q, replies, r, n)
  }

  ghost predicate TurnTold<W>(x: Explorer<W>, q: Request, replies: nat -> Reply, turn: nat, t: Turn<W>) {
    if t.GoesOn? then Stands(x, q, replies, turn + 1, t.next) else EndTold(x, q, replies, t.run.result)
  }

  lemma NoteTold<W>(x: Explorer<W>, q: Request, replies: nat -> Reply, trace: seq<Entry>, e: Entry)
    requires TraceTold(x, q, replies, trace) && TurnOf(e) == |trace| + 1 && EntryTold(x, q, replies, e)
    ensures TraceTold(x, q, replies, trace + [e])
    ensures Invalids(trace + [e]) == Invalids(trace) + if e.InvalidEntry? then 1 else 0
    ensures Acts(trace + [e]) == Acts(trace) + if e.ActEntry? then [e] else []
    ensures (trace + [e])[..|trace|] == trace
  {
    InvalidsOfMore(trace, e);
    NoteKeeps(trace, e);
  }

  /** A turn that notes an entry and goes on. */
  lemma GoesOnWith<W>(x: Explorer<W>, q: Request, replies: nat -> Reply, turn: nat, p: Progress<W>, e: Entry, next: Progress<W>)
    requires Stands(x, q, replies, turn, p) && TurnOf(e) == turn && EntryTold(x, q, replies, e) && GoesOnAfter(e)
    requires next.trace == p.trace + [e] && next.actions == p.actions + (if e.ActEntry? then 1 else 0) <= 8
    requires next.invalid == p.invalid + (if e.InvalidEntry? then 1 else 0) <= 1
    requires next.previous.Some? ==> e.ActEntry? || p.previous.Some?
    ensures Stands(x, q, replies, turn + 1, next)
  {
    NoteTold(x, q, replies, p.trace, e);
  }

  /** A turn that notes an entry and ends. */
  lemma EndsWith<W>(x: Explorer<W>, q: Request, replies: nat -> Reply, turn: nat, p: Progress<W>, e: Entry, r: DiscoveryResult)
    requires Stands(x, q, replies, turn, p) && TurnOf(e) == turn && EntryTold(x, q, replies, e)
    requires r.trace == p.trace + [e] && r.actions == p.actions + (if e.ActEntry? then 1 else 0) && r.turns == turn
    requires LastTells(e, replies(turn), r.outcome, r.reason) && (r.outcome != Discovered ==> r.evidence == [])
    requires !GoesOnAfter(e) || (e.InvalidEntry? && p.invalid == 1)
    ensures EndTold(x, q, replies, r)
  {
    NoteTold(x, q, replies, p.trace, e);
  }

  /** A turn that ends without an entry. */
  lemma EndsWithout<W>(x: Explorer<W>, q: Request, replies: nat -> Reply, turn: nat, p: Progress<W>, r: DiscoveryResult)
    requires Stands(x, q, replies, turn, p) && r.trace == p.trace && r.actions == p.actions && r.evidence == []
    requires NoEntryTells(x, q, replies, r, |p.trace|)
    ensures EndTold(x, q, replies, r)
  {
  }

  lemma RejectTold<W>(
    x: Explorer<W>, q: Request, replies: nat -> Reply, turn: nat, p: Progress<W>, rejection: Rejection, last: Snapshot)
    requires Stands(x, q, replies, turn, p) && RefusedFor(rejection, replies(turn), q, x.trusted)
    ensures TurnTold(x, q, replies, turn, Reject(p, turn, rejection, last))
  {
    var t, e := Reject(p, turn, rejection, last), InvalidEntry(turn, rejection);
    if t.GoesOn? {
      GoesOnWith(x, q, replies, turn, p, e, t.next);
    } else {
      EndsWith(x, q, replies, turn, p, e, t.run.result);
    }
  }

  lemma ConcludeTold<W>(
    x: Explorer<W>, q: Request, replies: nat -> Reply, turn: nat, claims: seq<Claim>, p: Progress<W>, s: Snapshot)
    requires Stands(x, q, replies, turn, p) && replies(turn) == Decided(Complete(claims))
    ensures TurnTold(x, q, replies, turn, Conclude(x, q, turn, claims, p, s))
  {
    var evidence := EvidenceOf(claims, p.filled, x.fingerprint);
    var shown := set i | 0 <= i < |evidence| :: evidence[i].target;
    if !Grounded(claims, s, q.goal, x.trusted) {
      RejectTold(x, q, replies, turn, p, CompletionNotGrounded, s);
    } else if !(q.required <= shown) {
      var t :| t in q.required && t !in shown;
      forall i | 0 <= i < |claims|
        ensures ClaimTargets(claims)[i] != t
      {
        assert evidence[i].target in shown;
      }
      RejectTold(x, q, replies, turn, p, CompletionEvidenceMissing, s);
    } else {
      EndsWith(x, q, replies, turn, p, CompleteEntry(turn), Conclude(x, q, turn, claims, p, s).run.result);
    }
  }

  lemma RejectionMeans(action: Action, target: Target, q: Request, trusted: set<Target>)
    ensures var rejection := ValidateAction(action, target, q.goal, trusted);
      if rejection.None? then Acceptable(ActOn(action, target), q.goal, trusted)
      else RefusedFor(rejection.value, Decided(ActOn(action, target)), q, trusted)
  {
  }

  lemma ActTold<W>(
    x: Explorer<W>, q: Request, replies: nat -> Reply, turn: nat, action: Action, target: Target, p: Progress<W>, s: Snapshot)
    requires Stands(x, q, replies, turn, p) && replies(turn) == Decided(ActOn(action, target))
    ensures TurnTold(x, q, replies, turn, Act(x, q, turn, action, target, p, s))
  {
    var rejection, t := ValidateAction(action, target, q.goal, x.trusted), Act(x, q, turn, action, target, p, s);
    RejectionMeans(action, target, q, x.trusted);
    if rejection.Some? {
      RejectTold(x, q, replies, turn, p, rejection.value, s);
    } else if p.actions >= MaxActions || p.previous == Some(Attempt(action, target, s)) {
      EndsWithout(x, q, replies, turn, p, t.run.result);
    } else {
      var g := x.engine.act(p.world, action, target);
      var e := ActEntry(turn, action.Kind(), target, GoalSpan(action, q.goal), g.outcome, g.reason);
      if t.GoesOn? {
        GoesOnWith(x, q, replies, turn, p, e, t.next);
      } else {
        EndsWith(x, q, replies, turn, p, e, t.run.result);
      }
    }
  }

  lemma TakenTurnTold<W>(x: Explorer<W>, q: Request, replies: nat -> Reply, turn: nat, p: Progress<W>)
    requires Stands(x, q, replies, turn, p) && turn > 0
    ensures TurnTold(x, q, replies, turn, TakeTurn(x, q, turn, replies(turn), p))
  {
    var c, t := x.engine.look(p.world), TakeTurn(x, q, turn, replies(turn), p);
    var p' := p.(world := c.world);
    if c.snapshot.Err? {
      EndsWithout(x, q, replies, turn, p, t.run.result);
    } else {
      match replies(turn)
      case ModelFailed(_) => EndsWithout(x, q, replies, turn, p, t.run.result);
      case Unreadable => RejectTold(x, q, replies, turn, p', UnreadableReply, c.snapshot.value);
      case Decided(Complete(claims)) => ConcludeTold(x, q, replies, turn, claims, p', c.snapshot.value);
      case Decided(AskForHelp(_)) => EndsWith(x, q, replies, turn, p, HelpEntry(turn), t.run.result);
      case Decided(Decline(_)) => EndsWith(x, q, replies, turn, p, DeclineEntry(turn), t.run.result);
      case Decided(ActOn(action, target)) => ActTold(x, q, replies, turn, action, target, p', c.snapshot.value);
    }
  }

  lemma {:induction false} LoopTold<W>(x: Explorer<W>, q: Request, replies: nat -> Reply, turn: nat, p: Progress<W>)
    requires Stands(x, q, replies, turn, p) && 0 < turn <= Limit(q) + 1
    ensures EndTold(x, q, replies, From(x, q, replies, turn, p).result)
    decreases Limit(q) + 1 - turn
  {
    if turn <= Limit(q) {
      TakenTurnTold(x, q, replies, turn, p);
      var t := TakeTurn(x, q, turn, replies(turn), p);
      if t.GoesOn? {
        LoopTold(x, q, replies, turn + 1, t.next);
      }
    } else {
      EndsWithout(x, q, replies, turn, p, From(x, q, replies, turn, p).result);
    }
  }

  /**
   * Whatever the model replies and the surface does: the trace tells every turn's answer, and the outcome and the
   * reason follow from the last of them; two refused replies end the discovery, one does not.
   */
  lemma DiscoveryEndsAsTold<W>(x: Explorer<W>, q: Request, replies: nat -> Reply, w: W)
    ensures var r := Discover(x, q, replies, w).result;
      if q.required <= x.trusted then EndTold(x, q, replies, r)
      else r == DiscoveryResult(GaveUp, RequiredTargetUnknown, 0, 0, [], [])
  {
    if q.required <= x.trusted {
      LoopTold(x, q, replies, 1, Begin(w));
    }
  }
}
