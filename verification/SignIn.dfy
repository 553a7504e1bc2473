/** A sign-in that only a person may do: the replay is suspended before it, and passes it over once it is done. */
module SignIn {
  import opened Contracts
  import opened Text
  import opened Evaluator
  import opened Gateway
  import opened Validator
  import opened Replay
  import opened ReplayProofs

  const Status: string := "Signed in as demo-reviewer"

  function SignInStep(): Step {
    Step("human_sign_in", ClickTemplate("session.sign_in"), None, Some(TargetTextEquals("profile.status", Literal(Status))), None)
  }

  function Login(): Definition {
    Definition("login", "1", "demo", [], [], [SignInStep()], [TargetVisible("account.balance")], [])
  }

  /** The world is whether somebody has signed in; every action needs approval. */
  function Page(): Ports<bool> {
    Ports(
      (w, t) => (if t != "profile.status" then SeenHidden else SeenVisible(Some(if w then Status else "Signed out")), w),
      (w, a, t) => (true, w),
      (k, t) => Decision(RequireApproval, ApprovalNeeded),
      (w, g) => (None, w),
      (w, a, t) => (Answer(Applied), true),
      w => w,
      (w, e) => (true, w))
  }

  function At(generation: nat): Context {
    Context("run", "session", generation, "page", Profile("demo", ["account.balance", "profile.status", "session.sign_in"]))
  }

  function Shown(w: bool): Snapshot {
    [Observation("account.balance", NotVisible, None),
     Observation("profile.status", Visible, Some(if w then Status else "Signed out")),
     Observation("session.sign_in", NotVisible, None)]
  }

  lemma Different()
    ensures Before("account.balance", "profile.status") && Before("account.balance", "session.sign_in")
    ensures Before("profile.status", "session.sign_in") && !Before("session.sign_in", "account.balance")
    ensures !Before("profile.status", "account.balance")
    ensures "session.sign_in" != "profile.status" && "account.balance" != "profile.status" && "account.balance" != "session.sign_in"
  {
    assert "account.balance"[0] == 'a' && "profile.status"[0] == 'p' && "session.sign_in"[0] == 's';
  }

  lemma AllInserted(all: seq<Target>)
    requires all == ["account.balance", "session.sign_in", "profile.status"]
    ensures InsertTargets(all, []) == ["account.balance", "profile.status", "session.sign_in"]
  {
    Different();
    var one, two := ["account.balance"], ["account.balance", "session.sign_in"];
    assert one[1..] == [] && two[1..] == ["session.sign_in"];
    assert InsertTarget("session.sign_in", one) == one + ["session.sign_in"] == two;
    assert InsertTarget("profile.status", two) == one + InsertTarget("profile.status", two[1..]);
    assert InsertTarget("profile.status", two[1..]) == ["profile.status", "session.sign_in"];
    assert InsertTargets([], InsertTarget("profile.status", two)) == ["account.balance", "profile.status", "session.sign_in"];
    assert InsertTargets(["profile.status"], two) == ["account.balance", "profile.status", "session.sign_in"] by {
      assert ["profile.status"][1..] == [];
    }
    assert all[1..][1..] == ["profile.status"];
    assert InsertTargets(all[1..], one) == InsertTargets(all[1..][1..], two);
  }

  lemma LoginTargets()
    ensures TargetsFor(Login()) == ["account.balance", "profile.status", "session.sign_in"]
  {
    Different();
    var d := Login();
    var outputs := seq(|d.outputs|, i requires 0 <= i < |d.outputs| => d.outputs[i].target);
    assert outputs == [] && ConditionTargets(d.success) == ["account.balance"] && OutcomeTargets(d.outcomes) == [];
    assert d.steps[1..] == [] && StepTargets(d.steps[0]) == ["session.sign_in", "profile.status"];
    assert StepsTargets(d.steps) == ["session.sign_in", "profile.status"];
    var all := outputs + ConditionTargets(d.success) + OutcomeTargets(d.outcomes) + StepsTargets(d.steps);
    assert all == ["account.balance", "session.sign_in", "profile.status"];
    assert all[1..] == ["session.sign_in", "profile.status"] && all[1..][1..] == ["profile.status"];
    AllInserted(all);
  }

  lemma OneMoreIsCollected(targets: seq<Target>, w: bool)
    requires targets != [] && targets[0] in At(0).profile.bindings
    requires Collect(Page(), At(0).profile, targets[1..], w).snapshot.Ok?
    requires Collect(Page(), At(0).profile, targets[1..], w).world == w
    ensures var seen := Page().inspect(w, targets[0]).0;
      seen.Readable() && Collect(Page(), At(0).profile, targets, w)
        == Collected(Ok([ToObservation(targets[0], seen)] + Collect(Page(), At(0).profile, targets[1..], w).snapshot.value), w)
  {
  }

  lemma PageIsCollected(w: bool)
    ensures Collect(Page(), At(0).profile, ["account.balance", "profile.status", "session.sign_in"], w)
         == Collected(Ok(Shown(w)), w)
  {
    Different();
    var profile := At(0).profile;
    assert profile.bindings[0] == "account.balance" && profile.bindings[1] == "profile.status" && profile.bindings[2] == "session.sign_in";
    var t3, t2, t1 := ["session.sign_in"], ["profile.status", "session.sign_in"], ["account.balance", "profile.status", "session.sign_in"];
    assert t3[1..] == [] && t2[1..] == t3 && t1[1..] == t2;
    var s := Shown(w);
    OneMoreIsCollected(t3, w);
    assert Collect(Page(), profile, t3, w) == Collected(Ok([s[2]] + []), w) && [s[2]] + [] == [s[2]];
    OneMoreIsCollected(t2, w);
    assert Collect(Page(), profile, t2, w) == Collected(Ok([s[1]] + [s[2]]), w);
    OneMoreIsCollected(t1, w);
    assert [s[0]] + ([s[1]] + [s[2]]) == s;
  }

  lemma EngineLooks(generation: nat, w: bool)
    ensures EngineFor(Page(), Login(), At(generation)).look(w) == Collected(Ok(Shown(w)), w)
  {
    LoginTargets();
    PageIsCollected(w);
    assert At(generation).profile == At(0).profile;
  }

  lemma WhatIsShown(w: bool)
    ensures EvaluateTerminal(Login(), Shown(w), map[]) == Incomplete
    ensures EvaluateCondition(SignInStep().postcondition.value, Shown(w), map[]) == Evaluation(if w then True else False, None)
  {
    Different();
    var s := Shown(w);
    assert s[1..][0] == s[1];
    assert FindObservation("account.balance", s) == Some(s[0]) && FindObservation("profile.status", s) == Some(s[1]);
    assert Login().outcomes == [] && SomeFalse(Login().success, s, map[]) by {
      assert EvaluateCondition(Login().success[0], s, map[]).result == False;
    }
    assert Status[0] == 'S' && Status[|Status| - 1] == 'r' && Strip(Status) == Status;
    assert Strip("Signed out") == "Signed out";
    assert |Status| != |"Signed out"|;
  }

  const Asked: seq<GatewayEvent> := [PolicyRecorded(Decision(RequireApproval, ApprovalNeeded))]

  /** The replay looks, asks, and is suspended at the sign-in. */
  function AskedOnce(generation: nat): Run<bool> {
    Run(
      Stopped(ByGateway(Policy(ApprovalNeeded)), Some("human_sign_in"), 1,
        Some(Checkpoint("login", "1", "human_sign_in", 0, generation))),
      false,
      [Observed(0, Some(Shown(false)))] + [Called(0, Click, "session.sign_in", ApprovalRequired, Asked)])
  }

  lemma RunAsks(generation: nat)
    ensures ExecuteFrom(EngineFor(Page(), Login(), At(generation)), Login(), map[], 0, false) == AskedOnce(generation)
  {
    EngineLooks(generation, false);
    var profile := At(generation).profile;
    assert profile.bindings[2] == "session.sign_in";
    assert Execute(Page(), profile, generation, Click, "session.sign_in", false)
        == GatewayRun(ApprovalRequired, Policy(ApprovalNeeded), false, Asked);
  }

  lemma MayRun()
    ensures ValidateInputs([], map[]) == None && ValidateProfile(Login(), At(0).profile) == None
  {
    LoginTargets();
    var targets := At(0).profile.bindings;
    assert TargetsFor(Login()) == targets;
  }

  /**
   * Once a person has signed in, the resumed replay sees it and passes the step over without another call; if nobody
   * has, it asks again.
   */
  lemma SignInIsPassedOver()
    ensures Chain(Page(), Login(), map[], At(0), false, [Handoff(At(3), true)])
         == AskedOnce(0).log + [Observed(0, Some(Shown(true)))]
    ensures ProvedDoneAt(Login(), map[], AskedOnce(0).log[1], Observed(0, Some(Shown(true))), 0)
    ensures Chain(Page(), Login(), map[], At(0), false, [Handoff(At(3), false)])
         == AskedOnce(0).log + [Observed(0, Some(Shown(false)))] + AskedOnce(3).log
  {
    StartAsks();
    WhatIsShown(true);
    var c := Checkpoint("login", "1", "human_sign_in", 0, 0);
    var resume := (c, h: Handoff<bool>) => Resume(Page(), Login(), c, map[], h.ctx, h.world);
    Resumed(true);
    Resumed(false);
    OneHandoff(resume, c, Handoff(At(3), true));
    OneHandoff(resume, c, Handoff(At(3), false));
  }

  lemma StartAsks()
    ensures Start(Page(), Login(), map[], At(0), false) == AskedOnce(0)
  {
    MayRun();
    RunAsks(0);
  }

  lemma Resumed(w: bool)
    ensures var c := Checkpoint("login", "1", "human_sign_in", 0, 0);
      var r := Resume(Page(), Login(), c, map[], At(3), w);
      r.log == [Observed(0, Some(Shown(w)))] + if w then [] else AskedOnce(3).log
  {
    MayRun();
    RunAsks(3);
    WhatIsShown(w);
    EngineLooks(3, w);
    assert At(3).profile == At(0).profile;
  }

  lemma OneHandoff(resume: (Checkpoint, Handoff<bool>) -> Run<bool>, c: Checkpoint, h: Handoff<bool>)
    ensures Resumptions(resume, Some(c), [h]) == resume(c, h).log
  {
    assert [h][1..] == [];
    assert Resumptions(resume, resume(c, h).result.Suspension(), []) == [];
  }
}
