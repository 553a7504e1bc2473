/**
 * Three small surfaces: one whose capability is discovered, built and replayed to its completion; one where a target
 * of the capability is ambiguous at the start, so that the replay of a successful discovery never acts; and one whose
 * discovery cannot be built, because step identifiers collide and for no other reason.
 */
module Examples {
  import opened Contracts
  import opened Text
  import opened Gateway
  import opened Discovery
  import opened Builder
  import opened BuilderProofs
  import opened Buildable
  import opened Validator
  import opened Compiler
  import opened EndToEnd
  import opened Plans
  import E = Evaluator
  import R = Replay
  import ReplaySoundness
  import Money

  function Plain(): string -> string { text => text }

  function Page(bindings: seq<Target>): Context { Context("run", "session", 0, "page", Profile("demo", bindings)) }

  /** Bound targets are looked at. */
  lemma BoundIsSeen<S>(m: Surface<S>, profile: Profile, s: S, t: Target)
    requires t in profile.bindings
    ensures E.FindObservation(t, Glimpses(m, Bound(profile), s)) == Some(Glimpse(t, m.view(s, t)))
  {
    ReplaySoundness.InsertAllKeeps(profile.bindings, []);
    GlimpsesTell(m, Bound(profile), s);
  }

  lemma OneClaim<S>(m: Surface<S>, profile: Profile, q: Request, plan: seq<Planned>, claim: Claim, s: S)
    requires claim.target in profile.bindings && q.required == {} && FromGoal(claim.text, q.goal)
    requires m.view(StateAt(m, plan, s, |plan|), claim.target) == SeenVisible(Some(claim.text))
    ensures Claimable(m, profile, q, plan, [claim], s)
  {
    BoundIsSeen(m, profile, StateAt(m, plan, s, |plan|), claim.target);
    assert [claim][0] == claim;
  }

  lemma EvidenceOfOne(claim: Claim, filled: seq<Filled>, f: string -> string)
    ensures var v := Verified(claim.target, f(claim.text), MatchingSource(filled, claim.text));
      EvidenceOf([claim], filled, f) == [v] && EvidenceFor(claim.target, [v]) == Some(v)
  {
  }

  lemma States<S>(m: Surface<S>, plan: seq<Planned>, s: S)
    ensures StateAt(m, plan, s, 0) == s
    ensures forall k: nat :: k < |plan| ==>
      StateAt(m, plan, s, k + 1) == m.apply(StateAt(m, plan, s, k), plan[k].action, plan[k].target).1
  {
    forall k: nat | k < |plan|
      ensures StateAt(m, plan, s, k + 1) == m.apply(StateAt(m, plan, s, k), plan[k].action, plan[k].target).1
    {
      NextState(Next(m), s, Done(plan), k);
    }
  }

  // ---- A search by member number ------------------------------------------------------------------

  /** What is typed, and whether it was submitted. */
  datatype Desk = Desk(typed: string, found: bool)

  const Field: Target := "search.member"
  const Submit: Target := "search.submit"
  const Shown: Target := "result.member"
  const Help: Target := "page.help"

  const SearchGoal := Request("open 67890", {}, 12)
  const SearchPlan := [Planned(Fill("67890"), Field), Planned(Click, Submit)]
  const SearchClaim := Claim(Shown, "67890")

  /** The help target is ambiguous all along; it is bound, but no part of the capability. */
  function SearchDesk(): Surface<Desk> {
    Compiler.Surface.Surface(
      (s: Desk, t: Target) =>
        if t == Help then Ambiguous
        else if t == Shown then (if s.found then SeenVisible(Some(s.typed)) else SeenHidden)
        else SeenVisible(None),
      (s: Desk, a: Action, t: Target) => true,
      (s: Desk, a: Action, t: Target) =>
        (Answer(Applied), if a.Fill? then Desk(a.value, false) else Desk(s.typed, true)))
  }

  const SearchPage := Page([Field, Submit, Shown, Help])

  function SearchRequest(): BuildRequest {
    BuildRequest(
      "search", "1.0.0", "demo", PlanResult(SearchPlan, [SearchClaim], "open 67890", Plain()),
      [Sensitivity(Field, true)], [InputEquality(Shown, Field)], [], [], [])
  }

  lemma SearchIsFeasible()
    ensures Feasible(SearchDesk(), SearchPage.profile, SearchGoal, SearchPlan, Desk("", false))
    ensures Claimable(SearchDesk(), SearchPage.profile, SearchGoal, SearchPlan, [SearchClaim], Desk("", false))
  {
    var m, s := SearchDesk(), Desk("", false);
    States(m, SearchPlan, s);
    assert StateAt(m, SearchPlan, s, 0 + 1) == Desk("67890", false);
    assert StateAt(m, SearchPlan, s, 1 + 1) == Desk("67890", true);
    assert OccursAt("open 67890", "67890", 5);
    assert SearchPage.profile.bindings == [Field, Submit, Shown, Help];
    assert SearchPage.profile.bindings[0] == Field && SearchPage.profile.bindings[1] == Submit;
    assert SearchPage.profile.bindings[2] == Shown;
    assert ValidateAction(Fill("67890"), Field, "open 67890", Trusted(SearchPage.profile)) == None;
    OneClaim(m, SearchPage.profile, SearchGoal, SearchPlan, SearchClaim, s);
  }

  lemma {:induction false} LastSegmentIsName(prefix: string, name: string)
    requires '.' !in name
    ensures LastSegment(prefix + "." + name) == name
  {
    var t := prefix + "." + name;
    if name != "" {
      var last := |name| - 1;
      LastSegmentIsName(prefix, name[..last]);
      assert t[..|t| - 1] == prefix + "." + name[..last];
      assert name == name[..last] + [name[last]];
    }
  }

  lemma FieldIsNamed()
    ensures LastSegment(Field) == "member" && IsInputName("member")
  {
    assert Field == "search" + "." + "member";
    LastSegmentIsName("search", "member");
  }

  /** The entries of the plan: a fill with a span, and a click. */
  lemma SearchIsTold() returns (fill: Entry, click: Entry)
    ensures Told(SearchPlan, "open 67890") == [fill, click]
    ensures IsFill(fill) && fill.target == Field && fill.source.Some?
    ensures click.ActEntry? && !IsFill(click) && click.target == Submit
  {
    var acts := Told(SearchPlan, "open 67890");
    fill, click := acts[0], acts[1];
    SearchIsFeasible();
    GroundedValueHasSpan(Fill("67890"), Field, "open 67890", Trusted(SearchPage.profile));
  }

  /** One fill whose target has a fit name, and its sensitivity. */
  lemma OneFillIsSpecified(fill: Entry, click: Entry, sensitive: bool)
    requires IsFill(fill) && fill.source.Some? && IsInputName(LastSegment(fill.target)) && !IsFill(click)
    ensures InputsSpecified([fill, click], [Sensitivity(fill.target, sensitive)]) && FilledBy(fill.target, [fill, click])
  {
    var acts, declared := [fill, click], [Sensitivity(fill.target, sensitive)];
    assert acts[0] == fill && FilledBy(fill.target, acts);
    assert SensitivityTargets(declared) == [fill.target];
  }

  lemma SearchIsFilled()
    ensures Filling(SearchPlan) == [Filled(Field, "67890")]
  {
    assert SearchPlan[..1] == [SearchPlan[0]] && SearchPlan[..1][..0] == [];
    assert Filling(SearchPlan[..1]) == [Filled(Field, "67890")];
  }

  /** The displayed member is backed as the one that was filled in. */
  lemma SearchIsBacked(acts: seq<Entry>)
    requires FilledBy(Field, acts)
    ensures var evidence := EvidenceOf([SearchClaim], Filling(SearchPlan), Plain());
      TemplateBacked(InputEquality(Shown, Field), evidence, acts, Plain())
  {
    SearchIsFilled();
    EvidenceOfOne(SearchClaim, Filling(SearchPlan), Plain());
  }

  lemma SearchIsBuilt()
    ensures Build(SearchRequest(), Plain()).Ok?
  {
    var b := SearchRequest();
    ResultTells(SearchPlan, [SearchClaim], "open 67890", Plain());
    ResultIsSuccessful(SearchPlan, [SearchClaim], "open 67890", Plain());
    var fill, click := SearchIsTold();
    FieldIsNamed();
    OneFillIsSpecified(fill, click, true);
    SearchIsBacked([fill, click]);
    BuildsExactlyWhen(b, Plain());
    assert BaseOf(fill)[0] == 'f' && BaseOf(click)[0] == 'c';
    TwoBasesApart([fill, click]);
    PlainRequestIsSpecified(b, [fill, click]);
  }

  /** A request without metadata, outputs and outcomes, and with one template, specifies everything once that is backed. */
  lemma PlainRequestIsSpecified(b: BuildRequest, acts: seq<Entry>)
    requires acts == Acts(b.discovery.trace) && AllActs(acts)
    requires Successful(b.discovery) && AllExecuted(acts) && |acts| == b.discovery.actions
    requires InputsSpecified(acts, b.sensitivity)
    requires b.metadata == [] && b.outputs == [] && b.outcomes == [] && |b.templates| == 1
    requires TemplateBacked(b.templates[0], b.discovery.evidence, acts, Plain())
    ensures FullySpecified(b, Plain())
  {
  }

  /** Two actions with different bases are kept apart. */
  lemma TwoBasesApart(acts: seq<Entry>)
    requires |acts| == 2 && AllActs(acts) && BaseOf(acts[0]) != BaseOf(acts[1])
    ensures IdsApart(acts)
  {
    forall k | 0 <= k < |acts|
      ensures BaseCount(acts, BaseOf(acts[k])) <= 1
    {
      assert acts == [] + [acts[0]] + [acts[1]];
      BaseCountOfMore([acts[0]], acts[1], BaseOf(acts[k]));
      BaseCountOfMore([], acts[0], BaseOf(acts[k]));
    }
  }

  function SearchTrial(): Trial<Desk, Desk, Desk> {
    TrialOf(SearchDesk(), SearchPage, Plain(), SearchGoal, SearchPlan, [SearchClaim], Desk("", false), SearchRequest())
  }

  lemma SearchCompiles()
    ensures Compiles(SearchTrial()) && Unrefused(SearchTrial()) && SearchTrial().Log() == Done(SearchPlan)
  {
    SearchIsFeasible();
    SearchIsBuilt();
    PlanCompiles(
      SearchDesk(), SearchPage, Plain(), SearchGoal, SearchPlan, [SearchClaim], Desk("", false), SearchRequest());
  }

  /** What a built plan mentions is what it acts on and what it claims. */
  lemma TargetsOfTrial<S(!new)>(t: Trial<S, S, S>, targets: set<Target>)
    requires Compiles(t)
    requires forall k :: 0 <= k < |t.Log()| ==> t.Log()[k].target in targets
    requires forall v :: v in t.b.discovery.evidence ==> v.target in targets
    ensures forall x :: x in R.TargetsFor(t.Compiled()) ==> x in targets
  {
    var x := ExplorerFor(t.discovering, t.ctx, t.fingerprint);
    DiscoveryLeaves(t.m, t.discovering, t.from, t.ctx, t.fingerprint, t.q, t.replies, t.w, x);
    TargetsAreTrusted(t.b, t.fingerprint, t.q.goal, t.Log(), targets);
  }

  /** Targets that can always be read can be read throughout. */
  lemma AlwaysReadable<S(!new)>(t: Trial<S, S, S>, targets: set<Target>)
    requires t.Built() && forall x :: x in R.TargetsFor(t.Compiled()) ==> x in targets
    requires forall s, x :: x in targets ==> t.m.view(s, x).Readable()
    ensures ReadableThrough(t)
  {
  }

  /** A plan and its claim on targets that can always be read are readable throughout. */
  lemma PlanIsReadable<S(!new)>(t: Trial<S, S, S>, plan: seq<Planned>, claim: Claim, goal: string, targets: set<Target>)
    requires Compiles(t) && t.Log() == Done(plan) && t.b.discovery == PlanResult(plan, [claim], goal, Plain())
    requires (forall k :: 0 <= k < |plan| ==> plan[k].target in targets) && claim.target in targets
    requires forall s, x :: x in targets ==> t.m.view(s, x).Readable()
    ensures ReadableThrough(t)
  {
    EvidenceOfOne(claim, Filling(plan), Plain());
    DoneActsOn(plan, targets);
    TargetsOfTrial(t, targets);
    AlwaysReadable(t, targets);
  }

  const Used: set<Target> := {Field, Submit, Shown}

  lemma SearchUses()
    ensures (forall k :: 0 <= k < |SearchPlan| ==> SearchPlan[k].target in Used) && SearchClaim.target in Used
    ensures forall s: Desk, x :: x in Used ==> SearchDesk().view(s, x).Readable()
  {
    assert Help !in Used;
  }

  lemma SearchIsReadable(t: Trial<Desk, Desk, Desk>)
    requires t == SearchTrial() && Compiles(t) && t.Log() == Done(SearchPlan)
    ensures ReadableThrough(t)
  {
    SearchUses();
    PlanIsReadable(t, SearchPlan, SearchClaim, "open 67890", Used);
  }

  lemma DoneActsOn(plan: seq<Planned>, targets: set<Target>)
    requires forall k :: 0 <= k < |plan| ==> plan[k].target in targets
    ensures forall k :: 0 <= k < |Done(plan)| ==> Done(plan)[k].target in targets
  {
  }

  /**
   * Every condition of compiler correctness holds of the search at once, with a fill, a condition on an input and an
   * ambiguous target that is bound but not used; and its replay types the member number first.
   */
  lemma ConditionsCanBeMet() returns (n: nat)
    ensures Compiles(SearchTrial()) && Unrefused(SearchTrial()) && ReadableThrough(SearchTrial())
    ensures Repeats(SearchTrial(), n)
    ensures Calls(SearchTrial().Replay().log)[0] == Dispatched(Fill("67890"), Field, Executed)
  {
    SearchCompiles();
    SearchIsReadable(SearchTrial());
    n := UnrefusedReplaySucceeds(SearchTrial());
  }

  // ---- An account that is ambiguous before the login ---------------------------------------------------

  const Login: Target := "login.submit"
  const Open: Target := "account.open"
  const Balance: Target := "account.balance"

  const AccountGoal := Request("balance 42", {}, 12)
  const AccountPlan := [Planned(Click, Login), Planned(Click, Open)]
  const AccountClaim := Claim(Balance, "42")
  const AccountPage := Page([Login, Open, Balance])

  /** The state counts the clicks. */
  function AccountSurface(): Surface<int> {
    Compiler.Surface.Surface(
      (s: int, t: Target) =>
        if t == Open && s == 0 then Ambiguous
        else if t == Balance then (if s >= 2 then SeenVisible(Some("42")) else SeenHidden)
        else SeenVisible(None),
      (s: int, a: Action, t: Target) => true,
      (s: int, a: Action, t: Target) => (Answer(Applied), s + 1))
  }

  function AccountRequest(): BuildRequest {
    BuildRequest(
      "account", "1.0.0", "demo", PlanResult(AccountPlan, [AccountClaim], "balance 42", Plain()),
      [], [VisibleTemplate(Balance)], [], [], [])
  }

  function AccountTrial(): Trial<int, int, int> {
    TrialOf(AccountSurface(), AccountPage, Plain(), AccountGoal, AccountPlan, [AccountClaim], 0, AccountRequest())
  }

  lemma AccountIsFeasible()
    ensures Feasible(AccountSurface(), AccountPage.profile, AccountGoal, AccountPlan, 0)
    ensures Claimable(AccountSurface(), AccountPage.profile, AccountGoal, AccountPlan, [AccountClaim], 0)
  {
    var m := AccountSurface();
    States(m, AccountPlan, 0);
    assert StateAt(m, AccountPlan, 0, 0 + 1) == 1 && StateAt(m, AccountPlan, 0, 1 + 1) == 2;
    assert OccursAt("balance 42", "42", 8);
    var bound := AccountPage.profile.bindings;
    assert bound[0] == Login && bound[1] == Open && bound[2] == Balance;
    OneClaim(m, AccountPage.profile, AccountGoal, AccountPlan, AccountClaim, 0);
  }

  /** Clicks need no inputs. */
  lemma ClicksAreSpecified(acts: seq<Entry>)
    requires forall k :: 0 <= k < |acts| ==> !IsFill(acts[k])
    ensures InputsSpecified(acts, [])
  {
  }

  lemma AccountIsBuilt()
    ensures Build(AccountRequest(), Plain()).Ok?
  {
    var b, acts := AccountRequest(), Told(AccountPlan, "balance 42");
    ResultTells(AccountPlan, [AccountClaim], "balance 42", Plain());
    ResultIsSuccessful(AccountPlan, [AccountClaim], "balance 42", Plain());
    ClicksAreSpecified(acts);
    EvidenceOfOne(AccountClaim, Filling(AccountPlan), Plain());
    PlainRequestIsSpecified(b, acts);
    BuildsExactlyWhen(b, Plain());
    assert BaseOf(acts[0])[6] == 'l' && BaseOf(acts[1])[6] == 'a';
    TwoBasesApart(acts);
  }

  lemma AccountCompiles()
    ensures Compiles(AccountTrial()) && Unrefused(AccountTrial()) && AccountTrial().Log() == Done(AccountPlan)
  {
    AccountIsFeasible();
    AccountIsBuilt();
    PlanCompiles(AccountSurface(), AccountPage, Plain(), AccountGoal, AccountPlan, [AccountClaim], 0, AccountRequest());
  }

  /** The steps of a compiled plan act on its targets. */
  lemma PlanTargetIsUsed<S(!new)>(t: Trial<S, S, S>, k: nat)
    requires Compiles(t) && k < |t.Log()|
    ensures t.Log()[k].target in R.TargetsFor(t.Compiled())
  {
    var x := ExplorerFor(t.discovering, t.ctx, t.fingerprint);
    DiscoveryLeaves(t.m, t.discovering, t.from, t.ctx, t.fingerprint, t.q, t.replies, t.w, x);
    BuiltIsScript(t.b, t.fingerprint, t.q.goal, t.Log());
    ReplaySoundness.TargetsAreComplete(t.Compiled());
    assert t.Compiled().steps[k].action.target in R.StepTargets(t.Compiled().steps[k]);
  }

  /** A capability with an unreadable target at the start never acts. */
  lemma BlockedAtOnce<S(!new)>(t: Trial<S, S, S>, x: Target)
    requires Compiles(t) && Unrefused(t) && x in R.TargetsFor(t.Compiled()) && !t.m.view(t.Start(), x).Readable()
    ensures Calls(t.Replay().log) == []
    ensures BlockedBy(t.Replay().result, R.AmbiguousTarget) || BlockedBy(t.Replay().result, R.InspectionRaised)
  {
    UnrefusedIsExecuted(t);
    var n := ReplayEndsExactly(t);
    assert t.Log()[..0] == [] && t.At(0) == t.Start();
    SampleTells(t.m, R.TargetsFor(t.Compiled()), t.Start());
    OneEnding(t, n, 0);
  }

  /**
   * Why a target of the capability must be readable: the discovery succeeds and its build does, and nothing refuses;
   * but discovery took the ambiguous target for unavailable, and the replay stops on it without having acted.
   */
  lemma AmbiguityStopsReplay()
    ensures Compiles(AccountTrial()) && Unrefused(AccountTrial())
    ensures BlockedBy(AccountTrial().Replay().result, R.AmbiguousTarget) && Calls(AccountTrial().Replay().log) == []
  {
    AccountCompiles();
    PlanTargetIsUsed(AccountTrial(), 1);
    AmbiguousAtOnce(AccountTrial(), Open);
    BlockedAtOnce(AccountTrial(), Open);
  }

  lemma AmbiguousAtOnce<S(!new)>(t: Trial<S, S, S>, x: Target)
    requires Compiles(t) && Unrefused(t) && x in R.TargetsFor(t.Compiled()) && t.m.view(t.Start(), x).Ambiguous?
    requires forall s, y :: !t.m.view(s, y).Raises?
    ensures BlockedBy(t.Replay().result, R.AmbiguousTarget)
  {
    assert t.Log()[..0] == [] && t.At(0) == t.Start();
    assert ComesTo(t, 0) && t.m.view(t.At(0), x).Ambiguous?;
    AmbiguityBlocksExactly(t);
  }

  // ---- A menu whose step identifiers collide -----------------------------------------------------------

  const Menu: Target := "menu.open"
  const Second: Target := "menu.open_2"
  const State: Target := "menu.state"

  const MenuGoal := Request("all of it", {}, 12)
  const MenuPlan := [Planned(Click, Menu), Planned(Click, Menu), Planned(Click, Second)]
  const MenuClaim := Claim(State, "all")
  const MenuPage := Page([Menu, Second, State])

  /** The state counts the clicks, and shows whether there was any and whether there were three. */
  function MenuSurface(): Surface<int> {
    Compiler.Surface.Surface(
      (s: int, t: Target) =>
        if t == State then (if s == 0 then SeenHidden else SeenVisible(Some(if s == 3 then "all" else "part")))
        else SeenVisible(None),
      (s: int, a: Action, t: Target) => true,
      (s: int, a: Action, t: Target) => (Answer(Applied), s + 1))
  }

  function MenuRequest(): BuildRequest {
    BuildRequest(
      "menu", "1.0.0", "demo", PlanResult(MenuPlan, [MenuClaim], "all of it", Plain()),
      [], [VisibleTemplate(State)], [], [], [])
  }

  lemma MenuIsFeasible()
    ensures Feasible(MenuSurface(), MenuPage.profile, MenuGoal, MenuPlan, 0)
    ensures Claimable(MenuSurface(), MenuPage.profile, MenuGoal, MenuPlan, [MenuClaim], 0)
  {
    var m := MenuSurface();
    States(m, MenuPlan, 0);
    assert StateAt(m, MenuPlan, 0, 0 + 1) == 1 && StateAt(m, MenuPlan, 0, 1 + 1) == 2;
    assert StateAt(m, MenuPlan, 0, 2 + 1) == 3;
    assert OccursAt("all of it", "all", 0);
    var bound := MenuPage.profile.bindings;
    assert bound[0] == Menu && bound[1] == Second && bound[2] == State;
    BoundIsSeen(m, MenuPage.profile, 0, State);
    BoundIsSeen(m, MenuPage.profile, 1, State);
    assert SeenAt(m, MenuPage.profile, MenuPlan, 0, 1) != SeenAt(m, MenuPage.profile, MenuPlan, 0, 0);
    assert MenuPlan[2].target != MenuPlan[1].target;
    OneClaim(m, MenuPage.profile, MenuGoal, MenuPlan, MenuClaim, 0);
  }

  lemma MenuCollides()
    ensures AllActs(Told(MenuPlan, "all of it")) && !IdsApart(Told(MenuPlan, "all of it"))
  {
    var acts := Told(MenuPlan, "all of it");
    var base := BaseOf(acts[0]);
    assert base == "click_menu_open" && BaseOf(acts[2]) == "click_menu_open_2" && Money.Digits(2) == "2";
    assert acts == [] + [acts[0]] + [acts[1]] + [acts[2]];
    BaseCountOfMore([acts[0]] + [acts[1]], acts[2], base);
    BaseCountOfMore([acts[0]], acts[1], base);
    BaseCountOfMore([], acts[0], base);
    assert 2 <= BaseCount(acts, BaseOf(acts[0])) && BaseOf(acts[2]) == Numbered(BaseOf(acts[0]), 2);
  }

  /**
   * A success that cannot be built: clicks on menu.open, menu.open and menu.open_2 are discovered, the request
   * specifies everything, and the build fails in validation.
   */
  lemma StepIdsCollide()
    ensures var r := Discover(
        ExplorerFor(OpenPorts(MenuSurface()), MenuPage, Plain()), MenuGoal, Proposing(MenuPlan, [MenuClaim]), 0).result;
      r == MenuRequest().discovery && r.outcome == Discovered
    ensures FullySpecified(MenuRequest(), Plain()) && Build(MenuRequest(), Plain()) == Err(ValidationFailed)
  {
    var b, acts := MenuRequest(), Told(MenuPlan, "all of it");
    MenuIsFeasible();
    PlanIsDiscovered(MenuSurface(), MenuPage, Plain(), MenuGoal, MenuPlan, [MenuClaim], 0);
    ResultTells(MenuPlan, [MenuClaim], "all of it", Plain());
    ResultIsSuccessful(MenuPlan, [MenuClaim], "all of it", Plain());
    ClicksAreSpecified(acts);
    EvidenceOfOne(MenuClaim, Filling(MenuPlan), Plain());
    PlainRequestIsSpecified(b, acts);
    MenuCollides();
    BuildsExactlyWhen(b, Plain());
  }
}
