# Capability runner: a verified model

A Dafny model of the core of the capability runner: how an operator takes over a live session from automation and hands
it back, how a capability is discovered, compiled and replayed, and how a suspended replay is resumed once.

- `SessionControl`, `Dispatch`, `Interventions`, `Registry`, `Coordinator`, `Handoff`, `Freshness`, `TwoContinuations`: the
  handoff protocol. The classes are the controller, the manager, the registry and the coordinator with their fields and
  methods; `Dispatch` and `Handoff` are step machines over any number of concurrent tasks, where taking the dispatch lock, the check under the
  state lock, the effect and the release are separate steps, and so are the stages of a resumption around its awaits.
- `Gateway`, `GatewayStages`: automation's and the operator's dispatch paths. Everything outside (surface, policy, evidence, session) is a
  record of functions over a world of any type, of which nothing is assumed.
- `Replay`, `ReplayProofs`, `ReplaySoundness`, `ReplayEnds`, `ReplayGuards`, `ReplayChain`, `SignIn`: the replay engine with its
  log of observations and calls, checkpoints and resumption; what every run does, how it ends, and what a chain never does.
- `Looking`: what the collectors of replay and discovery make of any world.
- `Discovery`, `DiscoveryProofs`, `DiscoveryEnds`, `Builder`, `BuilderProofs`, `Buildable`, `BuildTells`, `Compiler`, `EndToEnd`,
  `Plans`, `Examples`: discovery against an arbitrary model, compilation of its trace, exactly which requests build, the
  proof that the compiled capability repeats the discovery, and small surfaces that show its conditions met and missed.
- `Evaluator`, `Meanings`, `Money`, `Text`, `Validator`, `Redaction`: three-valued evaluation, the money parser and printer, structural
  validation and redaction. `Contracts` holds the shared value types, `Runs` induction along a run.

The main loops of the source are methods with their invariants, tied by their `ensures` to a function;
what the source promises is proved about that function, in terms of what is seen, given and answered.

Where the code and a natural stronger claim disagree, the model follows the code:

- Returning control keeps the generation. Asking for a pause twice changes nothing the second time, so one suspended
  result can be registered twice, and then what is validated need not be what is resumed
  (`TwoContinuations.FreshnessNeedsOneContinuation`).
- An UNKNOWN postcondition without a retry policy lets the run go on; a capability without steps ends unfinished.
- The operator's gateway may report lost post-action evidence for a dispatch that never reached the surface
  (`Gateway.OperatorBlamesSurface`).
- A suspension for a session that does not exist leaves its continuation registered
  (`Coordinator.ReplayContinuationCoordinator.SuspendForIntervention`).
- Discovery takes a target that is ambiguous, or whose inspection raises, for unavailable and goes on, while replay stops
  on it. So a capability can be discovered and built whose replay never acts (`Examples.AmbiguityStopsReplay`); exactly
  when, `EndToEnd.ReplayIsBlockedExactly` says.
- The step identifiers of a successful discovery may collide, and then it is not built (`Examples.StepIdsCollide`);
  otherwise a fully specified request is (`Buildable.BuildsExactlyWhen`).
- Amounts whose digits past the 28th are not zeros are rounded; the round trip is exact for all others
  (`Money.MoneyRoundTrip`).
- Redaction of values with brackets can spell a redacted value again (`Redaction.BracketsBreakRedaction`); of one value,
  exactly when it is not harmless (`Redaction.OneValueExactly`).

## Model

| member | source | states |
|---|---|---|
| EndToEnd.CompilationPreservesMeaning | src/capability_runner/discovery/discovery_engine.py:134-396 | Compiler correctness: on a deterministic surface, after a successful discovery with at least one action and a build without step metadata and business outcomes, if no target of the capability is ambiguous or raises in a state the discovered actions pass through, the replay with goal-bound inputs and every call executed dispatches a non-empty prefix of the discovered actions, leaves the surface where they lead, and ends in success or OUTPUT_EXTRACTION_FAILED; nothing is asked of the other bound targets |
| EndToEnd.ReplayEndsExactly | src/capability_runner/replay/replay_engine.py:234-430 | Without the condition on targets: the replay repeats the discovered actions up to the first state where a target of the capability cannot be read, or where the completion holds, and never ends unfinished |
| EndToEnd.ReplayIsBlockedExactly | src/capability_runner/replay/snapshot_collector.py:29-53 | An unrefused replay ends on an unreadable target, for a reason, exactly when it comes to a state where the first capability target it cannot read is unreadable for that reason; otherwise it reaches the completion |
| EndToEnd.AmbiguityBlocksExactly | src/capability_runner/replay/snapshot_collector.py:44-45 | Where no inspection raises, an unrefused replay ends on TARGET_AMBIGUOUS exactly when it comes to a state with an ambiguous target of the capability |
| Examples.AmbiguityStopsReplay | src/capability_runner/discovery/snapshot_collector.py:36-45 | The input that shows the condition is needed: a target ambiguous before the login is unavailable to discovery, which succeeds and is built; the replay stops on it without having acted |
| EndToEnd.UnrefusedReplaySucceeds | src/capability_runner/discovery/discovery_engine.py:134-396 | Compiler correctness without a condition on the run: with the policy unchanged, an evidence store that takes every record and a session that admits every dispatch, every call of the replay is executed and it ends as promised |
| Examples.ConditionsCanBeMet | src/capability_runner/discovery/discovery_engine.py:134-396 | All conditions of compiler correctness hold at once of a search that fills in a member number, is verified by its equality with that input, and has an ambiguous bound target it does not use |
| Plans.PlanIsDiscovered | src/capability_runner/discovery/discovery_engine.py:134-396 | Discovery is complete: every sequence of at most 8 valid actions that apply, with a change of snapshot between repeated ones and a claimable end, is discovered by a model that proposes it, with exactly those actions dispatched |
| Compiler.ExecutedStages | src/capability_runner/interaction/action_gateway.py:128-209 | A gateway call is EXECUTED exactly when the target is bound, in scope, the decision recorded and ALLOW, the dispatch admitted, the action APPLIED and its record taken, in this order |
| EndToEnd.BuildIsReady | src/capability_runner/capabilities/capability_builder.py:59-138 | A build of a successful discovery has only bound targets, valid goal-bound inputs, steps that materialise to the executed actions, and success conditions that hold on the last discovered state if the replay can read it |
| EndToEnd.CompletionHolds | src/capability_runner/capabilities/capability_builder.py:256-299 | Every compiled success condition is TRUE on a snapshot that shows the evidence targets as the discovery last saw them: equality with an input through the last fill, equality with a literal through the fingerprint, visibility |
| EndToEnd.TargetsAreTrusted | src/capability_runner/capabilities/capability_builder.py:106-117 | Every target a metadata-free, outcome-free build mentions was bound when it was discovered |
| Compiler.LoopOnTrail | src/capability_runner/discovery/discovery_engine.py:164-396 | Along the discovery loop the surface is where the dispatched actions lead from its start, each was let through and applied in its state, and the last snapshot shows the final state |
| Compiler.CollectGlimpses | src/capability_runner/discovery/snapshot_collector.py:18-46 | The discovery collector never fails: it shows every bound target as it looks, and as unavailable where it is ambiguous or its inspection raises |
| Looking.CollectTells | src/capability_runner/replay/snapshot_collector.py:29-53 | In any world the replay's collector gives every target as it was seen, in order, or fails on the first that is unbound, ambiguous or raises, for that reason |
| Looking.CollectAllTells | src/capability_runner/discovery/snapshot_collector.py:18-46 | In any world discovery's collector gives every target as it was seen, unavailable where it could not be read or is not bound, and inspects only bound ones |
| Discovery.CollectSnapshot | src/capability_runner/discovery/snapshot_collector.py:18-46 | The loop over the targets gives one observation each, without inspecting unbound ones |
| Compiler.ScriptRun | src/capability_runner/replay/replay_engine.py:234-430 | A definition whose bare steps materialise to a log of actions, replayed on the surface with every call executed, repeats the log up to the first state that cannot be read or that completes it, and ends there accordingly |
| Compiler.ScriptStep | src/capability_runner/replay/replay_engine.py:248-424 | One bare step observes, dispatches its action once and observes again; it stops before the call where the state cannot be read, and after it where the next cannot, or exactly where the completion holds |
| BuilderProofs.CompilationPreservesActions | src/capability_runner/capabilities/capability_builder.py:153-253 | Steps and ACT entries match one to one in order, kind and target; under the goal's inputs, which are exactly the declared ones and pass the input check, every fill materialises to its own entry's goal span, with repeated targets and shared last segments included |
| BuilderProofs.MetadataIsPlaced | src/capability_runner/capabilities/capability_builder.py:211-253 | Each metadata item sits on the one step it selects by kind, target and occurrence, no other step carries any, and none is left over |
| BuilderProofs.GoalInputsPass | src/capability_runner/capabilities/capability_builder.py:153-195 | Without a name conflict all fills of one input name share one span, and the declared inputs are exactly the names the goal binds |
| Buildable.BuildsExactlyWhen | src/capability_runner/capabilities/capability_builder.py:59-138 | A request builds exactly when it is fully specified (each guard spelled out) and no step base spells another base with the ordinal of one of its repetitions; fully specified with a collision, it fails in validation |
| Buildable.DistinctExactlyWhenApart | src/capability_runner/capabilities/capability_builder.py:230-234 | The step identifiers are distinct exactly when no base equals another base followed by an underscore and a number from 2 up to its count; identifiers that both carry a number never collide |
| BuildTells.BuiltParts | src/capability_runner/capabilities/capability_builder.py:59-138 | What a built definition holds: outputs, outcomes and identity of the request, the spelled step identifiers, required inputs as sensitive as their first target was declared, and for each template the condition it stands for with the evidence it rests on |
| BuildTells.RefusalsTell | src/capability_runner/capabilities/capability_builder.py:59-138 | A refused request is refused for its first gap, in the order of the guards; a name conflict exactly where the first faulty fill takes its value from another part of the goal than an earlier fill of that input |
| Examples.StepIdsCollide | src/capability_runner/capabilities/capability_builder.py:230-234 | A success that is not built: clicks on menu.open, menu.open and menu.open_2 are discovered, the request is fully specified, and the build fails in validation |
| Builder.BuildCapability | src/capability_runner/capabilities/capability_builder.py:59-138 | The build, guard by guard, yields the definition or the first error of its specification, of which the BuilderProofs lemmas speak; it passes the validator exactly when well formed |
| Builder.BuildInputs | src/capability_runner/capabilities/capability_builder.py:153-195 | The loop over entries computes names, sources and declared inputs of the specification the lemmas are about |
| Builder.BuildSteps | src/capability_runner/capabilities/capability_builder.py:211-253 | The loop over entries computes the steps and the metadata left over of the specification the lemmas are about |
| Builder.BuildSuccessConditions | src/capability_runner/capabilities/capability_builder.py:256-299 | The loop over templates yields one condition per template or the missing-evidence error |
| EndToEnd.ConditionsAreBuilt | src/capability_runner/capabilities/capability_builder.py:264-299 | Each success condition is built from its own template and the evidence of its target |
| DiscoveryProofs.SuccessIsCompilable | src/capability_runner/discovery/discovery_engine.py:134-396 | For any model replies and any surface, SUCCESS implies: at most 8 actions and 12 turns, every ACT entry EXECUTED and equal in number to `actions`, every fill value a part of the goal at its recorded span, a final verified COMPLETE, and evidence true of the last snapshot for distinct trusted targets that include the required ones, some text coming from the goal |
| DiscoveryEnds.DiscoveryEndsAsTold | src/capability_runner/discovery/discovery_engine.py:134-396 | For any replies and any surface the trace tells every turn's answer and why a reply was refused, and outcome and reason follow from the last of them: DENIED, approval, an uncertain effect, help, a decline, the second refused reply, or one of the limits; one refused reply does not end the discovery |
| DiscoveryProofs.TurnIsSound | src/capability_runner/discovery/discovery_engine.py:164-396 | Every path through one turn keeps the loop's invariant or ends without success, or with a compilable one |
| DiscoveryProofs.GroundedEvidenceHolds | src/capability_runner/discovery/discovery_engine.py:474-513 | Verified evidence is true of the current snapshot, and a named source target was last filled with exactly that text |
| DiscoveryProofs.DispatchKeeps | src/capability_runner/discovery/discovery_engine.py:337-372 | An executed action is recorded with its kind, target and span, counted once, and remembered as the latest value of its target |
| DiscoveryProofs.RepeatsNeedChange | src/capability_runner/discovery/discovery_engine.py:332-335 | The action just dispatched is dispatched again only when the snapshot has changed since |
| Discovery.DiscoverBounded | src/capability_runner/discovery/discovery_engine.py:134-396 | The bounded loop computes the discovery of which the lemmas speak, for any replies |
| DiscoveryProofs.ActKeeps | src/capability_runner/discovery/discovery_engine.py:310-394 | A proposal that is rejected, stopped or not executed never ends in success, and one that goes on keeps the invariant: executed, told by its entry, counted, and remembered |
| Discovery.VerifyCompletion | src/capability_runner/discovery/discovery_engine.py:474-513 | The claims are accepted exactly when each is true of the snapshot, none repeats a target, and some text comes from the goal; the evidence is then given in order |
| ReplayProofs.ChainIsAtMostOnce | src/capability_runner/replay/replay_engine.py:118-173 | Over any chain of a replay and its resumptions, with any gateway answers and any change by operators, the step indices whose action reached the surface strictly increase, and each index passed over was blocked with APPROVAL_REQUIRED before dispatch and proved TRUE by the next snapshot |
| ReplayChain.ProvedStepsAreNeverRepeated | src/capability_runner/replay/replay_engine.py:525-582 | Over any chain, once the snapshot behind a blocked call has proved its step done, every later event belongs to a later step: automation neither calls nor looks for it again |
| ReplayChain.PolicyBindsChains | src/capability_runner/replay/replay_engine.py:118-173 | Over any chain, an action reaches the surface only where the policy says ALLOW for it, the run is suspended only where it says REQUIRE_APPROVAL, and a DENY ends in DENIED or a failure |
| ReplayEnds.ResumptionFollowsSnapshot | src/capability_runner/replay/replay_engine.py:525-582 | A resumed run, from its fresh snapshot: it ends there exactly when something declared as an end holds; goes on behind the blocked step, with no event of that step any more, exactly when its postcondition holds; at that step when it fails; and stops without a call, RESUME_STATE_UNVERIFIED or INVALID_INPUT, when neither can be told |
| SignIn.SignInIsPassedOver | demo_app/login_handoff.py:45-61 | The sign-in that needs approval: the replay is suspended before it; resumed once a person has signed in it passes the step over without another call, and resumed before that it asks again |
| ReplayEnds.RunEndsAsTold | src/capability_runner/replay/replay_engine.py:234-430 | In every run a call that needs approval is the last event and leaves a checkpoint of that step at the run's generation, any other refused call leaves none, and a snapshot seen after an action ends the run exactly when something declared as an end holds on it: the code of the one rule that holds, the conflict, the success with its outputs, or the failed extraction |
| ReplayEnds.RunTells | src/capability_runner/replay/replay_engine.py:234-430 | The whole of every run, spelled on its log: step after step until one ends it, or all are done and it ends INCOMPLETE |
| ReplayEnds.StepTells | src/capability_runner/replay/replay_engine.py:248-424 | The whole of a step, spelled on its log: which result each first look, each refusal and each look after the action leads to, with PRECONDITION_FAILED, POSTCONDITION_FAILED, STEP_TIMEOUT after exactly the allowed looks, and the UNKNOWN that goes on without a retry policy |
| ReplayEnds.StepActsExactlyWhen | src/capability_runner/replay/replay_engine.py:249-319 | A step calls the gateway exactly when its state can be collected, its precondition is absent or holds there and its input is given, with the action its template spells, on its own target, once; a refusal ends it for the gateway's reason |
| ReplayEnds.SnapshotEnds | src/capability_runner/replay/replay_engine.py:478-523 | A snapshot ends a run exactly when something declared as an end holds on it, and with the result that is declared |
| ReplayGuards.StartsExactlyWhen | src/capability_runner/replay/replay_engine.py:118-173 | A run starts at its first step exactly when its inputs fit and the profile is of its family and binds every mentioned target; otherwise it is refused, for the first fault in this order, without a look |
| ReplayGuards.ResumesExactlyWhen | src/capability_runner/replay/replay_engine.py:118-173 | A suspended run is resumed from its fresh snapshot exactly when it could be started, its checkpoint names a step of this definition and version, and the generation is newer; each other case has its reason |
| ReplayGuards.ValidationMeans | src/capability_runner/replay/replay_engine.py:175-232 | `validate_resume` refuses what resumption refuses but for the generation, and answers VALID exactly on snapshots where the blocked step's postcondition holds or fails, or the run has ended without a failure |
| ReplayProofs.RunCoversAnInterval | src/capability_runner/replay/replay_engine.py:248-424 | One run calls the gateway for a contiguous interval of steps, once each; only its last event may be a call not executed; each step observes at most 1 + max_attempts times; a later step starts only from an observation on which the one before was over |
| ReplayProofs.SuspensionIsClean | src/capability_runner/replay/replay_engine.py:305-339 | A checkpoint names the blocked step and the run's generation; that call never reached the surface, and exactly the steps before it were executed |
| ReplayProofs.StepHasShape | src/capability_runner/replay/replay_engine.py:248-424 | A step observes, calls the gateway at most once, then only observes; it goes on only when its last observation shows it over, which an UNKNOWN postcondition does without a retry policy |
| Replay.ExecuteSteps | src/capability_runner/replay/replay_engine.py:248-430 | The loop over the steps yields the run of the specification the lemmas are about |
| Replay.WatchStep | src/capability_runner/replay/replay_engine.py:356-424 | The retry loop over observations, which stops early on a verdict |
| Replay.TargetsAreSorted | src/capability_runner/replay/replay_engine.py:647-667 | The collected targets are strictly ordered, so a snapshot observes none twice |
| Replay.InputsAreChecked | src/capability_runner/replay/replay_engine.py:613-632 | Inputs pass exactly when only declared ones are given, required ones are there, and each fits its declared lengths and pattern |
| ReplayGuards.InputsMean | src/capability_runner/replay/replay_engine.py:613-632 | Which reason faulty inputs get: INVALID_INPUT for an undeclared name, otherwise what the first unfulfilled declaration tells |
| ReplayGuards.LengthsCanBeMet | src/capability_runner/capabilities/capability_validator.py:51-54 | A declaration without a pattern can be fulfilled by some text exactly when its length limits are in order |
| ReplaySoundness.RunIsSound | src/capability_runner/replay/replay_engine.py:478-523 | SUCCESS implies a last collected snapshot where every success condition holds and no declared rule does, with one value per declared output that the visible text of its target spells in its parser's grammar; BUSINESS_OUTCOME implies one where exactly one rule holds, with that code, and some success condition does not |
| ReplaySoundness.ResumeIsSound | src/capability_runner/replay/replay_engine.py:118-173 | The same for a resumed run, which may also end on the snapshot it resumes from |
| ReplaySoundness.NoStuckReplay | src/capability_runner/replay/replay_engine.py:234-430 | A validated capability whose inputs are all required, given inputs and a profile that pass the checks, never reads a missing input, evaluates no condition on an unobserved target, and reports no missing binding |
| ReplaySoundness.TargetsAreComplete | src/capability_runner/replay/replay_engine.py:647-667 | Every target of outputs, success conditions, outcomes and steps is collected |
| ReplayGuards.TargetsAreMentioned | src/capability_runner/replay/replay_engine.py:647-667 | A replay looks at exactly the targets its definition mentions |
| ReplaySoundness.CollectCovers | src/capability_runner/replay/replay_engine.py:598-611 | A collected snapshot observes every requested target, and with all targets bound only ambiguity stops collection |
| ReplaySoundness.ValidatedIsResumed | src/capability_runner/replay/replay_engine.py:175-232 | On the same snapshot `validate_resume` and `resume` take the same start index, terminal result or refusal, and a resumption ends RESUME_STATE_UNVERIFIED only if validation refused |
| Dispatch.MutualExclusion | src/capability_runner/interaction/session_controller.py:196-260 | Over all interleavings at most one task holds the dispatch region; an automation effect at g means automation at g, pause at g+1, or terminal at g+1 or g+2; an operator effect at g means the same operator in control at g, or terminal at g+1 |
| Dispatch.GenerationFencing | src/capability_runner/interaction/session_controller.py:67-260 | In every reachable state the generation modulo 3 tells who owns a live session; generations never decrease, terminal is absorbing, and admissions at one generation are all by one client, so no operator is admitted between two automation dispatches of one generation |
| Dispatch.GrantIsQuiescent | src/capability_runner/interaction/session_controller.py:86-126 | Control is granted only while nothing is in effect, and whatever is in effect later was admitted at the new generation or after |
| Dispatch.HandbackIsFrozen | src/capability_runner/interaction/session_controller.py:128-146 | The surface an operator hands back stays as it is until the next admission, whatever else happens |
| Dispatch.StepKeepsInv | src/capability_runner/interaction/session_controller.py:67-260 | Every atomic step keeps the invariant, never turns a generation back, and only an effect changes the surface |
| Dispatch.RunMovesForward | src/capability_runner/interaction/session_controller.py:67-260 | From any point of a run to a later one the log only grows, by admissions at least as new as the session was |
| Dispatch.StopIsFinal | src/capability_runner/interaction/session_controller.py:183-194 | Over every run, after a stop the session is terminal for good, nobody is admitted, only who was already in effect may finish, and a quiet surface stands still |
| Dispatch.CheckAdmitsExactly | src/capability_runner/interaction/session_controller.py:199-260 | In every reachable state the check admits exactly the client in control at the current generation, operator as well as automation, and otherwise frees the lock and changes nothing else |
| Dispatch.HandoffLeads | src/capability_runner/interaction/session_controller.py:67-260 | From every state of automation with no dispatch in flight a whole handoff can be made: pause, grant, an operator's dispatch at g+2, return, resume and automation's dispatch at g+3, each admitted once, with the surface handed back remembered |
| SessionControl.SessionController.OpenSession | src/capability_runner/interaction/session_controller.py:41-61 | A new session is stored under automation at generation 0; an existing one is refused |
| SessionControl.SessionController.RequestPause | src/capability_runner/interaction/session_controller.py:67-84 | Pausing from automation bumps the generation; from a pause it changes nothing; otherwise it is refused, with every other session unchanged |
| SessionControl.SessionController.GrantHumanControl | src/capability_runner/interaction/session_controller.py:86-126 | Control passes from a pause to the operator with a new generation, unless a dispatch is in flight; the same operator is answered again without change |
| SessionControl.SessionController.ReturnControl | src/capability_runner/interaction/session_controller.py:128-146 | The operator's session waits for the resume check at the same generation, unless a dispatch is in flight |
| SessionControl.SessionController.ResumeAutomation | src/capability_runner/interaction/session_controller.py:148-181 | Automation owns the session again at a new generation; an automation that already owns it is answered without change |
| SessionControl.SessionController.StopSession | src/capability_runner/interaction/session_controller.py:183-194 | The session becomes terminal, one generation on if it was live, with id, owner and lock kept and every other session unchanged |
| SessionControl.SessionController.TryLockDispatch | src/capability_runner/interaction/session_controller.py:196-200 | The dispatch lock is taken exactly when it was free |
| SessionControl.SessionController.EnterDispatch | src/capability_runner/interaction/session_controller.py:199-219 | The check made under the state lock gives the refusal of the dispatch machine, changes no control state, and frees the dispatch lock when it refuses |
| SessionControl.HandoffCycle | src/capability_runner/interaction/session_controller.py:67-260 | Along a handoff exactly the one in control may dispatch at each moment and only at its own generation, asking again changes nothing, another operator and a dispatch in flight are refused, and automation ends at generation g+3 |
| SessionControl.StopEndsSession | src/capability_runner/interaction/session_controller.py:183-194 | A stopped session keeps its id and owner, is one generation on if it was live, lets nobody dispatch, and refuses every transition with SESSION_STOPPED |
| SessionControl.OutOfOrderIsRefused | src/capability_runner/interaction/session_controller.py:67-181 | From which states each transition is possible, and that any other order is INVALID_STATE_TRANSITION |
| Handoff.ExactlyOnce | src/capability_runner/application/run_coordinator.py:66-113 | Over any interleaving of concurrent resume, register and discard the engine's resume runs at most once per intervention id, only for a consumed id, and a consumed id is never pending again: registering it changes nothing |
| Handoff.ResumeIsNeverStale | src/capability_runner/application/run_coordinator.py:291-318 | Whenever the coordinator calls the engine, the new generation is at least the requested one plus 2 and exceeds the suspended one, so the engine's STALE_GENERATION branch is dead in the composed system |
| Handoff.EngineCallIsEarned | src/capability_runner/application/run_coordinator.py:291-339 | Whenever the engine's resume is called, earlier steps of that call, in this order, saw the session waiting, matched the record to the pending continuation, got VALID from the validator, took the session back to automation, and claimed the continuation |
| Handoff.StopEndsHandoffs | src/capability_runner/application/run_coordinator.py:291-339 | After a stop no call gets past the return to automation: it finishes and gives up the continuation it held; the engine is called only by calls that had automation's generation before |
| Handoff.StepKeepsInv | src/capability_runner/application/run_coordinator.py:291-339 | Every atomic step of the composed machine keeps pending and consumed ids disjoint, one holder per resume lock, the generations of records and calls in order, and the dispatch machine's invariant |
| Freshness.ResumedFromWhatWasValidated | src/capability_runner/intervention/intervention_manager.py:173-229 | With one live continuation and its replay the only automation, and until an operator takes control again, every inspection of validation and of resumption sees the surface handed back, and no dispatch was admitted in between |
| Freshness.ValidAnswersAreHonoured | src/capability_runner/replay/replay_engine.py:118-232 | In such a run, a VALID answer makes the engine's resume take the start index or the terminal result it validated, and never end RESUME_STATE_UNVERIFIED |
| Freshness.ChainIsNeverHandedOn | src/capability_runner/intervention/intervention_manager.py:173-229 | If nobody asks for a pause while a continuation is being resumed, automation still has the generation it got back when the engine collects, unless the session was stopped |
| TwoContinuations.FreshnessNeedsOneContinuation | src/capability_runner/interaction/session_controller.py:71-72 | Why one live continuation is needed: a run where one suspended result has two identifiers, both validated on the surface handed back, and the second resumes at the same generation from a surface the first has changed |
| Coordinator.AcceptedMeansUntouched | src/capability_runner/application/run_coordinator.py:182-199 | The coordinator accepts exactly the results that carry a checkpoint; such a run ended in a blocked call that never reached the surface, with every touched step before it executed, so an uncertain effect is never continued |
| Coordinator.OthersAreNotAccepted | src/capability_runner/application/run_coordinator.py:182-199 | A result of one run at one generation is not accepted for another run or another generation |
| Coordinator.AcceptedIsItsOwn | src/capability_runner/application/run_coordinator.py:182-199 | Accepted exactly: a stopped result of this run, for approval, with a checkpoint of this generation at a step of this definition and version |
| Coordinator.ReplayContinuationCoordinator.SuspendForIntervention | src/capability_runner/application/run_coordinator.py:172-249 | Exactly when each outcome is given; a refused pause takes the registration back, a session that does not exist leaves it behind |
| Coordinator.ReplayContinuationCoordinator.Resume | src/capability_runner/application/run_coordinator.py:291-339 | An uninterrupted resumption calls the engine exactly when the continuation is pending, the session waits, the record matches and validation succeeds; the id is then consumed and the generation is new; a stopped session also consumes it, anything else keeps it |
| Registry.ReplayContinuationRegistry.Register | src/capability_runner/application/run_coordinator.py:73-93 | Refused exactly when the id is pending or was consumed; otherwise a new object is pending under it |
| Registry.ReplayContinuationRegistry.Consume | src/capability_runner/application/run_coordinator.py:101-110 | Succeeds exactly for the very object that is pending, which then moves to the consumed ids |
| Registry.ReplayContinuationRegistry.Discard | src/capability_runner/application/run_coordinator.py:98-99 | Forgets a pending id and nothing else |
| Interventions.InterventionManager.RequestIntervention | src/capability_runner/intervention/intervention_manager.py:49-80 | Accepted exactly for the run that owns the session, a new id and a session that can be paused; only then are session and records changed |
| Interventions.InterventionManager.GrantOperatorControl | src/capability_runner/intervention/intervention_manager.py:82-116 | Granted, waiting for quiescence, stopped or refused, told exactly by the session and its dispatch lock |
| Interventions.InterventionManager.ReturnOperatorControl | src/capability_runner/intervention/intervention_manager.py:118-171 | Only the operator in control hands a live session back, and only when no dispatch is in flight |
| Interventions.InterventionManager.BeginResumeValidation | src/capability_runner/intervention/intervention_manager.py:173-198 | Validation is awaited exactly for a known record whose session waits for it |
| Interventions.InterventionManager.FinishResumeValidation | src/capability_runner/intervention/intervention_manager.py:199-229 | After the await the session is resumed as it then is; a resumed answer carries a generation past the pause by two at least |
| Interventions.InterventionManager.StopIntervention | src/capability_runner/intervention/intervention_manager.py:231-243 | The session of a known record becomes terminal, one generation on if it was live, and no other session changes |
| Gateway.ReasonTellsSurfaceCall | src/capability_runner/interaction/action_gateway.py:128-298 | The reason tells exactly whether the surface was called; a surface call follows a recorded ALLOW and an admission at the expected generation, once, and is left at once |
| GatewayStages.OutcomesByStage | src/capability_runner/interaction/action_gateway.py:128-209 | Each outcome of automation's gateway, exactly, by what the world answers at each stage: APPROVAL_REQUIRED for a recorded REQUIRE_APPROVAL, DENIED for a recorded DENY or a recorded refusal of the scope, EXECUTED for an applied and recorded action; and the surface is called exactly behind a recorded ALLOW and an admission |
| GatewayStages.ReasonsByStage | src/capability_runner/interaction/action_gateway.py:128-298 | Each reason of automation's gateway, exactly, by the stages and by which record failed |
| GatewayStages.OperatorOutcomesByStage | src/capability_runner/intervention/operator_action_gateway.py:51-212 | Each outcome of the operator's gateway, exactly, with the record that every result needs |
| Gateway.OperatorReasonTellsLess | src/capability_runner/intervention/operator_action_gateway.py:51-212 | Whether the operator's dispatch reaches the surface is told by binding, policy, evidence and admission alone; a surface reason implies a call, but lost post-action evidence does not |
| Gateway.OperatorBlamesSurface | src/capability_runner/intervention/operator_action_gateway.py:171-212 | The input that shows it: an unbound target with the evidence store down is reported as POST_ACTION_EVIDENCE_FAILED without a surface call |
| Gateway.OperatorBlamesExactly | src/capability_runner/intervention/operator_action_gateway.py:51-212 | The operator's gateway blames the surface without having called it exactly when the dispatch stopped before the surface with a result to record, and that record failed |
| Evaluator.TerminalIsMonotone | src/capability_runner/replay/state_evaluator.py:121-164 | Learning more never turns one definite terminal state into another, except into a conflict: INCOMPLETE and CONFLICT are stable, SUCCESS stays or becomes CONFLICT, a business outcome keeps its code or becomes CONFLICT |
| Meanings.TerminalMeans | src/capability_runner/replay/state_evaluator.py:121-164 | Each terminal state, exactly, over single conditions: SUCCESS, a business outcome with its code, CONFLICT, INCOMPLETE, and the undetermined rest |
| Meanings.ConditionMeans | src/capability_runner/replay/state_evaluator.py:87-119 | When a condition is TRUE and when FALSE, spelled over the visible text and the expected one between surrounding whitespace, and exactly which issue it raises otherwise |
| Meanings.OutputMeans | src/capability_runner/replay/state_evaluator.py:166-289 | One output, exactly: the value its target's visible text spells, as trimmed text, as an amount as the page shows it, or as the three capitals it ends in; or which of the four issues it has |
| Meanings.ExtractionMeans | src/capability_runner/replay/state_evaluator.py:166-204 | Extraction yields the value of every output, by name and in order, or the issue of the first that has none |
| Meanings.UnknownIsFirst | src/capability_runner/replay/state_evaluator.py:225-242 | An unknown conjunction carries the issue of its first unknown condition, all before it holding |
| Evaluator.ConditionIsMonotone | src/capability_runner/replay/state_evaluator.py:87-119 | A TRUE or FALSE condition keeps its verdict when unknown observations or missing inputs become known |
| Evaluator.AllConditionsMeans | src/capability_runner/replay/state_evaluator.py:225-242 | A conjunction is TRUE exactly when every condition is, FALSE exactly when some condition is |
| Evaluator.TrueOutcomeIsDeclared | src/capability_runner/replay/state_evaluator.py:121-164 | The outcomes found true are exactly the declared rules that hold |
| Evaluator.Extract | src/capability_runner/replay/state_evaluator.py:166-204 | The loop over the outputs yields the extraction that Meanings.ExtractionMeans tells of |
| Evaluator.BalanceIsReadBack | demo_app/app.py:167-170 | A printed balance followed by a three-capital code is read back as that code always, and as that amount exactly when it is not negative and its digits past the 28th are zeros, which every amount below 10^28 satisfies |
| Money.MinorUnitsAreExact | src/capability_runner/replay/state_evaluator.py:256-283 | The decimal multiplication is exact exactly when every digit it drops is a zero, so below 10^28 always |
| Money.MinorUnitsAreNearest | src/capability_runner/replay/state_evaluator.py:256-283 | The amount read is the nearest multiple of the first unit that 28 digits cannot drop, the even one of two equally near |
| Money.MoneyIsRead | src/capability_runner/replay/state_evaluator.py:78-80 | The money parser reads exactly the texts that show an amount as the page prints it, with or without commas, dollar sign and code, as that amount in 28 digits |
| Money.CodeIsRead | src/capability_runner/replay/state_evaluator.py:81-83 | The code parser reads exactly a code alone, or behind whitespace on the line of something else |
| Money.SpellingsAgree | src/capability_runner/replay/state_evaluator.py:78-81 | The grouped and the ungrouped spelling of an amount parse to the same minor units |
| Money.MoneyRoundTrip | demo_app/app.py:167-170 | For every integer balance: what its printed form parses to, and exactly when that is the balance |
| Money.ParseMoneyIsComplete | src/capability_runner/replay/state_evaluator.py:78-80 | Every text of the money grammar is accepted with its value |
| Money.ParseMoneyIsSound | src/capability_runner/replay/state_evaluator.py:78-80 | Only texts of the money grammar are accepted |
| Money.CodeRoundTrip | src/capability_runner/replay/state_evaluator.py:81-83 | The code printed behind any balance is the code read back |
| Redaction.OneValueExactly | src/capability_runner/evidence/redaction.py:27-32 | One value is removed from every text exactly when it does not occur in the placeholder, does not begin with an end of it, and nowhere runs into it except where the text before had contained an earlier occurrence |
| Redaction.ReplaceMeans | src/capability_runner/evidence/redaction.py:27-32 | Replacement keeps the parts of a text between the occurrences found from the left without overlap, in order, and changes only what stands between them |
| Redaction.SettledIsComplete | src/capability_runner/evidence/redaction.py:27-32 | Any number of values are removed from every text when no occurrence of theirs can touch a placeholder, the last one being allowed to be only harmless |
| Redaction.RedactionIsComplete | src/capability_runner/evidence/redaction.py:27-32 | Values without brackets, longest first, are removed from every text exactly when none occurs inside the placeholder |
| Redaction.BracketsBreakRedaction | src/capability_runner/evidence/redaction.py:27-32 | Two values with a bracket, neither in the placeholder: one whose redaction spells it again, and one that does no harm |
| Redaction.PayloadsAreSanitizedExactly | src/capability_runner/evidence/redaction.py:35-68 | For values longest first: every payload comes out exactly when it is supported, keeps shape, keys and texts without a value, and is clean exactly when its rendered stamps are, if and only if every text is cleaned |
| Redaction.PayloadRedaction | src/capability_runner/evidence/redaction.py:35-68 | Given that every text is cleaned and the placeholder is free: shape, keys and texts without a value are kept, what is secret is the placeholder, and no string leaf contains an explicit value exactly when the rendered stamps contain none |
| Redaction.SupportedExactly | src/capability_runner/evidence/redaction.py:35-68 | A type error is raised exactly for an unsupported value or a key that is no string, outside sensitive keys |
| Redaction.CaseDoesNotMatter | src/capability_runner/evidence/redaction.py:9-14 | A key is sensitive in whatever case it is written |
| Redaction.RedactText | src/capability_runner/evidence/redaction.py:27-32 | The loop of replacements, longest value first, yields the text the lemmas are about |
| Validator.Validate | src/capability_runner/capabilities/capability_validator.py:29-58 | No error is collected exactly when names, step ids and codes are unique, success conditions exist, every reference is to a declared input, and length limits are in order; and every error names something that is wrong |
| Validator.ValidateUnique | src/capability_runner/capabilities/capability_validator.py:60-65 | An error is added exactly when a value repeats |
| Validator.ValidateStep | src/capability_runner/capabilities/capability_validator.py:67-78 | An error is added exactly when a fill value or a condition refers to an undeclared input |
| Text.StripTrims | src/capability_runner/replay/state_evaluator.py:213-223 | What is stripped off is whitespace, and what is left is the stretch between |
| Text.StripMeans | src/capability_runner/replay/state_evaluator.py:213-223 | Stripping gives the one core that a string has between whitespace |

## Left out

- Freshness.ResumedFromWhatWasValidated: holds until an operator takes control again after the resumption; a pause by a third party during it may change the surface. `Freshness.ChainIsNeverHandedOn` removes the condition where nobody asks for a pause meanwhile.
- Freshness.ValidAnswersAreHonoured: takes the snapshots of validation and resumption as one inspection per target of the surface at that moment; that an inspection does not change the surface is part of the condition that only dispatches do.
- EndToEnd.CompilationPreservesMeaning: takes the text fingerprint as injective, and every gateway call of the replay as executed; `EndToEnd.UnrefusedReplaySucceeds` says when they are.
- Coordinator.AcceptedMeansUntouched: assumes that the policy gives one reason for asking an approval, as the policy guard does.
- Coordinator.ReplayContinuationCoordinator.Resume: one uninterrupted call up to the engine's; interleaved calls are the machine of `Handoff`.
- Dispatch.MutualExclusion: one session per machine; sessions share no state but the map they are stored in.
- Evidence of lifecycle events, their metadata and fingerprints of observations; evidence of policy decisions and actions is in the gateways, and may fail there.
- Evidence of the intervention manager, whose failure would raise after the transition it records.
- An exception of an inspection leaves the replay engine; here the run ends with the reason InspectionRaised.
- Redaction.SettledIsComplete: for several values a sufficient condition; the exact one is given for one value and for values without brackets.
- Timestamps, fresh identifiers, retry delays, the discovery timeout, prompts and repair codes: the model's replies are arbitrary at every turn.
- `execute_observed`, browser discovery and binding compilation: the first two repeat modelled paths, the last hangs on hashes and serialised text.
- The policy guard's rules and the browser's URL scope, which are arbitrary functions here.
- Length limits of the typed contracts, except turns, actions, attempts and input names; regular expressions of inputs are the sets of strings they accept.
- Unicode whitespace and digits: text is over ASCII whitespace and digits.
- An omitted optional input used by a fill raises in the source; here the run ends as `Crashed`.
- Asynchronous methods of the controller are atomic: none awaits while it holds the state lock, so on one event loop none is interrupted. For the same reason a request for intervention is one step.
- Locator resolution and row matching in a browser: a target is looked at and acted on through functions of the world.
