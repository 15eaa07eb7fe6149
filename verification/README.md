# Verified model of the RCI inquiry engine

RCI records an inquiry as a ledger of events. Commands are decided against the state the ledger
rebuilds, external effects are driven through a compare-and-swap ledger, and pure components compare
recovery costs, decide finite logic, validate quotients, enumerate routes and select what to do next.
This project models those parts in Dafny and proves what they promise for all inputs, all replayable
ledgers and all interleavings of executors.

`dafny verify dfyconfig.toml` checks every file.

| file | what it models |
|---|---|
| `Sequences.dfy` | distinctness, membership and the stable sort shared by the other files |
| `Routes.dfy` | the two worklist enumerations and the verdicts over all walks |
| `FiniteLogic.dfy` | formulas, their interpreter, universes and the exhaustive decision |
| `Z3Backend.dfy` | the translation to Bool/Int expressions, model extraction and the decision around a solver |
| `Quotient.dfy` | the pairwise check of a finite quotient of a transition system |
| `CostArithmetic.dfy` | cross-multiplied comparison of reduced fractions and of cost vectors |
| `RecoveryFrontier.dfy`, `RecoveryComparison.dfy` | frontier derivation, comparison and the second, separately written check |
| `InquiryModel.dfy`, `Transitions.dfy` | the records of an inquiry, the decider, the reducer and replay |
| `EffectLifecycle.dfy`, `EffectLedger.dfy`, `EffectAgreement.dfy` | effects over every replayable ledger, the ledger as exactly their log, and where decider and reducer agree |
| `ClaimConflicts.dfy`, `ClaimBundles.dfy`, `Standing.dfy`, `Provenance.dfy` | conflicts, derived bundles, obligation and guard histories, and references in every reachable aggregate |
| `EffectExecutor.dfy`, `ExecutorSafety.dfy` | persisted executors as interleaving, crashing step machines, and the safety of every run |
| `ExecutorRuns.dfy`, `ExecutorCalls.dfy` | the imperative executor, its agreement with the step machine, and whole calls as runs |
| `ExecutorPresentation.dfy` | when and how often the adapter is called |
| `ExecutorSettlement.dfy`, `ExecutorCompletion.dfy` | what one call settles, and the uninterrupted happy path |
| `ExecutorSeal.dfy`, `ExecutorQuiet.dfy` | what calls still in flight can append once an attempt is over, and exactly when that is at most a refusal |
| `LedgerWitnesses.dfy` | ledgers that reach the states and the disagreements the theorems speak of |
| `Selection.dfy`, `Backlog.dfy`, `Scheduler.dfy` | successor selection, backlog reconciliation and obligation scheduling |

Modelling conventions. Ids are an ordered type: integers where only order and equality matter, and
in the inquiry part a datatype of supplied texts and digests of exact parts, so digests are injective.
Fingerprints are the content they digest. Clocks, adapter answers, route validation and solver answers
are parameters. A Python exception is an error value. Frozen tuples are sequences; dictionaries are maps,
or sequences in key order where the order is observable. The executor's answers are chosen afresh at
every step of the concurrent system; the imperative `Execute` takes one record of them and a schedule of
what other writers commit before each of its ledger accesses.

Four places where the code does not keep a rule that its neighbours suggest are stated exactly.

* The decider does not compare an accepted result's identity with those of other requests, but the state
  requires them to be unique (`EffectAgreement.FreshDecisionsReduce`, an if-and-only-if;
  `LedgerWitnesses.SharedResultIsRefused` is a ledger and a command that meet it). In the other direction
  the reducer accepts a request for a plan that is not ready (`EffectAgreement.ReducedDecisionsAreFresh`,
  with a ledger in `LedgerWitnesses.UnreadyPlanIsRequested`).
* The decider emits a claim whose derived attack obligation may reuse a recorded identity, because that
  identity omits the argument name; the reducer then refuses it (`ClaimConflicts.AdmissionAcceptedIff`,
  with a concrete ledger in `ClaimConflicts.AttackIdentitiesCollide`).
* Presentation of an attempt to the adapter is not at most once. Each call presents at most once
  (`ExecutorPresentation.OneInvocationPerCall`), so the attempt is presented at most once while at most
  one call for it begins before its outcome is logged (`PresentedAtMostOnce`). A newly begun call for a
  known attempt can come to the adapter exactly when the adapter and version match, nothing is accepted
  and no outcome is logged, started or not (`CallReachesAdapterIff`). So it fails in two ways: calls that
  overlap (`RacingCallsBothInvoke`) and calls that follow one another after a crash between presentation
  and outcome (`PresentationRepeats`, for any number of calls). `LedgerWitnesses.TwoPresentations` is such
  a run for any call.
* One accepting call does not always end an attempt for the calls still in flight. It does, up to one
  refused-preflight disposition, exactly when the attempt was sealable before it
  (`ExecutorQuiet.InFlightCallsAddAtMostARefusalIff`): no return was captured; or the return was unread
  and the request not accepted; or the executor's decode identity was taken and the request was accepted, or the call accepts
  the first decode of the return, or no decode that calls use is acceptable. Otherwise a call that began
  before the start was logged can still record its decode, even on an accepted request, or accept it;
  `LedgerWitnesses.DecodeAfterAcceptance` is such a run for any call.

## Model

| member | source | states |
|---|---|---|
| Routes.BuildAdjacency | src/rci/bindings/routes.py:88-92 | the adjacency loop gives every node exactly its sorted successors |
| Routes.WeightFalls | src/rci/bindings/routes.py:95-104 | replacing a dequeued path by its extensions lowers a measure, so both worklist loops end |
| Routes.Enqueue | src/rci/bindings/routes.py:101-103 | the inner loop appends exactly the unvisited extensions, in order |
| Routes.EnumerateSimpleRoutes | src/rci/bindings/routes.py:87-104 | returns exactly the simple start-to-goal paths, in order of length and lexicographically within a length, each once |
| Routes.EnumerateMaximalExecutions | src/rci/bindings/routes.py:107-124 | returns exactly the simple paths from start that cannot be extended, in the same order, each once |
| Routes.OrderDetermines | src/rci/bindings/routes.py:87-124 | that order and the set of paths fix the list, so each enumeration is one particular list |
| Routes.EraseLoops | src/rci/bindings/routes.py:87-104 | every walk contains a simple path with the same ends and no new node |
| Routes.ExtendFully | src/rci/bindings/routes.py:107-124 | every simple path runs on to an inextensible one |
| Routes.FirstAvoidingLeast | src/rci/bindings/routes.py:132 | the first route that avoids a node is the least avoiding one in that order |
| Routes.Demonstrate | src/rci/bindings/routes.py:127-142 | for every graph and prerequisite: may_reach iff some walk reaches the goal, must_pass iff one does and all visit the prerequisite, the bypass is the unique least avoiding walk by length and then lexicographically, must_reach iff every inextensible path ends at the goal |
| Routes.MustReachCondition | src/rci/bindings/routes.py:139-140 | must_reach is every inextensible path visiting the goal together with the goal being a dead end on every route |
| Routes.MustReachNeverStrands | src/rci/bindings/routes.py:139-140 | when must_reach holds, the goal is still reachable from wherever any walk has got to |
| FiniteLogic.EvaluateDependsOnSymbols | src/rci/formal/ast.py:99-144 | evaluation, errors included, depends only on the formula's symbols |
| FiniteLogic.EnumerationExact | src/rci/formal/exhaustive.py:109-118 | the enumeration lists every assignment of the universe exactly once, assignment_count in all |
| FiniteLogic.WellBoundEvaluates | src/rci/formal/ast.py:99-126 | a correctly bound formula evaluates without error under every assignment |
| FiniteLogic.WellBoundSymbols | src/rci/formal/ast.py:129-144 | a correctly bound formula only mentions declared symbols |
| FiniteLogic.Search | src/rci/formal/exhaustive.py:139-171 | the decision loop returns the first satisfying assignment and its position, or UNSAT with the full count, or the first evaluation error |
| FiniteLogic.ExhaustiveCheck | src/rci/formal/exhaustive.py:121-171 | which guard fires when; within budget a correctly bound formula is SAT iff some assignment satisfies it |
| FiniteLogic.DecisionCorrect | src/rci/formal/exhaustive.py:121-171 | SAT carries a real assignment, UNSAT checked them all, and a well-bound formula never raises |
| FiniteLogic.ImplicationAttack | src/rci/formal/exhaustive.py:174-194 | a necessity or prerequisite attack is UNSAT iff the consequence entails the condition everywhere; a sufficiency attack iff the condition entails the consequence |
| FiniteLogic.RefutedEntailment | src/rci/formal/exhaustive.py:174-194 | the attack formula is satisfiable iff the entailment fails |
| Z3Backend.Translate | src/rci/backends/z3_backend.py:278-309 | the loop succeeds iff the binding is valid and builds the expression, the side constraints and the variables |
| Z3Backend.ExtractAssignment | src/rci/backends/z3_backend.py:312-333 | the loop reads one value per domain and fails where a model value is outside its domain |
| Z3Backend.ConstraintsMean | src/rci/backends/z3_backend.py:278-309 | the side constraints hold iff every variable's value lies in its domain |
| Z3Backend.ExtractionAssigns | src/rci/backends/z3_backend.py:312-333 | a valuation satisfying the constraints extracts to an assignment of the universe |
| Z3Backend.TranslationPreserves | src/rci/backends/z3_backend.py:199-275 | the translated expression has the truth value of direct evaluation under the extracted assignment |
| Z3Backend.EncodeExtracts | src/rci/backends/z3_backend.py:312-333 | every assignment is the extraction of a valuation that satisfies the constraints |
| Z3Backend.ExtractionInjective | src/rci/backends/z3_backend.py:312-333 | two satisfying valuations with one extraction are the same valuation |
| Z3Backend.TranslationEquisatisfiable | src/rci/backends/z3_backend.py:278-309 | the translated problem is satisfiable iff the formula is over its universe |
| Z3Backend.CheckWithZ3 | src/rci/backends/z3_backend.py:365-487 | nonpositive bounds raise; node budget, ill binding, a missing extra, a failed load and a raising backend are refused in that order with their own reason; execution, logical result and verdict stay separate |
| Z3Backend.WitnessRechecks | src/rci/backends/z3_backend.py:312-333 | every extracted witness satisfies the formula when rechecked |
| Z3Backend.CheckDecides | src/rci/backends/z3_backend.py:365-487 | with a faithful solver a definite answer is SAT iff the formula is satisfiable, and its witness rechecks true |
| Quotient.ChecksCoverAllPairs | src/rci/compression/fixtures.py:48-133 | each flag over unordered pairs equals the property over all ordered pairs of states |
| Quotient.WordsStayTogether | src/rci/compression/fixtures.py:48-133 | two states of one class stay in one class with equal consequences along every word |
| Quotient.FiniteCheckDecidesAllWords | src/rci/compression/fixtures.py:48-133 | the two finite flags hold iff no word of any length separates two states of one class |
| Quotient.RecursiveUpdateExists | src/rci/compression/fixtures.py:48-133 | recursive_update iff an update function on classes exists |
| Quotient.CounterexampleIsReal | src/rci/compression/fixtures.py:48-133 | a counterexample is returned iff a check fails, and it violates the one that fails first |
| Quotient.ExactQuotientIsCoarsest | src/rci/compression/fixtures.py:48-133 | exact equivalence makes the quotient the coarsest that factors consequences, and with compatibility it is observational equivalence |
| Quotient.DescentMeansUnionOfClasses | src/rci/compression/fixtures.py:48-133 | determinations descend iff each is a union of classes |
| CostArithmetic.CrossTransitive | src/rci/memory/recovery.py:35-42 | the cross-multiplied coordinate order is transitive, strictly where a step is strict |
| CostArithmetic.CrossZeroIsIdentity | src/rci/memory/models.py:349-381 | because fractions are reduced, two same-axis coordinates compare equal iff they are the same record |
| CostArithmetic.CoordinateComparison | src/rci/memory/recovery.py:35-42 | a comparison raises iff the axes differ, gives 0 iff the coordinates are one record, is antisymmetric, and gives -1 iff the fraction is smaller |
| CostArithmetic.RelationMeans | src/rci/memory/recovery.py:45-66 | each of the four verdicts holds iff its Pareto condition does |
| CostArithmetic.ParetoIsPartialOrder | src/rci/memory/recovery.py:45-66 | reflexive, transitive, and EQUAL iff the two vectors are the same record |
| CostArithmetic.PointOrderTotal | src/rci/memory/recovery.py:69-89 | the lexicographic point order is a total order on points over one set of axes |
| RecoveryFrontier.DeduplicateObservations | src/rci/memory/recovery.py:92-103 | fails iff one identity has two contents, else lists the same observations by identity, each once |
| RecoveryFrontier.KeepUnique | src/rci/memory/recovery.py:129-137 | of equal-cost points the one with the smallest identity is kept |
| RecoveryFrontier.DeriveRecoveryFrontier | src/rci/memory/recovery.py:106-159 | which inputs are refused, and that the result is the declared frontier of the observations |
| RecoveryFrontier.FrontierIsAntichain | src/rci/memory/recovery.py:139-159 | any two frontier points are incomparable |
| RecoveryFrontier.FrontierCovers | src/rci/memory/recovery.py:106-159 | every successful observation is equalled or beaten by a frontier point |
| RecoveryFrontier.FrontierIgnoresOrder | src/rci/memory/recovery.py:106-159 | the frontier does not depend on the order or repetition of the input |
| RecoveryComparison.CheckRecoveryFrontier | src/rci/memory/recovery.py:162-178 | accepts exactly the canonical frontiers |
| RecoveryComparison.ScanRow | src/rci/memory/recovery.py:199-208 | the scan stops at the first covering point and reports whether an incomparable one came before |
| RecoveryComparison.EvaluateFrontiers | src/rci/memory/recovery.py:181-227 | the nested loops give the declared outcome and coverage, or raise iff the frontiers are not comparable |
| RecoveryComparison.ConstructComparison | src/rci/memory/models.py:878-901 | the record's validator accepts iff the shape rules hold and outcome and coverage are the evaluated ones |
| RecoveryComparison.CompareRecoveryFrontiers | src/rci/memory/recovery.py:230-247 | builds a provisional comparison of the evaluated outcome and coverage that passes its own validator, and raises iff the frontiers are not comparable |
| RecoveryComparison.BuiltComparisonIsAccepted | src/rci/memory/checks.py:84-141 | every comparison the builder returns is accepted by the second checker |
| RecoveryComparison.StrictFlagIgnoresOrder | src/rci/memory/recovery.py:199-208 | a point's strict flag does not depend on which covering point is met first |
| RecoveryComparison.StrictAdvantageMeans | src/rci/memory/recovery.py:196-227 | STRICT_ADVANTAGE iff the baseline is nonempty, each of its points is equalled or beaten, and one is strictly beaten |
| RecoveryComparison.DerivedFrontiersCompare | src/rci/memory/recovery.py:106-227 | frontiers derived under the same pins always compare, and STRICT_ADVANTAGE holds iff the raw observations show it: there is a baseline success, each is equalled or beaten by a retained one, and one that no baseline success betters is strictly bettered |
| RecoveryComparison.AdvantageIsOneWay | src/rci/memory/recovery.py:181-227 | swapping the roles of the same two point sets cannot also give a strict advantage |
| RecoveryComparison.VectorRelation | src/rci/memory/checks.py:30-54 | the second implementation's relation equals the first's on every pair of vectors |
| RecoveryComparison.OrdersAgree | src/rci/memory/checks.py:57-67 | the second point order equals the first |
| RecoveryComparison.CheckFrontier | src/rci/memory/checks.py:70-81 | accepts exactly the canonical frontiers |
| RecoveryComparison.ScanRetained | src/rci/memory/checks.py:102-122 | the second scan finds the same first covering point and the same incomparability |
| RecoveryComparison.CollectCoverage | src/rci/memory/checks.py:100-122 | the second nested scan finds the builder's coverage and incomparability |
| RecoveryComparison.CheckRecoveryComparison | src/rci/memory/checks.py:84-141 | accepts a comparison iff the builder, without raising, gives that outcome and coverage for the same frontiers |
| Transitions.CollectConflicts | src/rci/core/transitions.py:270-276 | the loop that grows the conflict list and its identity set |
| Transitions.CollectObligations | src/rci/core/transitions.py:287-290 | the loop that keeps candidates of new fingerprint |
| Transitions.DeriveClaimConsequences | src/rci/core/transitions.py:264-292 | the sorted conflict and obligation bundle of a new claim |
| Transitions.Replay | src/rci/core/replay.py:12-22 | the loop is the fold of the reducer and stops at the first refused event |
| Transitions.FoldSplits | src/rci/core/replay.py:12-22 | replaying a concatenation is replaying its parts in turn |
| EffectLifecycle.EvolveSound | src/rci/core/transitions.py:3793-4081 | one reduction only moves records forward and keeps the aggregate rules |
| EffectLifecycle.LedgerMoves | src/rci/core/state.py:514-553 | of two points of one ledger the later aggregate extends the earlier |
| EffectLifecycle.AttemptsOnlyAdvance | src/rci/core/effects.py:321-341 | an attempt goes planned, started, ended; its outcome never changes; after acceptance no attempt is planned or started |
| EffectLifecycle.DecodesReadCapturedReturns | src/rci/core/effects.py:351-381 | each decode reads a return its own request captured and an accepted result is a successful decode |
| EffectLifecycle.KnownMeansRecorded | src/rci/core/transitions.py:496-710 | an effect decision yields no event iff the aggregate already holds exactly the command's record |
| EffectLifecycle.AppliedCommandsAreIdempotent | src/rci/core/transitions.py:496-710 | deciding an applied effect command again yields no events in every later state of the ledger |
| EffectLifecycle.AtMostOneOfEach | src/rci/core/transitions.py:3912-4081 | a replayable ledger holds at most one start and one outcome per attempt, one decode and one refusal disposition per identity, one acceptance per request |
| EffectLedger.RecordedWasLogged | src/rci/core/transitions.py:3876-4081 | every record of a reachable request was logged by exactly the command it answers |
| EffectLedger.LoggedIsRecorded | src/rci/core/transitions.py:3876-4081 | every logged effect command leaves its record in all later aggregates |
| EffectLedger.OutcomeAfterStart | src/rci/core/transitions.py:3983-4000 | an outcome is logged only after its attempt's start |
| EffectLedger.DecodeAfterOutcome | src/rci/core/transitions.py:4024-4052 | a decode is logged only after the outcome that captured the return it reads |
| EffectLedger.AcceptAfterDecode | src/rci/core/transitions.py:4054-4081 | an acceptance is logged only after the successful decode it names |
| EffectLedger.OutcomeHeld | src/rci/core/transitions.py:3983-4022 | an ended attempt's outcome names that attempt and its route |
| EffectAgreement.FreshDecisionsReduce | src/rci/core/state.py:547-553 | the reducer accepts the event of a fresh effect decision iff the outcome is linked and the accepted result identity is not accepted elsewhere |
| EffectAgreement.ReducedDecisionsAreFresh | src/rci/core/transitions.py:3876-3886 | an effect event the reducer accepts is one the decider emits, except a request whose recorded plan is not ready |
| ClaimConflicts.ConflictSymmetric | src/rci/claims/logic.py:62-80 | the conflict of two opposing claims does not depend on their order |
| ClaimConflicts.NewConflictsExact | src/rci/core/transitions.py:270-276 | the loop finds exactly the opposing pairs of the new claim not yet known by identity |
| ClaimConflicts.AdmissionExact | src/rci/core/transitions.py:264-292 | admitting a claim keeps the conflict list equal to the all-pairs definition |
| ClaimConflicts.ConflictsAreOpposingPairs | src/rci/core/transitions.py:712-757 | in every reachable aggregate the conflicts are exactly the opposing pairs, once each, each with an obligation of the matching fingerprint, and no two obligations share a fingerprint |
| ClaimConflicts.ConflictsIgnoreAdmissionOrder | src/rci/core/transitions.py:4083-4115 | runs admitting the same claims in different orders record the same conflicts |
| ClaimConflicts.AdmissionAcceptedIff | src/rci/core/transitions.py:4083-4099 | the reducer accepts an emitted admission iff no derived obligation reuses a recorded identity |
| ClaimConflicts.AttackIdentitiesCollide | src/rci/claims/logic.py:100-123 | a concrete ledger and claim where the omitted argument name makes the reducer refuse what the decider emitted |
| ClaimBundles.BundleIsOrdered | src/rci/core/transitions.py:277-291 | both derived lists come in strictly ascending identity |
| ClaimBundles.ConflictBundleIgnoresHistory | src/rci/core/transitions.py:264-292 | reachable aggregates with the same claims derive the same conflicts for a new claim, in the same order |
| ClaimBundles.ModalClaimsStayUnderAttack | src/rci/claims/logic.py:100-123 | admitting a modal claim that is not negative keeps its falsification obligation on record for good, unless it was discharged at admission |
| Standing.EvidencePersists | src/rci/core/transitions.py:786-812 | evidence lawful for an obligation stays lawful in every later aggregate |
| Standing.ObligationHistoriesAreLawful | src/rci/core/transitions.py:759-839 | an obligation's dispositions are one predecessor chain along lawful edges that never reaches IMPOSSIBLE, and each SATISFIED step cites evidence the aggregate still owns for it |
| Standing.LastChangeIsTail | src/rci/core/state.py:1587-1589 | the dictionary of last changes holds exactly the tail of each condition's history |
| Standing.StandingContextsFollowHistory | src/rci/core/state.py:1621-1628 | each condition's history strictly alternates, and it stands iff its last change says so, equivalently by parity from its first |
| Provenance.RecordsAreGrounded | src/rci/core/transitions.py:712-757 | claims stay provisional in the one scope, and every obligation opened there after all of its parents, so parents form no cycle |
| Provenance.ReadyPlansSelectedOpenObligations | src/rci/core/transitions.py:463-494 | a logged ready plan selected an obligation that was open then, by its exact fingerprint and revision |
| Provenance.RecordedCommandsAreIdempotent | src/rci/core/transitions.py:463-494 | deciding again a recorded plan, claim, obligation, disposition, guard change or warrant yields no events in every later state |
| ExecutorSafety.SequenceCountsEvents | src/rci/persistence/sqlite.py:595-604 | the sequence number compared by an append is the length of the ledger |
| EffectExecutor.NextGood | src/rci/orchestration/effects.py:270-585 | one step of a call keeps the ledger replayable, keeps the call's own facts, and commits only commands for its attempt |
| ExecutorSafety.ApplyKeeps | src/rci/orchestration/effects.py:232-585 | every move of the concurrent system, crashes and other writers included, keeps the system invariant |
| ExecutorSafety.InvokedOnlyBetweenStartAndOutcome | src/rci/orchestration/effects.py:299-350 | in any run the adapter is called only after the attempt's start is in the ledger, and never by a call begun after its outcome was logged |
| ExecutorSafety.OneStartOneOutcomeOneAcceptance | src/rci/orchestration/effects.py:232-585 | in any run at most one start and one outcome per attempt and one acceptance per request are logged |
| ExecutorSafety.OneExecutorDecode | src/rci/orchestration/effects.py:478-571 | all calls for one attempt together log at most one decode |
| ExecutorSafety.ExecutorIdentitiesDiffer | src/rci/orchestration/effects.py:299-585 | in any run no two events written by calls, for whatever attempts, share an event identity, so the store's duplicate rule never turns one call against another |
| ExecutorSafety.LoggedInProtocolOrder | src/rci/orchestration/effects.py:270-585 | in any run a decode follows its captured return, which follows its start, and an acceptance follows its decode |
| ExecutorRuns.DriveAppends | src/rci/orchestration/effects.py:232-251 | the three-try append loop is the machine's read and commit steps for one command |
| ExecutorRuns.EventLedger.Append | src/rci/persistence/sqlite.py:577-640 | an append is stale iff the ledger no longer has the expected length, invalid iff it has but the ledger with the event does not fold, and otherwise extends the ledger by exactly that event |
| ExecutorRuns.WinnerFolds | src/rci/persistence/sqlite.py:606-628 | an event the executor evolved passes the store's own fold whenever its append wins the race |
| ExecutorRuns.PersistedEffectExecutor.Append | src/rci/orchestration/effects.py:232-251 | rebuild, decide, evolve and append, retrying lost races at most three times |
| ExecutorRuns.PersistedEffectExecutor.Accept | src/rci/orchestration/effects.py:572-585 | accepts a recorded successful decode when asked |
| ExecutorRuns.PersistedEffectExecutor.Interpret | src/rci/orchestration/effects.py:475-585 | decodes the captured return unless it already is, then accepts |
| ExecutorRuns.PersistedEffectExecutor.Perform | src/rci/orchestration/effects.py:345-473 | calls the adapter once and logs what came back |
| ExecutorRuns.PersistedEffectExecutor.StartOrRefuse | src/rci/orchestration/effects.py:299-344 | refuses an unsupported preflight, else logs the start before anything is performed |
| ExecutorRuns.PersistedEffectExecutor.Execute | src/rci/orchestration/effects.py:270-585 | the whole call, with other writers in between, ends with the ledger and result of the step machine |
| ExecutorCalls.CallIsARun | src/rci/orchestration/effects.py:270-585 | whatever a whole call does is a run of the concurrent system, so every safety result covers it |
| ExecutorPresentation.OneInvocationPerCall | src/rci/orchestration/effects.py:345-357 | in any run no call invokes the adapter twice |
| ExecutorPresentation.PresentedAtMostOnce | src/rci/orchestration/effects.py:299-357 | in any run where at most one call for an attempt begins before its outcome is logged, the adapter is invoked at most once for it |
| ExecutorPresentation.CallReachesAdapterIff | src/rci/orchestration/effects.py:270-357 | after any run a new call for a located attempt can come to invoke the adapter, in some continuation, iff adapter and version match, the request is not accepted and no outcome is logged |
| ExecutorPresentation.PresentationRepeats | src/rci/orchestration/effects.py:345-357 | from any such state any number of calls, none overlapping another, can each invoke the adapter and crash before its outcome is logged |
| ExecutorPresentation.RacingCallsBothInvoke | src/rci/orchestration/effects.py:299-357 | from any such state, started or not, two overlapping calls can both invoke the adapter |
| LedgerWitnesses.TwoPresentations | src/rci/orchestration/effects.py:299-357 | for any call there is a run from the empty ledger in which two calls present its attempt |
| LedgerWitnesses.NineEvents | src/rci/orchestration/effects.py:270-585 | for any accepting call and capable answers there is a nine-event ledger, planned in five events and completed by the call in four, that ends accepted |
| LedgerWitnesses.SharedResultIsRefused | src/rci/core/transitions.py:688-710 | a ledger of two requests decoded to one result identity on which the decider emits an acceptance that the reducer refuses |
| LedgerWitnesses.UnreadyPlanIsRequested | src/rci/core/transitions.py:3876-3886 | a ledger with a recorded plan that is not ready, whose request the decider refuses and the reducer accepts |
| ExecutorSettlement.SettledLedgerIsFinal | src/rci/orchestration/effects.py:270-585 | on a settled ledger any number of interleaved and crashing calls for the attempt append nothing |
| ExecutorSettlement.OneAcceptingCallSettles | src/rci/orchestration/effects.py:475-585 | once an outcome is logged, one uninterrupted accepting call leaves a ledger to which further calls for the attempt append nothing |
| ExecutorSeal.SealedRefuses | src/rci/orchestration/effects.py:299-585 | once the attempt is over, its decode identity is taken and its request accepted or not acceptable by a decode that calls use, the reducer takes no command of any call for it but an open refusal |
| ExecutorSeal.SealedAppendsARefusalAtMost | src/rci/orchestration/effects.py:270-585 | from any reachable sealed system all calls for the attempt, in flight or new, together append at most one refusal, and nothing once the request is accepted or the refusal recorded |
| ExecutorSeal.ShutStaysSilent | src/rci/orchestration/effects.py:270-585 | once the request is also accepted, no call for the attempt authors another event in any continuation, whatever other writers and calls for other attempts do |
| ExecutorQuiet.AcceptingCallSealsIff | src/rci/orchestration/effects.py:475-585 | an accepting call on an ended attempt leaves it sealed iff it was sealable: no return captured, or its return unread and its request unaccepted, or the decode identity taken and the request accepted, its first reader acceptable or nothing acceptable |
| ExecutorQuiet.PendingRun | src/rci/orchestration/effects.py:299-571 | every ledger with a captured return is the ledger of a run in which a call is about to record its own decode of it |
| ExecutorQuiet.SealedIffQuiet | src/rci/orchestration/effects.py:270-585 | an ended attempt is sealed iff in every run to that ledger the calls for it, in flight or new, append at most one refusal |
| ExecutorQuiet.InFlightCallsAddAtMostARefusalIff | src/rci/orchestration/effects.py:475-585 | let one accepting call run alone after any run to a ledger with an ended attempt: all calls in flight and all later ones then append at most one refusal, in all such runs, iff the attempt was sealable |
| ExecutorQuiet.LateDecodeLands | src/rci/orchestration/effects.py:475-571 | while the executor's decode identity is free, a pending decode is appended at the call's next two steps, accepted request or not |
| LedgerWitnesses.DecodeAfterAcceptance | src/rci/orchestration/effects.py:475-571 | for any call a run from the empty ledger in which another writer's decode is accepted and a pending decode of the same attempt is then still logged |
| ExecutorCompletion.InterpretationCompletes | src/rci/orchestration/effects.py:475-585 | from a captured, unread return with unused identities the rest of an accepting call logs exactly one decode and its acceptance |
| ExecutorCompletion.SoloCallCompletes | src/rci/orchestration/effects.py:270-585 | with a capable adapter and unused identities one uninterrupted call on a planned attempt logs exactly start, captured return, decode and acceptance, and ends accepted |
| Selection.DominationIsStrictOrder | src/rci/project/selection.py:11-34 | domination is irreflexive, asymmetric and transitive, missing costs included |
| Selection.DominationHasNoCycle | src/rci/project/selection.py:11-34 | every chain of dominations can be cut to one step, and none returns to its start |
| Selection.CollectPairsWith | src/rci/project/selection.py:60-62 | the inner pair loop |
| Selection.CollectPairs | src/rci/project/selection.py:58-62 | the outer pair loop |
| Selection.DeriveCapabilityFrontier | src/rci/project/selection.py:37-100 | the program computes the declared frontier or the declared error |
| Selection.DominatedByAMember | src/rci/project/selection.py:53-57 | every candidate is a member or is dominated by a member |
| Selection.FrontierIsExact | src/rci/project/selection.py:53-62 | members are exactly the undominated candidates, at least one, all others are dominated by a member, and the incomparable pairs are every pair of members |
| Selection.FrontierSelection | src/rci/project/selection.py:63-90 | the selected discriminator is the least-identity selectable member no dearer than any selectable one on every axis; none is selected iff there is none |
| Selection.FrontierIgnoresOrder | src/rci/project/selection.py:37-100 | the same result, errors included, for every input order |
| Backlog.Reconcile | src/rci/backlog/reconcile.py:74-153 | the loop over sorted findings gives the declared trace |
| Backlog.ApplyEffects | src/rci/backlog/reconcile.py:156-199 | the dictionary loop gives the declared map, listed once each by falling rank and identity, or the declared error |
| Backlog.ListingUnique | src/rci/backlog/reconcile.py:199 | at most one sequence lists a map |
| Backlog.ApplyingSplitsOverConcatenation | src/rci/backlog/reconcile.py:156-199 | applying two effect lists in turn equals applying their concatenation, exceptions included |
| Backlog.ApplyingIsIdempotent | src/rci/backlog/reconcile.py:156-199 | applying the same effects again changes no item |
| Backlog.ReconcilingRaisesIff | src/rci/backlog/reconcile.py:74-199 | applying the allowed effects of a reconciliation raises iff a derived identity names an item of another fingerprint or two fingerprints derive one identity |
| Backlog.ReconcilingReachesAFixpoint | src/rci/backlog/reconcile.py:74-199 | otherwise at most one open item per fingerprint remains, and reconciling and applying the same findings again changes nothing |
| Scheduler.DeduplicateObligations | src/rci/orchestration/scheduler.py:64-70 | the dictionary loop keeps the first entry of each fingerprint in sorted order |
| Scheduler.DeduplicationKeepsEarliest | src/rci/orchestration/scheduler.py:64-70 | with distinct (creation, identity) pairs exactly the earliest entry of each fingerprint is kept |
| Scheduler.KeyTotal | src/rci/orchestration/scheduler.py:73-82 | the priority key order is total, and ties pin creation and identity |
| Scheduler.ReadyExactlyWhen | src/rci/orchestration/scheduler.py:85-198 | for every entry list: READY iff the budget covers the cost and some deduplicated open entry has its parents completed and attempts left; the choice is such an entry of least key, and the rest of the budget remains |
| Scheduler.ChoiceIsUnique | src/rci/orchestration/scheduler.py:64-82 | with distinct (creation, identity) pairs the choosable entries are the eligible earliest of their fingerprints and the least key picks one |
| Scheduler.SatisfiedExactlyWhen | src/rci/orchestration/scheduler.py:85-198 | the plan says satisfied iff budget remains and every deduplicated entry is satisfied |
| Scheduler.PlanIgnoresOrder | src/rci/orchestration/scheduler.py:85-198 | with distinct (creation, identity) pairs the plan is the same for every order of the entries |
| Scheduler.ReadyPlansAreBounded | src/rci/orchestration/scheduler.py:85-198 | any run charging each READY plan has at most budget over cost of them, and at most the maximum for each key |

## Left out

- Persistence: files, SQLite, artifact storage and its content checks; the ledger is a sequence with compare-and-swap.
- ExecutorRuns.EventLedger.Append: the store's refusal of an event identity already in the database is not modelled; `ExecutorSafety.ExecutorIdentitiesDiffer` shows that calls cannot provoke it among themselves, so only another writer that uses a call's digest could.
- The Z3 library: a solver is a relation returning a valuation, unsat or unknown, or a raised error; the timeout bound and the two load failures are answers from outside, the solver version and the receipt are not modelled.
- Hashing and canonical JSON: digests and fingerprints are injective; item identities built from truncated hashes are arbitrary functions in `Backlog`.
- Record shape rules that the datatypes already enforce, free-text diagnostics, media types and effect size bounds; request, route and input validation before a call is one boolean answer.
- ExecutorSettlement.OneAcceptingCallSettles: speaks of calls begun afterwards; `ExecutorQuiet.InFlightCallsAddAtMostARefusalIff` covers the calls already in flight.
- ExecutorSettlement.OneAcceptingCallSettles: like its counterpart in `ExecutorQuiet` assumes the one call passes its adapter and route checks and its adapter answers the decode; a raising adapter is a crash of the call.
- Scheduler.ReadyExactlyWhen: the input fingerprint and plan identity of the step plan are not modelled.
- Warrant decisions are opaque append-only records, and "attack already discharged" is an arbitrary set that other commands may change; warrant policy and support are not part of this model.
- Candidates, residuals, corrections, nogoods, lemma versions, memory patches, licences, project records and learned probes in the decider: one opaque command stands for them, since they change none of the modelled records.
- Retrieval events: after one retrieval a second is refused by the policy-key rule, so runs of retrievals are not modelled.
- Effects of backlog records inside the inquiry aggregate; `Backlog` models the two functions themselves.
- The fixed demonstrations (reference graph, parity and counting fixtures), the CLI, the SDK and the container and model adapters.
