/** Ledgers that reach the states the protocol theorems speak of: a planned attempt for any call,
    and the two inputs on which the decider and the reducer part. */
module LedgerWitnesses {
  import opened Sequences
  import opened InquiryModel
  import opened Transitions
  import opened EffectLifecycle
  import opened EffectLedger
  import opened EffectAgreement
  import opened EffectExecutor
  import opened ExecutorRuns
  import opened ExecutorSafety
  import opened ExecutorCalls
  import opened ExecutorSettlement
  import opened ExecutorCompletion
  import opened ExecutorPresentation
  import opened ExecutorSeal
  import opened ExecutorQuiet

  // ------------------------------------------------------------ a recorded plan

  const SCOPE := Scope(Text(0), Text(0), Text(0))
  const DUTY := Obligation(Text(0), DischargeOpenDependency, Text(0), [], SCOPE, [], [], Open)
  const READY := Some(Selection(DUTY.id, AttemptKey(FingerprintOf(DUTY), Text(0), SCOPE.bindingRevision)))

  function Plan(selection: Option<Selection>): StepPlan { StepPlan(Text(0), Text(0), selection, Text(0)) }

  function State(id: Id, n: nat, plans: seq<StepPlan>, requests: seq<RequestState>): Inquiry {
    Inquiry(id, Text(0), Context(SCOPE, Text(0)), n, plans, requests, [], [], [DUTY], [], [], [], {})
  }

  /** The event identity of a command, from what it records; executors use other tags. */
  function Named(a: Action): Id {
    match a
    case StartInquiry(_, _) => EventId(Text(0), 10)
    case OpenObligation(o) => EventId(o.id, 11)
    case RecordStepPlan(p) => EventId(p.id, 12)
    case RequestEffect(q) => EventId(q.id, 13)
    case PlanAttempt(p) => EventId(p.id, 14)
    case StartAttempt(id) => EventId(id, 15)
    case RecordOutcome(_, o) => EventId(o.attemptId, 16)
    case RecordDecode(_, d) => EventId(d.id, 17)
    case AcceptResult(_, id) => EventId(id, 18)
    case _ => Text(0)
  }

  function Say(id: Id, a: Action): Command { Command(Named(a), id, 0, a) }
  function Said(id: Id, a: Action): Event { Event(Say(id, a), [], []) }

  /** No event identity occurs twice, as the store demands. */
  predicate DistinctNames(ledger: seq<Event>) {
    forall i, j :: 0 <= i < j < |ledger| ==> ledger[i].command.eventId != ledger[j].command.eventId
  }

  /** Start, one open obligation and one plan, ready or not. */
  function Opening(id: Id, selection: Option<Selection>): seq<Event> {
    [Said(id, StartInquiry(Text(0), Context(SCOPE, Text(0)))), Said(id, OpenObligation(DUTY)),
     Said(id, RecordStepPlan(Plan(selection)))]
  }

  lemma PlanRecorded(id: Id, selection: Option<Selection>)
    requires selection == None || selection == READY
    ensures Current(Opening(id, selection), State(id, 3, [Plan(selection)], []))
  {
    hide Fold, Evolve, Said, State, Plan;
    var all := Opening(id, selection);
    var (e0, e1, e2) := (all[0], all[1], all[2]);
    var s1 := State(id, 1, [], []).(obligations := []);
    InquiryStarts(id, s1, e0);
    DutyOpens(id, s1, e1);
    PlanJoins(id, selection, e2);
    NoEvents();
    FoldLast(Unstarted, [], e0);
    FoldLast(Unstarted, [e0], e1);
    FoldLast(Unstarted, [e0, e1], e2);
    assert [] + [e0] == [e0] && [e0] + [e1] == [e0, e1] && [e0, e1] + [e2] == all;
  }

  lemma NoEvents()
    ensures Fold(Unstarted, []) == Some(Unstarted)
  {}

  lemma InquiryStarts(id: Id, s: Inquiry, e: Event)
    requires s == State(id, 1, [], []).(obligations := [])
    requires e == Said(id, StartInquiry(Text(0), Context(SCOPE, Text(0))))
    ensures Evolve(Unstarted, e) == Some(Active(s))
  {}

  lemma DutyOpens(id: Id, s: Inquiry, e: Event)
    requires s == State(id, 1, [], []).(obligations := []) && e == Said(id, OpenObligation(DUTY))
    ensures Evolve(Active(s), e) == Some(Active(State(id, 2, [], [])))
  {
    var t := State(id, 2, [], []);
    assert Decide(Active(s), e.command) == Emits(e);
    assert RecordStep(s, e) == t;
    assert Lifecycle(t);
  }

  lemma PlanJoins(id: Id, selection: Option<Selection>, e: Event)
    requires (selection == None || selection == READY) && e == Said(id, RecordStepPlan(Plan(selection)))
    ensures Evolve(Active(State(id, 2, [], [])), e) == Some(Active(State(id, 3, [Plan(selection)], [])))
  {
    var s, t := State(id, 2, [], []), State(id, 3, [Plan(selection)], []);
    assert Decide(Active(s), e.command) == Emits(e);
    assert RecordStep(s, e) == t;
    assert Lifecycle(t);
  }

  /** A fresh effect command the reducer has no objection to extends the ledger. */
  lemma Extend(ledger: seq<Event>, s: Inquiry, a: Action) returns (longer: seq<Event>, t: Inquiry)
    requires Current(ledger, s) && a.Effect() && Judge(s, a).Fresh? && ReducerAdds(s, a)
    ensures longer == ledger + [Said(s.id, a)] && Current(longer, t)
    ensures EffectStep(s, Say(s.id, a)) == Some(t) && Evolve(Active(s), Said(s.id, a)) == Some(Active(t))
  {
    hide Fold, Judge, ReducerAdds, EffectStep, Lifecycle;
    var c := Say(s.id, a);
    FreshDecisionsReduce(ledger, s, c);
    t := Evolve(Active(s), Event(c, [], [])).value.inquiry;
    FoldLast(Unstarted, ledger, Event(c, [], []));
    longer := ledger + [Event(c, [], [])];
  }

  /** A fresh command for the request at one place replaces that request. */
  lemma ExtendAt(ledger: seq<Event>, s: Inquiry, i: nat, a: Action, q: RequestState)
    returns (longer: seq<Event>, t: Inquiry)
    requires Current(ledger, s) && a.Effect() && !a.RequestEffect? && Judge(s, a).Fresh? && ReducerAdds(s, a)
    requires i < |s.requests| && Target(s, a) == Some(s.requests[i])
    requires Advance(s, s.requests[i], Say(s.id, a)) == Some(q)
    ensures longer == ledger + [Said(s.id, a)] && Current(longer, t) && t.id == s.id
    ensures t.requests == s.requests[i := q]
  {
    hide Fold, Judge, ReducerAdds, Target, Advance, Lifecycle, RequestRules, Flatten;
    longer, t := Extend(ledger, s, a);
    LedgerSound(ledger, s);
    SoundRules(s);
    var j, p := TargetAt(s, Say(s.id, a));
    assert RequestId(s.requests[j]) == RequestId(s.requests[i]);
  }

  lemma FlattenOne<T>(r: RequestState, part: RequestState -> seq<T>)
    ensures Flatten([r], part) == part(r)
  {
    assert [r][1..] == [];
  }

  // ------------------------------------------------------------ a planned attempt

  function RouteOf(c: Call): InquiryModel.Route { InquiryModel.Route(Text(0), c.adapterId, c.version, Text(0)) }

  /** For every call there is a five-event ledger that plans exactly its attempt. */
  lemma PlannedLedger(c: Call) returns (ledger: seq<Event>, s: Inquiry)
    ensures |ledger| == 5 && DistinctNames(ledger) && Current(ledger, s) && s.id == c.inquiryId
    ensures Presentable(s, c) && Begin(s, c, true) == Preflighting(s)
    ensures forall id :: Unused(s.requests, Returns, ReturnId, id) && DecodeUnused(s, id)
    ensures forall e :: e in ledger ==> !e.command.action.RecordDecode?
  {
    hide Fold, Evolve, Locate, Unused, DecodeUnused, Presentable, Begin, Said, Opening, DistinctNames, Lifecycle;
    var (r, q) := (Bare(c), Planned(c));
    var action := PlanAttempt(q.attempts[0].plan);
    PlanRecorded(c.inquiryId, READY);
    RequestIsFresh(c);
    var s3 := State(c.inquiryId, 3, [Plan(READY)], []);
    var four, s4 := Extend(Opening(c.inquiryId, READY), s3, RequestEffect(r.request));
    AttemptIsFresh(s4, c);
    ledger, s := ExtendAt(four, s4, 0, action, q);
    assert s.requests == [q];
    PlannedIsPresentable(s, c);
    PlannedIsUnused(s, c);
    FiveNames(c);
  }

  function Bare(c: Call): RequestState {
    RequestState(Request(c.requestId, Text(0), c.adapterId, Text(0), Text(0)), [], [], [], None)
  }

  function Planned(c: Call): RequestState {
    Bare(c).(attempts := [Attempt(AttemptPlan(c.attemptId, c.requestId, RouteOf(c)), None, None)])
  }

  lemma RequestIsFresh(c: Call)
    ensures var s, a := State(c.inquiryId, 3, [Plan(READY)], []), RequestEffect(Bare(c).request);
      Judge(s, a).Fresh? && EffectStep(s, Say(c.inquiryId, a)) == Some(State(c.inquiryId, 4, [Plan(READY)], [Bare(c)]))
  {
    assert [] + [Bare(c)] == [Bare(c)];
  }

  lemma AttemptIsFresh(s: Inquiry, c: Call)
    requires s.requests == [Bare(c)]
    ensures var a := PlanAttempt(Planned(c).attempts[0].plan);
      Judge(s, a).Fresh? && Target(s, a) == Some(Bare(c)) && Advance(s, Bare(c), Say(s.id, a)) == Some(Planned(c))
  {
    FlattenOne(Bare(c), Attempts);
    assert Bare(c).attempts + Planned(c).attempts == Planned(c).attempts;
  }

  lemma PlannedIsPresentable(s: Inquiry, c: Call)
    requires s.requests == [Planned(c)]
    ensures Presentable(s, c) && Begin(s, c, true) == Preflighting(s)
  {}

  lemma PlannedIsUnused(s: Inquiry, c: Call)
    requires s.requests == [Planned(c)]
    ensures forall id :: Unused(s.requests, Returns, ReturnId, id) && DecodeUnused(s, id)
  {
    var q := Planned(c);
    FlattenOne(q, Returns);
    FlattenOne(q, Decodes);
    FlattenOne(q, AcceptedResult);
    NoReturns(q.attempts[0]);
  }

  lemma FiveNames(c: Call)
    ensures var asked := RequestEffect(Bare(c).request); var planned := PlanAttempt(Planned(c).attempts[0].plan);
      var ledger := Opening(c.inquiryId, READY) + [Said(c.inquiryId, asked)] + [Said(c.inquiryId, planned)];
      |ledger| == 5 && DistinctNames(ledger) && forall e :: e in ledger ==> !e.command.action.RecordDecode?
  {}

  lemma NoReturns(a: Attempt)
    requires a.outcome.None?
    ensures ReturnsIn([a]) == []
  {
    assert [a][1..] == [];
  }

  /** So for any call there is a run from nothing in which two calls present one attempt. */
  lemma TwoPresentations(c: Call, x: Answers) returns (moves: seq<Move>, end: System)
    requires Capable(x)
    ensures RunAll(NOTHING, moves) == Some(end)
    ensures |end.processes| == 2 && end.processes[0].call == end.processes[1].call == c
    ensures end.invocations == [Invocation(0, |end.ledger|), Invocation(1, |end.ledger|)]
  {
    hide Fold, RunAll, Presentable, Begin;
    var ledger, s := PlannedLedger(c);
    assert [] + ledger == ledger;
    var planned := BatchIsARun(NOTHING, ledger);
    var sys := RunAll(NOTHING, planned).value;
    var race;
    race, end := RacingCallsBothInvoke(sys, s, c, x);
    RunAllSplits(NOTHING, planned, race);
    moves := planned + race;
  }

  /** And for any accepting call and capable answers a run of nine events ends with the request
      accepted; the finished ledger is one that further calls leave alone. */
  lemma NineEvents(c: Call, x: Answers) returns (ledger: seq<Event>, s: Inquiry)
    requires c.accept && x.valid && x.preflight.Supported? && x.performance.Bytes? && x.decoding.Semantic?
    ensures |ledger| == 9 && Current(ledger, s) && Locate(s, c).Some? && Locate(s, c).value.0.accepted.Some?
    ensures Begin(s, c, x.valid) == Done(s) && HasOutcome(ledger, c.attemptId, |ledger|)
  {
    hide Fold, Drive, Locate, Unused, DecodeUnused, Presentable;
    var planned, first := PlannedLedger(c);
    var logged;
    logged, s := SoloCallCompletes(planned, first, c, x);
    ledger := planned + logged;
    assert ledger[6] == logged[1];
    FoldedPrefix(planned, first, logged, s);
    PlannedAdapter(first, s, c);
  }

  lemma FoldedPrefix(first: seq<Event>, s: Inquiry, more: seq<Event>, t: Inquiry)
    requires Current(first, s) && Current(first + more, t)
    ensures Moves(s, t) && Sound(s) && Sound(t)
  {
    hide Fold, Moves, Sound;
    assert (first + more)[..|first|] == first;
    var u := FoldedBefore(first + more, |first|, s);
  }

  lemma PlannedAdapter(s: Inquiry, t: Inquiry, c: Call)
    requires Moves(s, t) && Sound(s) && Sound(t) && Presentable(s, c) && Locate(t, c).Some?
    requires Locate(t, c).value.0.accepted.Some?
    ensures Begin(t, c, true) == Done(t)
  {
    hide Moves, Sound, Locate;
    LocateMoves(s, t, c);
  }

  // ------------------------------------------------------------ a decode after the acceptance

  /** The attempt started and its return captured, unread and with every identity free. */
  lemma CapturedLedger(c: Call) returns (ledger: seq<Event>, s: Inquiry)
    ensures |ledger| == 7 && Current(ledger, s) && s.id == c.inquiryId && Returning(s, c) && Serves(s, c)
    ensures Locate(s, c).value.0.accepted.None? && DecodeUnused(s, Text(0))
    ensures FindBy(Locate(s, c).value.0.decodes, ReadsReturn, ReturnOf(s, c)).None?
    ensures forall e :: e in ledger ==> !e.command.action.RecordDecode?
  {
    hide Fold, Evolve, Locate, Unused, DecodeUnused, Presentable, Begin, Sound, Decide, FindBy, Moves;
    var planned, s5 := PlannedLedger(c);
    var raw := Text(0);
    var returnId := ReturnIdOf(c.attemptId, raw);
    var x := Answers(true, 0, 0, 0, 0, Supported, Bytes(raw), Semantic(raw));
    assert Unused(s5.requests, Returns, ReturnId, returnId) && DecodeUnused(s5, Text(0));
    var e, s6 := StartsAlone(planned, s5, c, x, returnId, Text(0));
    var f;
    f, s := CaptureIsFresh(planned + [e], s6, c, raw, 0);
    CaptureLeaves(s6, c, f, s, raw, 0, Text(0));
    ledger := planned + [e] + [f];
    FoldedPrefix(planned, s5, [e] + [f], s) by { assert planned + ([e] + [f]) == ledger; }
    CapturedReturns(s5, s, c);
  }

  lemma CapturedReturns(s: Inquiry, t: Inquiry, c: Call)
    requires Moves(s, t) && Sound(s) && Sound(t) && Presentable(s, c)
    requires Locate(t, c).Some? && Locate(t, c).value.1.outcome.Some? && Locate(t, c).value.1.outcome.value.Returned?
    ensures Returning(t, c) && Serves(t, c) && t.id == s.id
  {
    hide Sound, Locate;
    LocateMoves(s, t, c) by { hide Moves; }
    AttemptRulesOf(t, Locate(t, c).value.0, Locate(t, c).value.1);
  }

  /** A decode identity that no logged decode has is free. */
  lemma FreeIdentity(ledger: seq<Event>, s: Inquiry, c: Call)
    requires Current(ledger, s) && Returning(s, c)
    requires forall k :: 0 <= k < |ledger| && ledger[k].command.action.RecordDecode? ==>
               ledger[k].command.action.decode.id.Text?
    ensures !DecodeTaken(s, Locate(s, c).value.1, ReturnOf(s, c))
  {
    hide Fold, Locate;
    var own := DecodeIdOf(ReturnOf(s, c), Locate(s, c).value.1.plan.route.adapterVersion);
    var z := FindBy(Flatten(s.requests, Decodes), DecodeId, own);
    if z.Some? {
      FlattenHas(s.requests, Decodes, z.value);
      var i :| 0 <= i < |s.requests| && z.value in Decodes(s.requests[i]);
      var h := s.requests[i];
      assert HoldsAt(h, RecordDecode(h.request.id, z.value));
      var k := RecordedWasLogged(ledger, s, h, RecordDecode(h.request.id, z.value));
    }
  }

  lemma ForeignIsFresh(ledger: seq<Event>, s: Inquiry, c: Call, d: Decode)
    requires Current(ledger, s) && Returning(s, c) && d.returnId == ReturnOf(s, c) && DecodeUnused(s, d.id)
    ensures Judge(s, RecordDecode(c.requestId, d)).Fresh? && Captured(Locate(s, c).value.0, d.returnId)
  {
    hide Fold, Lifecycle, Flatten, RequestRules, Captured;
    LedgerSound(ledger, s);
    SoundRules(s);
    var (r, a) := Locate(s, c).value;
    RequestFound(s, r);
    CapturedBy(r, a);
  }

  /** Another writer's decode of that return, accepted: the executor's own identity stays free. */
  lemma ForeignAcceptance(c: Call) returns (ledger: seq<Event>, s: Inquiry)
    ensures |ledger| == 9 && Current(ledger, s) && s.id == c.inquiryId && Returning(s, c) && Serves(s, c)
    ensures Locate(s, c).value.0.accepted.Some? && !DecodeTaken(s, Locate(s, c).value.1, ReturnOf(s, c))
  {
    hide Fold, Evolve, Locate, Sound, Decide, FindBy, Captured, DecodeTaken, Judge, Moves, Flatten;
    var seven, s7 := CapturedLedger(c);
    var d := Decoded(Text(0), ReturnOf(s7, c), Text(0), CanonicalResult(ResultIdOf(Text(0)), Text(0)));
    LocatedHas(s7, c);
    LedgerSoundHere(seven, s7);
    ForeignIsFresh(seven, s7, c, d);
    var eight, s8 := Extend(seven, s7, RecordDecode(c.requestId, d));
    var e := Said(s7.id, RecordDecode(c.requestId, d));
    DecodeJoins(s7, c, d, e, s8);
    DecodeKeepsUnused(s7, c, e, s8, d, d.result.id);
    EvolveSound(s7, e, s8);
    ReturningMoves(s7, s8, c);
    ForeignAcceptable(s8, c, d);
    var f;
    f, s := EmittedAccept(eight, s8, c, d, 0);
    EmittedIs(s8, AcceptCommand(c, d.id, 0), f);
    EvolveSound(s8, f, s);
    ReturningMoves(s8, s, c);
    ledger := eight + [f];
    FreeIdentity(ledger, s, c);
  }

  lemma ForeignAcceptable(s: Inquiry, c: Call, d: Decode)
    requires Locate(s, c).Some? && FindBy(Locate(s, c).value.0.decodes, DecodeId, d.id) == Some(d) && d.Decoded?
    requires Unused(s.requests, AcceptedResult, ResultId, d.result.id)
    ensures d in Locate(s, c).value.0.decodes && FreshResult(s, Locate(s, c).value.0, d.id)
  {
    hide Locate;
  }

  /** For any call: a run in which its request has been accepted through another writer's decode,
      while a call for the same attempt was about to decode; that decode is then logged all the same. */
  lemma DecodeAfterAcceptance(c: Call, x: Answers)
    returns (past: seq<Move>, sys: System, s: Inquiry, later: seq<Move>, end: System, e: Event)
    requires x.valid && x.preflight.Supported?
    ensures RunAll(NOTHING, past) == Some(sys) && Current(sys.ledger, s) && |sys.ledger| == 9
    ensures Locate(s, c).Some? && Locate(s, c).value.0.accepted.Some?
    ensures RunAll(sys, later) == Some(end) && OnlyCalls(later, c) && end.ledger == sys.ledger + [e]
    ensures e.command.action.RecordDecode? && e.command.action.requestId == c.requestId
  {
    hide Fold, RunAll, Locate, DecodeTaken, Serves, Pending, OnlyCalls;
    var ledger;
    ledger, s := ForeignAcceptance(c);
    LocatedHas(s, c);
    past, sys := PendingRun(ledger, s, c, x);
    later, end, e := LateDecodeLands(sys, 0, s, c, x);
  }

  // ------------------------------------------------------------ where decider and reducer part

  /** A recorded plan that is not ready: the decider refuses its request and the reducer does not. */
  lemma UnreadyPlanIsRequested(id: Id) returns (ledger: seq<Event>, s: Inquiry, a: Action)
    ensures Current(ledger, s) && s.id == id && a.RequestEffect?
    ensures Judge(s, a) == Bad(LifecycleError) && Evolve(Active(s), Said(id, a)).Some?
  {
    hide Fold, EffectRules, RecordRules, FindBy;
    PlanRecorded(id, None);
    ledger := Opening(id, None);
    s := State(id, 3, [Plan(None)], []);
    a := RequestEffect(Request(Text(0), Text(0), Text(0), Text(0), Text(0)));
    NoRequests(s, a.request);
    LedgerSound(ledger, s);
    SoundRules(s);
    RequestReduces(s, a.request);
    RecordRulesIgnoreRequests(s, EffectStep(s, Say(id, a)).value);
  }

  lemma NoRequests(s: Inquiry, q: Request)
    requires s.requests == [] && s.plans == [Plan(None)] && q.stepPlanId == Text(0)
    ensures FindBy(s.requests, RequestId, q.id).None? && FindBy(s.plans, PlanId, q.stepPlanId) == Some(Plan(None))
  {}

  const RESULT := CanonicalResult(Text(0), Text(0))

  /** Request `k` after so many of its commands: planned, started, ended, decoded, accepted. */
  function Staged(k: nat, stage: nat): RequestState {
    var route := InquiryModel.Route(Text(k), Text(0), Text(0), Text(0));
    var ended := Returned(Text(k), Text(k), ExternalReturn(Text(k), Text(k), Text(k), 0, Text(0)));
    var attempt := Attempt(
      AttemptPlan(Text(k), Text(k), route),
      if stage >= 2 then Some(Start(Named(StartAttempt(Text(k))), 0)) else None,
      if stage >= 3 then Some(ended) else None);
    RequestState(
      Request(Text(k), Text(0), Text(0), Text(0), Text(0)),
      if stage >= 1 then [attempt] else [], [],
      if stage >= 4 then [Decoded(Text(k), Text(k), Text(0), RESULT)] else [],
      if stage >= 5 then Some(Text(k)) else None)
  }

  /** The command that takes request `k` one stage on. */
  function Grow(k: nat, stage: nat): Action {
    match stage
    case 0 => PlanAttempt(Staged(k, 1).attempts[0].plan)
    case 1 => StartAttempt(Text(k))
    case 2 => RecordOutcome(Text(k), Staged(k, 3).attempts[0].outcome.value)
    case 3 => RecordDecode(Text(k), Staged(k, 4).decodes[0])
    case _ => AcceptResult(Text(k), Text(k))
  }

  lemma FlattenTwo<T>(r: RequestState, q: RequestState, part: RequestState -> seq<T>)
    ensures Flatten([r, q], part) == part(r) + part(q)
  {
    assert [r, q][1..] == [q];
    FlattenOne(q, part);
  }

  lemma ReturnsOfStaged(k: nat, stage: nat)
    ensures var r := Staged(k, stage);
      Returns(r) == if stage >= 3 then [r.attempts[0].outcome.value.external] else []
  {
    var r := Staged(k, stage);
    if stage == 0 {
    } else if stage < 3 {
      NoReturns(r.attempts[0]);
    } else {
      assert r.attempts[1..] == [];
      assert ReturnsIn(r.attempts[1..]) == [];
    }
  }

  /** The two requests side by side. */
  predicate Pair(s: Inquiry, a: nat, b: nat) { s.requests == [Staged(0, a), Staged(1, b)] }

  /** The second request grows only once the first has been decoded. */
  predicate InTurn(k: nat, a: nat, b: nat) {
    if k == 0 then (a < 4 && b == 0) || (a == 4 && b == 4) else k == 1 && a == 4 && b < 4
  }

  function At(k: nat, a: nat, b: nat): nat { if k == 0 then a else b }

  lemma PairLookups(s: Inquiry, k: nat, a: nat, b: nat)
    requires Pair(s, a, b) && k < 2
    ensures FindBy(s.requests, RequestId, Text(k)) == Some(Staged(k, At(k, a, b)))
    ensures Flatten(s.requests, Attempts) == Staged(0, a).attempts + Staged(1, b).attempts
    ensures Flatten(s.requests, Decodes) == Staged(0, a).decodes + Staged(1, b).decodes
    ensures Flatten(s.requests, Returns) == Returns(Staged(0, a)) + Returns(Staged(1, b))
    ensures Flatten(s.requests, AcceptedResult) == AcceptedResult(Staged(0, a)) + AcceptedResult(Staged(1, b))
  {
    hide Returns, AcceptedResult;
    var (r, q) := (Staged(0, a), Staged(1, b));
    FlattenTwo(r, q, Attempts);
    FlattenTwo(r, q, Returns);
    FlattenTwo(r, q, Decodes);
    FlattenTwo(r, q, AcceptedResult);
    assert [r, q][1..] == [q];
  }

  /** The command is fresh, and the reducer turns the request into its next form. */
  predicate Growing(s: Inquiry, k: nat, stage: nat)
    requires k < |s.requests|
  {
    var a := Grow(k, stage);
    && a.Effect() && !a.RequestEffect?
    && Judge(s, a).Fresh? && ReducerAdds(s, a)
    && Target(s, a) == Some(s.requests[k])
    && Advance(s, s.requests[k], Say(s.id, a)) == Some(Staged(k, stage + 1))
  }

  /** What the reducer makes of the request, on the decider's grounds. */
  lemma Advanced(s: Inquiry, k: nat, stage: nat)
    requires k < |s.requests| && s.requests[k] == Staged(k, stage) && stage < 5
    requires Judge(s, Grow(k, stage)).Fresh? && FindBy(s.requests, RequestId, Text(k)) == Some(Staged(k, stage))
    ensures Advance(s, s.requests[k], Say(s.id, Grow(k, stage))) == Some(Staged(k, stage + 1))
  {
    hide Flatten, Captured;
    var (r, q) := (Staged(k, stage), Staged(k, stage + 1));
    match stage
    case 0 => assert r.attempts + q.attempts == q.attempts;
    case 1 => assert StartIn(r.attempts, Text(k), Start(Named(StartAttempt(Text(k))), 0)) == q.attempts;
    case 2 => assert EndIn(r.attempts, Text(k), q.attempts[0].outcome.value) == q.attempts;
    case 3 => assert r.decodes + q.decodes == q.decodes;
    case _ =>
  }

  lemma PlanGrows(s: Inquiry, k: nat, a: nat, b: nat)
    requires Pair(s, a, b) && InTurn(k, a, b) && At(k, a, b) == 0
    ensures Growing(s, k, 0)
  {
    hide Advance, Flatten;
    PairLookups(s, k, a, b);
    assert Judge(s, Grow(k, 0)).Fresh?;
    Advanced(s, k, 0);
  }

  lemma StartGrows(s: Inquiry, k: nat, a: nat, b: nat)
    requires Pair(s, a, b) && InTurn(k, a, b) && At(k, a, b) == 1
    ensures Growing(s, k, 1)
  {
    hide Advance, Flatten;
    PairLookups(s, k, a, b);
    assert s.requests[1..] == [Staged(1, b)];
    assert Judge(s, Grow(k, 1)).Fresh?;
    Advanced(s, k, 1);
  }

  lemma EndGrows(s: Inquiry, k: nat, a: nat, b: nat)
    requires Pair(s, a, b) && InTurn(k, a, b) && At(k, a, b) == 2
    ensures Growing(s, k, 2)
  {
    hide Advance, Flatten, Returns;
    PairLookups(s, k, a, b);
    ReturnsOfStaged(0, a);
    ReturnsOfStaged(1, b);
    assert Judge(s, Grow(k, 2)).Fresh?;
    Advanced(s, k, 2);
  }

  lemma DecodeGrows(s: Inquiry, k: nat, a: nat, b: nat)
    requires Pair(s, a, b) && InTurn(k, a, b) && At(k, a, b) == 3
    ensures Growing(s, k, 3)
  {
    hide Advance, Flatten, Returns;
    PairLookups(s, k, a, b);
    ReturnsOfStaged(k, 3);
    assert Staged(k, 3).attempts[0].outcome.value.external in Returns(Staged(k, 3));
    assert Captured(Staged(k, 3), Text(k));
    assert Judge(s, Grow(k, 3)).Fresh?;
    Advanced(s, k, 3);
  }

  lemma AcceptGrows(s: Inquiry, k: nat, a: nat, b: nat)
    requires Pair(s, a, b) && InTurn(k, a, b) && At(k, a, b) == 4
    ensures Growing(s, k, 4)
  {
    hide Advance, Flatten;
    PairLookups(s, k, a, b);
    assert Judge(s, Grow(k, 4)).Fresh?;
    Advanced(s, k, 4);
  }

  lemma Grows(ledger: seq<Event>, s: Inquiry, k: nat, a: nat, b: nat)
    returns (longer: seq<Event>, t: Inquiry)
    requires Current(ledger, s) && Pair(s, a, b) && InTurn(k, a, b)
    ensures Current(longer, t) && t.id == s.id
    ensures if k == 0 then Pair(t, a + 1, b) else Pair(t, a, b + 1)
  {
    hide Fold, Judge, Flatten, Target, Advance, ReducerAdds, Grow, Staged;
    match At(k, a, b) {
      case 0 => PlanGrows(s, k, a, b);
      case 1 => StartGrows(s, k, a, b);
      case 2 => EndGrows(s, k, a, b);
      case 3 => DecodeGrows(s, k, a, b);
      case _ => AcceptGrows(s, k, a, b);
    }
    longer, t := ExtendAt(ledger, s, k, Grow(k, At(k, a, b)), Staged(k, At(k, a, b) + 1));
  }

  lemma {:induction false} GrowsTo(ledger: seq<Event>, s: Inquiry, k: nat, a: nat, b: nat)
    returns (longer: seq<Event>, t: Inquiry)
    requires Current(ledger, s) && Pair(s, a, b) && if k == 0 then a <= 4 && b == 0 else k == 1 && a == 4 && b <= 4
    ensures Current(longer, t) && t.id == s.id
    ensures if k == 0 then Pair(t, 4, b) else Pair(t, a, 4)
    decreases 4 - At(k, a, b)
  {
    hide Current, Pair;
    if At(k, a, b) == 4 { return ledger, s; }
    longer, t := Grows(ledger, s, k, a, b);
    longer, t := GrowsTo(longer, t, k, if k == 0 then a + 1 else a, if k == 0 then b else b + 1);
  }

  lemma TwoRequests(id: Id) returns (ledger: seq<Event>, s: Inquiry)
    ensures Current(ledger, s) && s.id == id && Pair(s, 0, 0)
  {
    hide Fold;
    PlanRecorded(id, READY);
    ledger := Opening(id, READY);
    s := State(id, 3, [Plan(READY)], []);
    ledger, s := Extend(ledger, s, RequestEffect(Staged(0, 0).request));
    assert s == State(id, 4, [Plan(READY)], [Staged(0, 0)]);
    ledger, s := Extend(ledger, s, RequestEffect(Staged(1, 0).request));
  }

  /** Two requests decoded to one result identity: once the first is accepted, the decider still
      emits the second acceptance, and the reducer refuses it. */
  lemma SharedResultIsRefused(id: Id) returns (ledger: seq<Event>, s: Inquiry, a: Action)
    ensures Current(ledger, s) && s.id == id && a.AcceptResult?
    ensures Decide(Active(s), Say(id, a)) == Emits(Said(id, a)) && Evolve(Active(s), Said(id, a)).None?
  {
    hide Fold, Evolve, Flatten, Judge, Grow, Staged;
    ledger, s := TwoRequests(id);
    ledger, s := GrowsTo(ledger, s, 0, 0, 0);
    ledger, s := GrowsTo(ledger, s, 1, 4, 0);
    ledger, s := Grows(ledger, s, 0, 4, 4);
    a := Grow(1, 4);
    SecondClaimant(s);
    FreshDecisionsReduce(ledger, s, Say(id, a));
  }

  lemma SecondClaimant(s: Inquiry)
    requires Pair(s, 5, 4)
    ensures Grow(1, 4).AcceptResult? && Judge(s, Grow(1, 4)).Fresh? && !ReducerAdds(s, Grow(1, 4))
  {
    PairLookups(s, 1, 5, 4);
    assert AcceptedResult(Staged(0, 5)) == [RESULT] && AcceptedResult(Staged(1, 4)) == [];
    assert FindBy([RESULT], ResultId, RESULT.id) == Some(RESULT);
  }
}
