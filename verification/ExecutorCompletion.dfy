/** The uninterrupted happy path: a planned attempt, a capable adapter and unused identities
    lead one call to an accepted result through exactly four events. */
module ExecutorCompletion {
  import opened Sequences
  import opened InquiryModel
  import opened Transitions
  import opened EffectLifecycle
  import opened EffectAgreement
  import opened EffectExecutor
  import opened ExecutorSafety
  import opened ExecutorRuns
  import opened ExecutorCalls
  import opened ExecutorSettlement

  /** No request holds an item of this identity. */
  predicate Unused<T>(rs: seq<RequestState>, part: RequestState -> seq<T>, key: T -> Id, id: Id) {
    FindBy(Flatten(rs, part), key, id).None?
  }

  lemma UnusedKept<T>(rs: seq<RequestState>, i: nat, q: RequestState,
    part: RequestState -> seq<T>, key: T -> Id, id: Id)
    requires i < |rs| && Unused(rs, part, key, id) && forall y :: y in part(q) ==> y in part(rs[i])
    ensures Unused(rs[i := q], part, key, id)
  {
    var qs := rs[i := q];
    var found := FindBy(Flatten(qs, part), key, id);
    if found.Some? {
      FlattenHas(qs, part, found.value);
      var k :| 0 <= k < |qs| && found.value in part(qs[k]);
      assert found.value in part(rs[k]);
      FlattenHas(rs, part, found.value);
    }
  }

  /** The identities the rest of the call will write are unused. */
  predicate DecodeUnused(s: Inquiry, decodeId: Id) {
    Unused(s.requests, Decodes, DecodeId, decodeId)
      && Unused(s.requests, AcceptedResult, ResultId, ResultIdOf(decodeId))
  }

  /** An effect event for the call's request replaces exactly that request. */
  lemma AdvancesLocated(s: Inquiry, c: Call, e: Event, t: Inquiry) returns (i: nat, q: RequestState)
    requires Sound(s) && Evolve(Active(s), e) == Some(Active(t)) && e.command.action.Effect()
    requires !e.command.action.RequestEffect?
    requires Locate(s, c).Some? && Target(s, e.command.action) == Some(Locate(s, c).value.0)
    ensures i < |s.requests| && s.requests[i] == Locate(s, c).value.0
    ensures Advance(s, s.requests[i], e.command) == Some(q) && t.requests == s.requests[i := q]
    ensures Sound(t) && Locate(t, c).Some? && Locate(t, c).value.0 == q
  {
    hide Lifecycle, Evolve, Advance, Target, FindBy, Flatten, RequestRules, Moves;
    SoundRules(s);
    AppliedSteps(s, e, t);
    i, q := TargetAt(s, e.command);
    EvolveSound(s, e, t);
    LocateMoves(s, t, c);
    AdvanceKeepsRequest(s, s.requests[i], e.command);
    assert t.requests[i] == q;
    SoundRules(t);
    RequestFound(t, q);
  }

  lemma SameTarget(s: Inquiry, c: Call, a: Action)
    requires Sound(s) && Locate(s, c).Some? && a.Effect() && !a.RequestEffect?
    requires a.StartAttempt? ==> a.attemptId == c.attemptId
    requires a.RecordOutcome? || a.RecordDecode? || a.AcceptResult? ==> a.requestId == c.requestId
    requires !a.PlanAttempt? && !a.RecordNoAttempt?
    ensures Target(s, a) == Some(Locate(s, c).value.0)
  {
    hide Lifecycle, Flatten, RequestRules;
    SoundRules(s);
    if a.StartAttempt? {
      var h := Containing(s.requests, c.attemptId);
      SameAttempt(s, Locate(s, c).value.0, Locate(s, c).value.1, h.value,
          FindBy(h.value.attempts, AttemptId, c.attemptId).value);
    }
  }

  /** A start leaves returns, decodes and acceptance as they were. */
  lemma StartKeepsUnused(s: Inquiry, c: Call, e: Event, t: Inquiry, returnId: Id, decodeId: Id)
    requires Sound(s) && Evolve(Active(s), e) == Some(Active(t)) && e.command.action == StartAttempt(c.attemptId)
    requires Locate(s, c).Some? && Locate(s, c).value.1.start.None?
    requires Unused(s.requests, Returns, ReturnId, returnId) && DecodeUnused(s, decodeId)
    ensures Sound(t) && Unused(t.requests, Returns, ReturnId, returnId) && DecodeUnused(t, decodeId)
  {
    hide Lifecycle, Evolve, Unused, Locate, FindBy, Flatten, RequestRules;
    SameTarget(s, c, e.command.action);
    var i, q := AdvancesLocated(s, c, e, t);
    var r := s.requests[i];
    SoundRules(s);
    forall k | 0 <= k < |r.attempts| ensures q.attempts[k].outcome == r.attempts[k].outcome {
      OnlyOneStarts(s, c, r, k);
    }
    ReturnsSame(r.attempts, q.attempts);
    UnusedKept(s.requests, i, q, Returns, ReturnId, returnId);
    UnusedKept(s.requests, i, q, Decodes, DecodeId, decodeId);
    UnusedKept(s.requests, i, q, AcceptedResult, ResultId, ResultIdOf(decodeId));
  }

  lemma OnlyOneStarts(s: Inquiry, c: Call, r: RequestState, k: nat)
    requires Sound(s) && Locate(s, c).Some? && r == Locate(s, c).value.0 && Locate(s, c).value.1.start.None?
    requires k < |r.attempts|
    ensures r.attempts[k].plan.id == c.attemptId ==> r.attempts[k].outcome.None?
  {
    hide Lifecycle, Flatten;
    var a := Locate(s, c).value.1;
    SoundRules(s);
    RulesOf(s, r);
    OnlyOne(r.attempts, AttemptId, r.attempts[k], a);
    AttemptRulesOf(s, r, a);
  }

  // ------------------------------------------------------------ capture

  lemma CaptureIsFresh(ledger: seq<Event>, s: Inquiry, c: Call, raw: Id, at: int) returns (e: Event, t: Inquiry)
    requires Current(ledger, s) && Sound(s) && c.inquiryId == s.id && Locate(s, c).Some?
    requires Locate(s, c).value.1.start.Some? && Locate(s, c).value.1.outcome.None?
    requires Unused(s.requests, Returns, ReturnId, ReturnIdOf(c.attemptId, raw))
    ensures e == Event(CaptureCommand(c, Locate(s, c).value.1, raw, at), [], [])
    ensures Decide(Active(s), e.command) == Emits(e) && Evolve(Active(s), e) == Some(Active(t))
    ensures Current(ledger + [e], t)
  {
    hide Fold, Lifecycle, Evolve, Flatten, RequestRules, Unused;
    SoundRules(s);
    var (r, a) := Locate(s, c).value;
    RequestFound(s, r);
    e := Event(CaptureCommand(c, a, raw, at), [], []);
    assert Judge(s, e.command.action).Fresh? by { UnusedNone(s, ReturnIdOf(c.attemptId, raw)); }
    FreshDecisionsReduce(ledger, s, e.command);
    EvolveActive(Active(s), e);
    t := Evolve(Active(s), e).value.inquiry;
    FoldLast(Unstarted, ledger, e);
  }

  lemma UnusedNone(s: Inquiry, id: Id)
    requires Unused(s.requests, Returns, ReturnId, id)
    ensures FindBy(Flatten(s.requests, Returns), ReturnId, id).None?
  {}

  /** After a capture the attempt has ended with that return, which no decode reads. */
  lemma CaptureLeaves(s: Inquiry, c: Call, e: Event, t: Inquiry, raw: Id, at: int, decodeId: Id)
    requires Sound(s) && Evolve(Active(s), e) == Some(Active(t)) && Locate(s, c).Some?
    requires e.command == CaptureCommand(c, Locate(s, c).value.1, raw, at)
    requires Unused(s.requests, Returns, ReturnId, ReturnIdOf(c.attemptId, raw)) && DecodeUnused(s, decodeId)
    requires Locate(s, c).value.0.accepted.None?
    ensures Sound(t) && DecodeUnused(t, decodeId) && Locate(t, c).Some?
    ensures Locate(t, c).value.0.accepted.None? && Locate(t, c).value.1.outcome == Some(e.command.action.outcome)
    ensures FindBy(Locate(t, c).value.0.decodes, ReadsReturn, ReturnIdOf(c.attemptId, raw)).None?
  {
    hide Lifecycle, Evolve, Unused, Locate, FindBy, Flatten, RequestRules, Recorded, Captured;
    SameTarget(s, c, e.command.action);
    var i, q := AdvancesLocated(s, c, e, t);
    AppliedIsRecorded(s, e, t);
    EndedAttempt(t, c, e.command.action);
    UnusedKept(s.requests, i, q, Decodes, DecodeId, decodeId);
    UnusedKept(s.requests, i, q, AcceptedResult, ResultId, ResultIdOf(decodeId));
    UnreadReturn(s, s.requests[i], ReturnIdOf(c.attemptId, raw));
  }

  lemma UnreadReturn(s: Inquiry, r: RequestState, returnId: Id)
    requires Sound(s) && r in s.requests && Unused(s.requests, Returns, ReturnId, returnId)
    ensures FindBy(r.decodes, ReadsReturn, returnId).None?
  {
    hide Lifecycle, Flatten;
    RulesOf(s, r);
    var d := FindBy(r.decodes, ReadsReturn, returnId);
    if d.Some? {
      assert Captured(r, d.value.returnId);
      var x :| x in Returns(r) && x.id == returnId;
      var i :| 0 <= i < |s.requests| && s.requests[i] == r;
      FlattenHas(s.requests, Returns, x);
    }
  }

  // ------------------------------------------------------------ the whole call

  lemma DecodeKeepsUnused(s: Inquiry, c: Call, e: Event, t: Inquiry, d: Decode, resultId: Id)
    requires Sound(s) && Evolve(Active(s), e) == Some(Active(t)) && Locate(s, c).Some?
    requires e.command.action == RecordDecode(c.requestId, d) && Locate(s, c).value.0.accepted.None?
    requires Unused(s.requests, AcceptedResult, ResultId, resultId)
    ensures Unused(t.requests, AcceptedResult, ResultId, resultId)
  {
    hide Lifecycle, Evolve, Unused, Locate, FindBy, Flatten, RequestRules, Captured;
    SameTarget(s, c, e.command.action);
    var i, q := AdvancesLocated(s, c, e, t);
    UnusedKept(s.requests, i, q, AcceptedResult, ResultId, resultId);
  }

  /** From a captured, unread return with unused identities: decode, then accept. */
  lemma InterpretationCompletes(ledger: seq<Event>, s: Inquiry, c: Call, x: Answers, returnId: Id)
    returns (more: seq<Event>, result: Inquiry)
    requires Current(ledger, s) && Sound(s) && c.inquiryId == s.id && c.accept && x.decoding.Semantic?
    requires Locate(s, c).Some?
    requires Locate(s, c).value.1.outcome.Some? && Locate(s, c).value.1.outcome.value.Returned?
    requires Locate(s, c).value.1.outcome.value.external.id == returnId
    requires Locate(s, c).value.0.accepted.None? && FindBy(Locate(s, c).value.0.decodes, ReadsReturn, returnId).None?
    requires DecodeUnused(s, DecodeIdOf(returnId, c.version))
    ensures |more| == 2 && more[0].command.action == RecordDecode(c.requestId, DecodeOf(c, returnId, x.decoding))
    ensures more[1].command.action == AcceptResult(c.requestId, DecodeIdOf(returnId, c.version))
    ensures Drive(ledger, [], c, Interpreting(s), x) == Final(ledger + more, [], Done(result))
    ensures Current(ledger + more, result) && Locate(result, c).Some? && Locate(result, c).value.0.accepted.Some?
  {
    hide Fold, Locate, FreshResult, Drive, Decide, Evolve, Current, FindBy, Flatten, Sound, Captured, Unused;
    var (r, a) := Locate(s, c).value;
    SameLedger(ledger);
    DriveAlone(ledger, c, Interpreting(s), x);
    CapturedBy(r, a);
    var made := DecodeOf(c, returnId, x.decoding);
    var command := DecodeCommand(c, returnId, x.decoding, x.decodedAt);
    DriveReads(ledger, s, c, Recording(made.id), command, x);
    DecodeFree(s, made.id);
    var e, t := EmittedDecode(ledger, s, c, returnId, x.decoding, x.decodedAt);
    DecodeJoins(s, c, made, e, t);
    DecodeKeepsUnused(s, c, e, t, made, made.result.id);
    AfterDecodeAccepts(ledger + [e], t, c, made, x);
    var f, u := EmittedAccept(ledger + [e], t, c, made, x.acceptedAt);
    DriveReads(ledger + [e], t, c, Accepting, AcceptCommand(c, made.id, x.acceptedAt), x);
    DoneDrive(ledger + [e] + [f], c, u, x);
    more, result := [e, f], u;
    assert ledger + [e] + [f] == ledger + more;
    EmittedIs(t, AcceptCommand(c, made.id, x.acceptedAt), f);
  }

  lemma EmittedIs(s: Inquiry, c: Command, e: Event)
    requires Decide(Active(s), c) == Emits(e)
    ensures e.command == c
  {
    hide Judge, DerivedConflicts, DerivedObligations;
  }

  lemma DecodeFree(s: Inquiry, decodeId: Id)
    requires DecodeUnused(s, decodeId)
    ensures FindBy(Flatten(s.requests, Decodes), DecodeId, decodeId).None?
  {}

  lemma AfterDecodeAccepts(ledger: seq<Event>, t: Inquiry, c: Call, d: Decode, x: Answers)
    requires Locate(t, c).Some? && FindBy(Locate(t, c).value.0.decodes, DecodeId, d.id) == Some(d) && d.Decoded?
    requires c.accept
    requires Unused(t.requests, AcceptedResult, ResultId, d.result.id)
    ensures Resume(t, c, Recording(d.id), x) == Reading(Accepting, AcceptCommand(c, d.id, x.acceptedAt), 0)
    ensures FreshResult(t, Locate(t, c).value.0, d.id) && d in Locate(t, c).value.0.decodes
  {
    hide Locate, Flatten;
  }

  lemma DoneDrive(ledger: seq<Event>, c: Call, s: Inquiry, x: Answers)
    ensures Drive(ledger, [], c, Done(s), x) == Final(ledger, [], Done(s))
  {}

  /** With a capable adapter that returns bytes and decodes them, and identities nobody used, one
      uninterrupted accepting call on a planned attempt logs exactly its start, its captured return,
      its decode and its acceptance, in that order, and ends with an accepted result. */
  lemma SoloCallCompletes(ledger: seq<Event>, s: Inquiry, c: Call, x: Answers)
    returns (logged: seq<Event>, result: Inquiry)
    requires Current(ledger, s) && c.inquiryId == s.id && c.accept && x.valid && Begin(s, c, true).Preflighting?
    requires x.preflight.Supported? && x.performance.Bytes? && x.decoding.Semantic?
    requires Unused(s.requests, Returns, ReturnId, ReturnIdOf(c.attemptId, x.performance.raw))
    requires DecodeUnused(s, DecodeIdOf(ReturnIdOf(c.attemptId, x.performance.raw), c.version))
    ensures Drive(ledger, [], c, Entry, x) == Final(ledger + logged, [], Done(result))
    ensures var returnId := ReturnIdOf(c.attemptId, x.performance.raw);
      && |logged| == 4
      && logged[0].command.action == StartAttempt(c.attemptId)
      && logged[1].command.action.RecordOutcome? && logged[1].command.action.outcome.Returned?
      && logged[1].command.action.outcome.attemptId == c.attemptId
      && logged[1].command.action.outcome.external.id == returnId
      && logged[1].command.action.outcome.external.raw == x.performance.raw
      && logged[2].command.action == RecordDecode(c.requestId, DecodeOf(c, returnId, x.decoding))
      && logged[3].command.action == AcceptResult(c.requestId, DecodeIdOf(returnId, c.version))
    ensures Current(ledger + logged, result) && Locate(result, c).Some? && Locate(result, c).value.0.accepted.Some?
  {
    hide Fold, Locate, Drive, Decide, Evolve, Current, FindBy, Flatten, Sound, Unused, DecodeUnused, Begin;
    var raw := x.performance.raw;
    var returnId := ReturnIdOf(c.attemptId, raw);
    var decodeId := DecodeIdOf(returnId, c.version);
    var e0, t0 := StartsAlone(ledger, s, c, x, returnId, decodeId);
    var e1, t1 := CaptureIsFresh(ledger + [e0], t0, c, raw, x.endedAt);
    CaptureLeaves(t0, c, e1, t1, raw, x.endedAt, decodeId);
    CapturesAlone(ledger + [e0], t0, c, x, e1, t1);
    SameInquiry(t0, e1, t1);
    var more, end := InterpretationCompletes(ledger + [e0] + [e1], t1, c, x, returnId);
    logged, result := [e0, e1] + more, end;
    assert ledger + [e0] + [e1] + more == ledger + logged;
  }

  /** Entry, preflight and the start's append. */
  lemma StartsAlone(ledger: seq<Event>, s: Inquiry, c: Call, x: Answers, returnId: Id, decodeId: Id)
    returns (e: Event, t: Inquiry)
    requires Current(ledger, s) && c.inquiryId == s.id && x.valid && Begin(s, c, true).Preflighting?
    requires x.preflight.Supported?
    requires Unused(s.requests, Returns, ReturnId, returnId) && DecodeUnused(s, decodeId)
    ensures e.command.action == StartAttempt(c.attemptId) && Current(ledger + [e], t) && Sound(t) && t.id == s.id
    ensures Drive(ledger, [], c, Entry, x) == Drive(ledger + [e], [], c, Performing(t), x)
    ensures Locate(t, c).Some? && Locate(t, c).value.1.start.Some? && Locate(t, c).value.1.outcome.None?
    ensures Locate(t, c).value.0.accepted.None?
    ensures Unused(t.requests, Returns, ReturnId, returnId) && DecodeUnused(t, decodeId)
  {
    hide Fold, Locate, Drive, Decide, Evolve, FindBy, Flatten, Sound, Unused, DecodeUnused;
    e := Event(StartCommand(c, x.startedAt), [], []);
    StartIsFresh(ledger, s, c, x);
    LedgerSoundHere(ledger, s);
    EvolveActive(Active(s), e);
    t := Evolve(Active(s), e).value.inquiry;
    FoldLast(Unstarted, ledger, e);
    SameInquiry(s, e, t);
    StartedLocated(s, c, e, t);
    PreflightLocated(s, c);
    EntryStep(ledger, s, c, x);
    SameLedger(ledger);
    DriveAlone(ledger, c, Preflighting(s), x);
    DriveReads(ledger, s, c, Starting, StartCommand(c, x.startedAt), x);
    StartKeepsUnused(s, c, e, t, returnId, decodeId);
  }

  /** The adapter's bytes and the capture's append. */
  lemma CapturesAlone(ledger: seq<Event>, s: Inquiry, c: Call, x: Answers, e: Event, t: Inquiry)
    requires Current(ledger, s) && Locate(s, c).Some? && x.performance.Bytes?
    requires e == Event(CaptureCommand(c, Locate(s, c).value.1, x.performance.raw, x.endedAt), [], [])
    requires Decide(Active(s), e.command) == Emits(e) && Evolve(Active(s), e) == Some(Active(t))
    requires Locate(t, c).Some? && Locate(t, c).value.1.outcome.Some? && Locate(t, c).value.1.outcome.value.Returned?
    ensures Drive(ledger, [], c, Performing(s), x) == Drive(ledger + [e], [], c, Interpreting(t), x)
  {
    hide Fold, Locate, Drive, Decide, Evolve, Current;
    SameLedger(ledger);
    DriveAlone(ledger, c, Performing(s), x);
    DriveReads(ledger, s, c, Capturing, e.command, x);
  }
}
