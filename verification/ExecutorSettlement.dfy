/** Once an outcome is logged, one uninterrupted accepting call leaves nothing for further calls
    to append. */
module ExecutorSettlement {
  import opened Sequences
  import opened InquiryModel
  import opened Transitions
  import opened EffectLifecycle
  import opened EffectLedger
  import opened EffectAgreement
  import opened EffectExecutor
  import opened ExecutorSafety
  import opened ExecutorRuns

  // ------------------------------------------------------------ settlement

  /** The exact attempt of the call is over, and its request is resolved, closed by a non-return,
      or stuck on an identity someone else already uses. */
  predicate Settled(s: Inquiry, c: Call) {
    Locate(s, c).Some? && var (r, a) := Locate(s, c).value;
      && a.start.Some? && a.outcome.Some?
      && (r.accepted.Some? || (a.outcome.value.Returned? ==> NothingToAppend(s, r, a, a.outcome.value.external.id)))
  }

  predicate NothingToAppend(s: Inquiry, r: RequestState, a: Attempt, returnId: Id) {
    var d := FindBy(r.decodes, ReadsReturn, returnId);
    if d.Some? then d.value.Decoded? ==> !FreshResult(s, r, d.value.id)
    else FindBy(Flatten(s.requests, Decodes), DecodeId, DecodeIdOf(returnId, a.plan.route.adapterVersion)).Some?
  }

  /** The command is refused by the decider or by the reducer. */
  predicate Refusable(s: Inquiry, command: Command) {
    match Decide(Active(s), command)
    case Rejects(_) => true
    case Nothing => false
    case Emits(e) => Evolve(Active(s), e).None?
  }

  /** Where calls for a settled attempt can stand. */
  predicate AtRest(s: Inquiry, c: Call, pc: Pc) {
    match pc
    case Entry => true
    case Done(_) => true
    case Raised => true
    case Interpreting(view) =>
      view == s && Located(s, c) && Locate(s, c).value.0.accepted.None?
      && Locate(s, c).value.1.outcome.Some? && Locate(s, c).value.1.outcome.value.Returned?
    case Reading(_, command, _) => Refusable(s, command)
    case _ => false
  }

  lemma AcceptRefused(ledger: seq<Event>, s: Inquiry, c: Call, d: Decode, at: int)
    requires Current(ledger, s) && Locate(s, c).Some? && d in Locate(s, c).value.0.decodes && d.Decoded?
    requires Locate(s, c).value.0.accepted.None? && !FreshResult(s, Locate(s, c).value.0, d.id)
    ensures Refusable(s, AcceptCommand(c, d.id, at))
  {
    hide Fold, Lifecycle, Evolve, Flatten, RequestRules, FreshResult;
    LedgerSound(ledger, s);
    SoundRules(s);
    var r := Locate(s, c).value.0;
    RulesOf(s, r);
    DecodeFound(r, d);
    RequestFound(s, r);
    var command := AcceptCommand(c, d.id, at);
    assert Judge(s, command.action).Fresh?;
    if c.inquiryId == s.id { FreshDecisionsReduce(ledger, s, command); }
  }

  lemma DecodeFound(r: RequestState, d: Decode)
    requires RequestRules(r) && d in r.decodes
    ensures FindBy(r.decodes, DecodeId, d.id) == Some(d)
  {
    FindUnique(r.decodes, DecodeId, d);
  }

  /** An unread return meets its executor decode identity in use: the command is refused. */
  lemma DecodeRefused(s: Inquiry, c: Call, returnId: Id, answer: Decoding, at: int)
    requires Sound(s) && Locate(s, c).Some? && Captured(Locate(s, c).value.0, returnId)
    requires FindBy(Locate(s, c).value.0.decodes, ReadsReturn, returnId).None?
    requires FindBy(Flatten(s.requests, Decodes), DecodeId, DecodeIdOf(returnId, c.version)).Some?
    ensures Refusable(s, DecodeCommand(c, returnId, answer, at))
  {
    hide Lifecycle, Captured, Evolve, Flatten, RequestRules;
    var r := Locate(s, c).value.0;
    var d := DecodeOf(c, returnId, answer);
    SoundRules(s);
    RequestFound(s, r);
    var h := HolderOf(s.requests, Decodes, DecodeId, d.id);
    var e := FindBy(Flatten(s.requests, Decodes), DecodeId, d.id).value;
    assert forall z :: z in r.decodes ==> ReadsReturn(z) != returnId;
    if e == d { ReadersAreLocal(s, r, h, e); }
  }

  lemma RestSteps(ledger: seq<Event>, s: Inquiry, c: Call, pc: Pc, x: Answers)
    requires Current(ledger, s) && Settled(s, c) && AtRest(s, c, pc)
    ensures Next(ledger, c, pc, x).appended == [] && AtRest(s, c, Next(ledger, c, pc, x).pc)
  {
    hide Fold, Decide, Evolve, Locate, NothingToAppend, FindBy, Located;
    match pc
    case Entry => RestBegins(s, c, x.valid);
    case Interpreting(_) =>
      LocatedHas(s, c);
      LedgerSound(ledger, s);
      RestInterprets(ledger, s, c, x);
    case _ =>
  }

  lemma RestBegins(s: Inquiry, c: Call, valid: bool)
    requires Settled(s, c)
    ensures AtRest(s, c, Begin(s, c, valid))
  {
    hide Locate, NothingToAppend;
  }

  lemma RestInterprets(ledger: seq<Event>, s: Inquiry, c: Call, x: Answers)
    requires Current(ledger, s) && Sound(s) && Settled(s, c) && AtRest(s, c, Interpreting(s))
    ensures AtRest(s, c, Interpret(s, c, Locate(s, c).value.0, Locate(s, c).value.1.outcome.value.external.id, x))
  {
    hide Fold, Sound, Locate, Refusable, Flatten, FreshResult;
    var (r, a) := Locate(s, c).value;
    var id := a.outcome.value.external.id;
    CapturedBy(r, a);
    var d := FindBy(r.decodes, ReadsReturn, id);
    if d.Some? {
      if c.accept && d.value.Decoded? { AcceptRefused(ledger, s, c, d.value, x.acceptedAt); }
    } else {
      DecodeRefused(s, c, id, x.decoding, x.decodedAt);
    }
  }

  predicate SameAttemptCall(b: Call, c: Call) {
    b.inquiryId == c.inquiryId && b.requestId == c.requestId && b.attemptId == c.attemptId
  }

  lemma SettledForAll(s: Inquiry, c: Call, b: Call)
    requires SameAttemptCall(b, c)
    ensures Settled(s, b) <==> Settled(s, c)
  {}

  /** Moves that only begin, advance or crash calls of one attempt. */
  predicate OnlyCalls(moves: seq<Move>, c: Call) {
    forall m :: m in moves ==> !m.Environment? && (m.Spawn? ==> SameAttemptCall(m.call, c))
  }

  ghost predicate AllAtRest(sys: System, s: Inquiry, c: Call) {
    forall i :: 0 <= i < |sys.processes| ==>
      SameAttemptCall(sys.processes[i].call, c) && AtRest(s, sys.processes[i].call, sys.processes[i].pc)
  }

  /** On a settled ledger any number of interleaved and crashing calls append nothing. */
  lemma {:induction false} SettledLedgerIsFinal(sys: System, s: Inquiry, c: Call, moves: seq<Move>, end: System)
    requires Current(sys.ledger, s) && Settled(s, c) && AllAtRest(sys, s, c)
    requires OnlyCalls(moves, c) && RunAll(sys, moves) == Some(end)
    ensures end.ledger == sys.ledger
    decreases moves
  {
    hide Current, Settled, AtRest, Next, SameAttemptCall;
    if moves != [] {
      var m := moves[0];
      var next := Apply(sys, m).value;
      RestMove(sys, s, c, m, next);
      SettledLedgerIsFinal(next, s, c, moves[1..], end);
    }
  }

  lemma RestMove(sys: System, s: Inquiry, c: Call, m: Move, next: System)
    requires Current(sys.ledger, s) && Settled(s, c) && AllAtRest(sys, s, c)
    requires !m.Environment? && (m.Spawn? ==> SameAttemptCall(m.call, c)) && Apply(sys, m) == Some(next)
    ensures next.ledger == sys.ledger && AllAtRest(next, s, c)
  {
    hide Current, Settled, Next, SameAttemptCall, Refusable, Locate, Located;
    if m.Run? {
      var p := sys.processes[m.process];
      SettledForAll(s, c, p.call);
      RestSteps(sys.ledger, s, p.call, p.pc, m.answers);
    }
  }

  // ------------------------------------------------------------ one call settles

  /** A lone step, then the rest of the lone call. */
  lemma DriveAlone(ledger: seq<Event>, c: Call, pc: Pc, x: Answers)
    requires !Halted(pc)
    ensures var p := Next(ledger, c, pc, x);
      Drive(ledger, [], c, pc, x) == Drive(ledger + p.appended, [], c, p.pc, x)
  {
    hide Next;
  }

  /** Alone, an append commits at its first try. */
  lemma DriveReads(ledger: seq<Event>, s: Inquiry, c: Call, stage: Stage, command: Command, x: Answers)
    requires Current(ledger, s)
    ensures Refusable(s, command) ==> Drive(ledger, [], c, Reading(stage, command, 0), x).ledger == ledger
    ensures forall e, t :: Decide(Active(s), command) == Emits(e) && Evolve(Active(s), e) == Some(Active(t)) ==>
              Drive(ledger, [], c, Reading(stage, command, 0), x)
                == Drive(ledger + [e], [], c, Resume(t, c, stage, x), x)
  {
    hide Fold, Decide, Evolve, Resume, Drive;
    SameLedger(ledger);
    var pc := Reading(stage, command, 0);
    DriveAlone(ledger, c, pc, x);
    var read := Next(ledger, c, pc, x).pc;
    if read.Committing? { DriveAlone(ledger, c, read, x); }
    if read.Raised? { HaltedDrive(ledger, c, read, x); }
  }

  lemma HaltedDrive(ledger: seq<Event>, c: Call, pc: Pc, x: Answers)
    requires Halted(pc)
    ensures Drive(ledger, [], c, pc, x).ledger == ledger
  {}

  /** The call leaves a ledger whose aggregate is settled. */
  ghost predicate Settles(ledger: seq<Event>, c: Call, pc: Pc, x: Answers) {
    exists t :: Current(Drive(ledger, [], c, pc, x).ledger, t) && Settled(t, c)
  }

  lemma EmittedAccept(ledger: seq<Event>, s: Inquiry, c: Call, d: Decode, at: int) returns (e: Event, t: Inquiry)
    requires Current(ledger, s) && c.inquiryId == s.id && Locate(s, c).Some?
    requires d in Locate(s, c).value.0.decodes && d.Decoded?
    requires Locate(s, c).value.0.accepted.None? && FreshResult(s, Locate(s, c).value.0, d.id)
    ensures Decide(Active(s), AcceptCommand(c, d.id, at)) == Emits(e) && Evolve(Active(s), e) == Some(Active(t))
    ensures Locate(t, c).Some? && Locate(t, c).value.0.accepted.Some?
    ensures AttemptMoves(Locate(s, c).value.1, Locate(t, c).value.1) && Current(ledger + [e], t)
  {
    hide Fold, Lifecycle, Evolve, Flatten, RequestRules, FreshResult, Moves, Recorded;
    LedgerSound(ledger, s);
    SoundRules(s);
    var r := Locate(s, c).value.0;
    RulesOf(s, r);
    DecodeFound(r, d);
    RequestFound(s, r);
    var command := AcceptCommand(c, d.id, at);
    e := Event(command, [], []);
    assert Judge(s, command.action).Fresh?;
    FreshDecisionsReduce(ledger, s, command);
    EvolveActive(Active(s), e);
    t := Evolve(Active(s), e).value.inquiry;
    EvolveSound(s, e, t);
    LocateMoves(s, t, c);
    AppliedIsRecorded(s, e, t);
    AcceptedRequest(t, c, d.id);
    FoldLast(Unstarted, ledger, e);
  }

  lemma AcceptedRequest(t: Inquiry, c: Call, decodeId: Id)
    requires Sound(t) && Locate(t, c).Some? && Recorded(t, AcceptResult(c.requestId, decodeId))
    ensures Locate(t, c).value.0.accepted.Some?
  {
    hide Lifecycle, Flatten, RequestRules;
    SoundRules(t);
    var h :| h in t.requests && Holds(h, AcceptResult(c.requestId, decodeId));
    RequestFound(t, h);
  }

  /** From a decoded return an accepting call accepts, or stops at a result identity in use. */
  lemma AcceptingSettles(ledger: seq<Event>, s: Inquiry, c: Call, d: Decode, x: Answers)
    requires Current(ledger, s) && c.inquiryId == s.id && c.accept && Locate(s, c).Some?
    requires Locate(s, c).value.1.start.Some? && Locate(s, c).value.1.outcome.Some?
    requires Locate(s, c).value.1.outcome.value.Returned?
    requires FindBy(Locate(s, c).value.0.decodes, ReadsReturn, Locate(s, c).value.1.outcome.value.external.id)
        == Some(d)
    requires Locate(s, c).value.0.accepted.None?
    ensures Settles(ledger, c, AfterDecode(s, c, d, x.acceptedAt), x)
  {
    hide Fold, Locate, FreshResult, Drive, Decide, Evolve, Current, Refusable;
    var command := AcceptCommand(c, d.id, x.acceptedAt);
    if !d.Decoded? {
      HaltedDrive(ledger, c, Done(s), x);
      assert Settled(s, c);
    } else {
      DriveReads(ledger, s, c, Accepting, command, x);
      if FreshResult(s, Locate(s, c).value.0, d.id) {
        var e, t := EmittedAccept(ledger, s, c, d, x.acceptedAt);
        HaltedDrive(ledger + [e], c, Done(t), x);
        assert Settled(t, c);
      } else {
        AcceptRefused(ledger, s, c, d, x.acceptedAt);
        assert Settled(s, c);
      }
    }
  }

  /** A fresh decode of the captured return joins the located request and nothing else changes there. */
  lemma DecodeJoins(s: Inquiry, c: Call, d: Decode, e: Event, t: Inquiry)
    requires Sound(s) && Evolve(Active(s), e) == Some(Active(t)) && e.command.action == RecordDecode(c.requestId, d)
    requires Locate(s, c).Some? && Captured(Locate(s, c).value.0, d.returnId) && Locate(s, c).value.0.accepted.None?
    requires FindBy(Locate(s, c).value.0.decodes, ReadsReturn, d.returnId).None?
    ensures Sound(t) && Locate(t, c).Some? && AttemptMoves(Locate(s, c).value.1, Locate(t, c).value.1)
    ensures Locate(t, c).value.0.accepted.None?
    ensures FindBy(Locate(t, c).value.0.decodes, DecodeId, d.id) == Some(d)
    ensures FindBy(Locate(t, c).value.0.decodes, ReadsReturn, d.returnId) == Some(d)
  {
    hide Lifecycle, Evolve, Flatten, RequestRules, Moves, Locate, Captured;
    EvolveSound(s, e, t);
    LocateMoves(s, t, c);
    SoundRules(s);
    var (r, a) := Locate(s, c).value;
    var (q, b) := Locate(t, c).value;
    RequestFound(s, r);
    DecodeRecorded(s, e, t, c, d, q);
    RulesOf(t, q);
    DecodeFound(q, d);
    if q.accepted.Some? {
      AcceptOrigin(s, e, t, q, r);
    }
    var z := FindBy(q.decodes, ReadsReturn, d.returnId);
    if z.Some? { DecodeOrigin(s, e, t, q, r, z.value); }
  }

  lemma DecodeRecorded(s: Inquiry, e: Event, t: Inquiry, c: Call, d: Decode, q: RequestState)
    requires Sound(s) && Sound(t) && Evolve(Active(s), e) == Some(Active(t))
    requires e.command.action == RecordDecode(c.requestId, d)
    requires Locate(t, c).Some? && q == Locate(t, c).value.0 && Locate(s, c).Some?
    requires Captured(Locate(s, c).value.0, d.returnId)
    ensures d in q.decodes
  {
    hide Lifecycle, Evolve, Flatten, RequestRules, Moves, Locate, Advance, Captured;
    SoundRules(s);
    SoundRules(t);
    AppliedSteps(s, e, t);
    var i, next := TargetAt(s, e.command);
    AdvanceHolds(s, s.requests[i], e.command) by { RulesOf(s, s.requests[i]); }
    assert t.requests[i] == next;
    RequestFound(t, next);
    RequestFound(t, q);
  }

  lemma AcceptOrigin(s: Inquiry, e: Event, t: Inquiry, q: RequestState, r: RequestState)
    requires Sound(s) && Evolve(Active(s), e) == Some(Active(t)) && e.command.action.RecordDecode?
    requires q in t.requests && r in s.requests && r.request.id == q.request.id && r.accepted.None?
    ensures q.accepted.None?
  {
    hide Lifecycle, Evolve, Flatten, RequestRules;
    SoundRules(s);
    if q.accepted.Some? {
      var action := AcceptResult(q.request.id, q.accepted.value);
      assert HoldsAt(q, action);
      StepOrigin(s, e, t, q, action);
      var h :| h in s.requests && HoldsAt(h, action);
      RequestFound(s, h);
      RequestFound(s, r);
    }
  }

  lemma DecodeOrigin(s: Inquiry, e: Event, t: Inquiry, q: RequestState, r: RequestState, z: Decode)
    requires Sound(s) && Evolve(Active(s), e) == Some(Active(t)) && e.command.action.RecordDecode?
    requires q in t.requests && r in s.requests && r.request.id == q.request.id && z in q.decodes
    ensures z == e.command.action.decode || z in r.decodes
  {
    hide Lifecycle, Evolve, Flatten, RequestRules;
    SoundRules(s);
    var action := RecordDecode(q.request.id, z);
    assert HoldsAt(q, action);
    StepOrigin(s, e, t, q, action);
    if e.command.action != action {
      var h :| h in s.requests && HoldsAt(h, action);
      RequestFound(s, h);
      RequestFound(s, r);
    }
  }

  lemma EmittedDecode(ledger: seq<Event>, s: Inquiry, c: Call, returnId: Id, answer: Decoding, at: int)
    returns (e: Event, t: Inquiry)
    requires Current(ledger, s) && c.inquiryId == s.id && Locate(s, c).Some? && Captured(Locate(s, c).value.0, returnId)
    requires FindBy(Flatten(s.requests, Decodes), DecodeId, DecodeIdOf(returnId, c.version)).None?
    ensures Decide(Active(s), DecodeCommand(c, returnId, answer, at)) == Emits(e)
    ensures Evolve(Active(s), e) == Some(Active(t))
    ensures e.command.action == RecordDecode(c.requestId, DecodeOf(c, returnId, answer))
    ensures Current(ledger + [e], t) && t.id == s.id
  {
    hide Fold, Lifecycle, Evolve, Flatten, RequestRules, Captured;
    LedgerSound(ledger, s);
    SoundRules(s);
    RequestFound(s, Locate(s, c).value.0);
    var command := DecodeCommand(c, returnId, answer, at);
    e := Event(command, [], []);
    assert Judge(s, command.action).Fresh?;
    FreshDecisionsReduce(ledger, s, command);
    EvolveActive(Active(s), e);
    t := Evolve(Active(s), e).value.inquiry;
    EvolveMoves(s, e, t);
    FoldLast(Unstarted, ledger, e);
  }

  lemma InterpretingSettles(ledger: seq<Event>, s: Inquiry, c: Call, x: Answers)
    requires Current(ledger, s) && c.inquiryId == s.id && c.accept && Located(s, c)
    requires Locate(s, c).value.1.start.Some? && Locate(s, c).value.1.outcome.Some?
    requires Locate(s, c).value.1.outcome.value.Returned?
    requires Locate(s, c).value.0.accepted.None?
    ensures Settles(ledger, c, Interpreting(s), x)
  {
    hide Fold, Locate, FreshResult, Drive, Decide, Evolve, Current, Refusable, FindBy, Flatten, AfterDecode, Settled,
      Sound, Captured;
    var (r, a) := Locate(s, c).value;
    var id := a.outcome.value.external.id;
    SameLedger(ledger);
    DriveAlone(ledger, c, Interpreting(s), x);
    var d := FindBy(r.decodes, ReadsReturn, id);
    CapturedBy(r, a);
    LedgerSoundHere(ledger, s);
    if d.Some? {
      AcceptingSettles(ledger, s, c, d.value, x);
    } else {
      var command := DecodeCommand(c, id, x.decoding, x.decodedAt);
      DriveReads(ledger, s, c, Recording(DecodeIdOf(id, c.version)), command, x);
      if FindBy(Flatten(s.requests, Decodes), DecodeId, DecodeIdOf(id, c.version)).Some? {
        DecodeRefused(s, c, id, x.decoding, x.decodedAt);
        UnreadSettled(s, c);
      } else {
        var e, t := EmittedDecode(ledger, s, c, id, x.decoding, x.decodedAt);
        var made := DecodeOf(c, id, x.decoding);
        DecodeJoins(s, c, made, e, t);
        AcceptingSettles(ledger + [e], t, c, made, x);
      }
    }
  }

  lemma LedgerSoundHere(ledger: seq<Event>, s: Inquiry)
    requires Current(ledger, s)
    ensures Sound(s)
  {
    hide Sound;
    LedgerSound(ledger, s);
  }

  lemma UnreadSettled(s: Inquiry, c: Call)
    requires Located(s, c) && Locate(s, c).value.1.start.Some? && Locate(s, c).value.1.outcome.Some?
    requires Locate(s, c).value.1.outcome.value.Returned?
    requires var id := Locate(s, c).value.1.outcome.value.external.id;
      FindBy(Locate(s, c).value.0.decodes, ReadsReturn, id).None?
      && FindBy(Flatten(s.requests, Decodes), DecodeId, DecodeIdOf(id, c.version)).Some?
    ensures Settled(s, c)
  {
    hide Locate, FindBy, Flatten;
  }

  lemma EntrySettles(ledger: seq<Event>, s: Inquiry, c: Call, x: Answers)
    requires Current(ledger, s) && c.inquiryId == s.id && c.accept && Locate(s, c).Some?
    requires Locate(s, c).value.1.outcome.Some?
    requires !Begin(s, c, x.valid).Raised?
    ensures Settles(ledger, c, Entry, x)
  {
    hide Fold, Locate, Drive, NothingToAppend, Sound, Next;
    var (r, a) := Locate(s, c).value;
    LedgerSoundHere(ledger, s);
    AttemptRulesOf(s, r, a);
    EntryStep(ledger, s, c, x);
    var pc := Begin(s, c, x.valid);
    if Halted(pc) {
      HaltedDrive(ledger, c, pc, x);
      assert Settled(s, c);
    } else {
      InterpretingSettles(ledger, s, c, x);
    }
  }

  lemma EntryStep(ledger: seq<Event>, s: Inquiry, c: Call, x: Answers)
    requires Current(ledger, s)
    ensures Drive(ledger, [], c, Entry, x) == Drive(ledger, [], c, Begin(s, c, x.valid), x)
  {
    hide Drive, Begin;
    SameLedger(ledger);
    DriveAlone(ledger, c, Entry, x);
  }

  /** Once an outcome of an attempt is logged, one uninterrupted accepting call that passes its
      adapter and route checks leaves a ledger to which further calls for the attempt, in any
      number, interleaved or crashing, append nothing. */
  lemma OneAcceptingCallSettles(ledger: seq<Event>, s: Inquiry, c: Call, x: Answers, k: nat, moves: seq<Move>,
    end: System)
    requires Current(ledger, s) && c.inquiryId == s.id && c.accept && !Begin(s, c, x.valid).Raised?
    requires k < |ledger| && ledger[k].command.action.RecordOutcome?
    requires ledger[k].command.action.outcome.attemptId == c.attemptId
    requires OnlyCalls(moves, c)
    requires var left := Drive(ledger, [], c, Entry, x).ledger;
      RunAll(System(left, seq(|left|, _ => None), [], []), moves) == Some(end)
    ensures end.ledger == Drive(ledger, [], c, Entry, x).ledger
  {
    hide Fold, Drive, Settled, OnlyCalls, RunAll;
    assert ledger[..|ledger|] == ledger;
    OutcomeLoggedIsSeen(ledger, |ledger|, s, c, k);
    EntrySettles(ledger, s, c, x);
    var left := Drive(ledger, [], c, Entry, x).ledger;
    var t :| Current(left, t) && Settled(t, c);
    SettledLedgerIsFinal(System(left, seq(|left|, _ => None), [], []), t, c, moves, end);
  }
}
