/** When one accepting call leaves nothing but a refusal for the calls that were in flight: the
    exact condition before the call, and the runs that show it exact. */
module ExecutorQuiet {
  import opened Sequences
  import opened InquiryModel
  import opened Transitions
  import opened EffectLifecycle
  import opened EffectLedger
  import opened EffectAgreement
  import opened EffectExecutor
  import opened ExecutorSafety
  import opened ExecutorRuns
  import opened ExecutorCalls
  import opened ExecutorSettlement
  import opened ExecutorCompletion
  import opened ExecutorSeal

  // ------------------------------------------------------------ when a call seals

  /** The decode is successful and its result is accepted nowhere yet. */
  predicate Acceptable(s: Inquiry, r: RequestState, d: Decode) { d.Decoded? && FreshResult(s, r, d.id) }

  /** What decides whether an accepting call seals an ended attempt. A return nobody has read is
      decoded by the call itself. A return already read needs the executor's decode identity taken;
      then the request is accepted, or the call accepts the first reader, or nothing is acceptable. */
  predicate Sealable(s: Inquiry, c: Call) {
    Locate(s, c).Some? && var (r, a) := Locate(s, c).value;
      a.outcome.Some? && (a.outcome.value.Returned? ==>
        var returnId := a.outcome.value.external.id;
        var first := FindBy(r.decodes, ReadsReturn, returnId);
        || (r.accepted.None? && first.None?)
        || (DecodeTaken(s, a, returnId)
            && (r.accepted.Some? || (first.Some? && Acceptable(s, r, first.value)) || NoneAcceptable(s, r, a))))
  }

  /** The attempt has a captured return. */
  predicate Returning(s: Inquiry, c: Call) {
    Located(s, c) && var a := Locate(s, c).value.1;
      a.start.Some? && a.outcome.Some? && a.outcome.value.Returned?
  }

  function ReturnOf(s: Inquiry, c: Call): Id
    requires Returning(s, c)
  {
    Locate(s, c).value.1.outcome.value.external.id
  }

  /** An acceptance changes no decode. */
  lemma AcceptLeaves(s: Inquiry, c: Call, e: Event, t: Inquiry, decodeId: Id)
    requires Sound(s) && Returning(s, c) && Evolve(Active(s), e) == Some(Active(t))
    requires e.command.action == AcceptResult(c.requestId, decodeId)
    ensures Sound(t) && Returning(t, c) && ReturnOf(t, c) == ReturnOf(s, c)
    ensures var (a, b) := (Locate(s, c).value.1, Locate(t, c).value.1);
      DecodeTaken(t, b, ReturnOf(t, c)) <==> DecodeTaken(s, a, ReturnOf(s, c))
  {
    hide Lifecycle, Evolve, Locate, Flatten, RequestRules, FindBy, Moves;
    LocatedHas(s, c);
    SameTarget(s, c, e.command.action);
    var i, q := AdvancesLocated(s, c, e, t);
    EvolveSound(s, e, t);
    LocateMoves(s, t, c);
    OnlyAccepts(s, s.requests[i], e.command);
    FlattenKept(s.requests, i, q, Decodes);
  }

  lemma OnlyAccepts(s: Inquiry, r: RequestState, c: Command)
    requires c.action.AcceptResult? && Advance(s, r, c).Some?
    ensures Advance(s, r, c).value.decodes == r.decodes
  {
    hide FindBy;
  }

  /** The end of an accepting call that found a decode of its return. */
  lemma AcceptingEnds(ledger: seq<Event>, s: Inquiry, c: Call, d: Decode, x: Answers) returns (t: Inquiry)
    requires Current(ledger, s) && c.inquiryId == s.id && c.accept && Returning(s, c)
    requires FindBy(Locate(s, c).value.0.decodes, ReadsReturn, ReturnOf(s, c)) == Some(d)
    requires Locate(s, c).value.0.accepted.None?
    ensures Current(Drive(ledger, [], c, AfterDecode(s, c, d, x.acceptedAt), x).ledger, t)
    ensures var (r, a) := Locate(s, c).value;
      Sealed(t, c) <==>
        DecodeTaken(s, a, ReturnOf(s, c)) && (Acceptable(s, r, d) || NoneAcceptable(s, r, a))
  {
    hide Fold, Locate, FreshResult, Drive, Decide, Evolve, Current, Refusable, DecodeTaken, Located, Sound;
    hide NoneAcceptable, FindBy;
    LocatedHas(s, c);
    LedgerSoundHere(ledger, s);
    var r := Locate(s, c).value.0;
    var command := AcceptCommand(c, d.id, x.acceptedAt);
    t := s;
    if !d.Decoded? {
      HaltedDrive(ledger, c, Done(s), x);
    } else {
      DriveReads(ledger, s, c, Accepting, command, x);
      if FreshResult(s, r, d.id) {
        var e, u := EmittedAccept(ledger, s, c, d, x.acceptedAt);
        HaltedDrive(ledger + [e], c, Done(u), x);
        EmittedIs(s, command, e);
        AcceptLeaves(s, c, e, u, d.id);
        t := u;
      } else {
        AcceptRefused(ledger, s, c, d, x.acceptedAt);
      }
    }
  }

  /** A newly recorded decode of the return is the only one that reads it. */
  lemma DecodeIsOnlyReader(s: Inquiry, c: Call, made: Decode, e: Event, t: Inquiry)
    requires Sound(s) && Evolve(Active(s), e) == Some(Active(t))
    requires e.command.action == RecordDecode(c.requestId, made)
    requires Returning(s, c) && made.returnId == ReturnOf(s, c) && made.id == DecodeIdOf(made.returnId, c.version)
    requires Locate(s, c).value.0.accepted.None?
    requires FindBy(Locate(s, c).value.0.decodes, ReadsReturn, made.returnId).None?
    ensures Sound(t) && Returning(t, c) && ReturnOf(t, c) == ReturnOf(s, c) && Locate(t, c).value.0.accepted.None?
    ensures FindBy(Locate(t, c).value.0.decodes, ReadsReturn, made.returnId) == Some(made)
    ensures DecodeTaken(t, Locate(t, c).value.1, ReturnOf(t, c))
    ensures forall z :: z in Locate(t, c).value.0.decodes && z.returnId == made.returnId ==> z == made
  {
    hide Locate, Evolve, Moves, Sound, FindBy, Captured;
    LocatedHas(s, c);
    var (r, a) := Locate(s, c).value;
    CapturedBy(r, a);
    DecodeJoins(s, c, made, e, t);
    EvolveSound(s, e, t);
    LocateMoves(s, t, c);
    var q := Locate(t, c).value.0;
    assert made in q.decodes;
    forall z | z in q.decodes && z.returnId == made.returnId ensures z == made {
      DecodeOrigin(s, e, t, q, r, z);
      assert z in r.decodes ==> ReadsReturn(z) != made.returnId;
    }
    var i :| 0 <= i < |t.requests| && t.requests[i] == q;
    FlattenHas(t.requests, Decodes, made);
    assert DecodeId(made) == made.id;
  }

  lemma UnreadSealed(s: Inquiry, c: Call)
    requires Returning(s, c) && FindBy(Locate(s, c).value.0.decodes, ReadsReturn, ReturnOf(s, c)).None?
    requires DecodeTaken(s, Locate(s, c).value.1, ReturnOf(s, c))
    ensures Sealed(s, c)
  {
    hide Locate, Flatten;
    var returnId := ReturnOf(s, c);
    assert forall z :: z in Locate(s, c).value.0.decodes ==> ReadsReturn(z) != returnId;
  }

  lemma OneReaderDecides(s: Inquiry, c: Call, d: Decode)
    requires Returning(s, c) && d in Locate(s, c).value.0.decodes
    requires forall z :: z in Locate(s, c).value.0.decodes && z.returnId == ReturnOf(s, c) ==> z == d
    ensures var (r, a) := Locate(s, c).value; Acceptable(s, r, d) || NoneAcceptable(s, r, a)
  {
    hide Locate, FreshResult, FindBy;
  }

  lemma InterpretingEnds(ledger: seq<Event>, s: Inquiry, c: Call, x: Answers) returns (t: Inquiry)
    requires Current(ledger, s) && c.inquiryId == s.id && c.accept && Returning(s, c)
    requires Locate(s, c).value.0.accepted.None?
    ensures Current(Drive(ledger, [], c, Interpreting(s), x).ledger, t) && (Sealed(t, c) <==> Sealable(s, c))
  {
    hide Fold, Locate, Drive, Decide, Evolve, Current, Refusable, FindBy, Flatten, AfterDecode;
    hide Sealed, Sound, Captured, Acceptable, NoneAcceptable, Located;
    LocatedHas(s, c);
    var (r, a) := Locate(s, c).value;
    var id := ReturnOf(s, c);
    SameLedger(ledger);
    DriveAlone(ledger, c, Interpreting(s), x);
    CapturedBy(r, a);
    LedgerSoundHere(ledger, s);
    var d := FindBy(r.decodes, ReadsReturn, id);
    if d.Some? {
      t := AcceptingEnds(ledger, s, c, d.value, x);
    } else {
      RouteVersion(s, c);
      var own := DecodeIdOf(id, c.version);
      DriveReads(ledger, s, c, Recording(own), DecodeCommand(c, id, x.decoding, x.decodedAt), x);
      if FindBy(Flatten(s.requests, Decodes), DecodeId, own).Some? {
        DecodeRefused(s, c, id, x.decoding, x.decodedAt);
        UnreadSealed(s, c);
        t := s;
      } else {
        var e, u := EmittedDecode(ledger, s, c, id, x.decoding, x.decodedAt);
        var made := DecodeOf(c, id, x.decoding);
        DecodeJoins(s, c, made, e, u);
        DecodeIsOnlyReader(s, c, made, e, u);
        OneReaderDecides(u, c, made) by { assert made in Locate(u, c).value.0.decodes; }
        t := AcceptingEnds(ledger + [e], u, c, made, x);
      }
    }
  }

  lemma RouteVersion(s: Inquiry, c: Call)
    requires Located(s, c)
    ensures Locate(s, c).value.1.plan.route.adapterVersion == c.version
  {}

  /** The accepting call on an ended attempt leaves it sealed exactly when it was sealable. */
  lemma AcceptingCallSealsIff(ledger: seq<Event>, s: Inquiry, c: Call, x: Answers) returns (t: Inquiry)
    requires Current(ledger, s) && c.inquiryId == s.id && c.accept
    requires Locate(s, c).Some? && Locate(s, c).value.1.outcome.Some? && !Begin(s, c, x.valid).Raised?
    ensures Current(Drive(ledger, [], c, Entry, x).ledger, t) && (Sealed(t, c) <==> Sealable(s, c))
  {
    hide Fold, Locate, Drive, Sound, Next, DecodeTaken, FindBy, NoneAcceptable;
    var (r, a) := Locate(s, c).value;
    LedgerSoundHere(ledger, s);
    AttemptRulesOf(s, r, a);
    EntryStep(ledger, s, c, x);
    var pc := Begin(s, c, x.valid);
    if Halted(pc) {
      HaltedDrive(ledger, c, pc, x);
      t := s;
    } else {
      t := InterpretingEnds(ledger, s, c, x);
    }
  }

  // ------------------------------------------------------------ a call about to decode

  /** The call's adapter and version are those of the attempt's request and route. */
  predicate Serves(s: Inquiry, c: Call) {
    Located(s, c) && Locate(s, c).value.0.request.adapterId == c.adapterId
  }

  /** The request's record at an earlier aggregate, when that held the attempt. */
  lemma EarlierRequest(u: Inquiry, s: Inquiry, c: Call, h: RequestState, b: Attempt)
    requires Sound(u) && Sound(s) && Moves(u, s) && Locate(s, c).Some?
    requires h in u.requests && b in h.attempts && b.plan.id == c.attemptId
    ensures Locate(u, c) == Some((h, b)) && h.request == Locate(s, c).value.0.request
    ensures b.plan == Locate(s, c).value.1.plan
  {
    hide Lifecycle, Flatten, RequestRules, FindBy;
    SoundRules(u);
    SoundRules(s);
    var q := RequestKept(u, s, h);
    var y := AttemptKept(h, q, b);
    SameAttempt(s, q, y, Locate(s, c).value.0, Locate(s, c).value.1);
    RequestFound(u, h);
    RulesOf(u, h);
    UniqueAttempt(h, b);
  }

  /** Just before its start was logged, the attempt is one a call would preflight. */
  lemma UnstartedPrefix(ledger: seq<Event>, s: Inquiry, c: Call, j: nat) returns (u: Inquiry)
    requires Current(ledger, s) && Serves(s, c)
    requires j < |ledger| && ledger[j].command.action == StartAttempt(c.attemptId)
    ensures Current(ledger[..j], u) && u.id == s.id && Begin(u, c, true) == Preflighting(u) && Locate(u, c).Some?
  {
    hide Fold, Evolve, Locate, Flatten, RequestRules, Lifecycle, Moves;
    var e := ledger[j];
    assert ledger == ledger[..j] + [e] + ledger[j+1..];
    var v;
    u, v := AppliedAt(ledger[..j], e, ledger[j+1..], s);
    EvolveSound(u, e, v);
    MovesTransitive(u, v, s);
    AppliedSteps(u, e, v);
    var h := Containing(u.requests, c.attemptId).value;
    var b := FindBy(h.attempts, AttemptId, c.attemptId).value;
    EarlierRequest(u, s, c, h, b);
    AttemptRulesOf(u, h, b);
    SameIdMoves(u, s);
    assert b.start.None? && h.accepted.None?;
  }

  lemma SameIdMoves(u: Inquiry, s: Inquiry)
    requires Moves(u, s)
    ensures u.id == s.id
  {}

  /** Right after its outcome was logged, no decode reads the return. */
  lemma CapturedPrefix(ledger: seq<Event>, s: Inquiry, c: Call, k: nat) returns (w: Inquiry)
    requires Current(ledger, s) && Returning(s, c) && k < |ledger|
    requires ledger[k].command.action == RecordOutcome(c.requestId, Locate(s, c).value.1.outcome.value)
    requires Locate(s, c).value.1.outcome.value.attemptId == c.attemptId
    requires Locate(s, c).value.1.outcome.value.Linked()
    ensures Current(ledger[..k+1], w) && w.id == s.id && Returning(w, c) && ReturnOf(w, c) == ReturnOf(s, c)
    ensures FindBy(Locate(w, c).value.0.decodes, ReadsReturn, ReturnOf(s, c)).None?
  {
    hide Fold, Evolve, Flatten, RequestRules, Lifecycle, Moves, Locate, Recorded, FindBy, Unused;
    LocatedHas(s, c);
    var e := ledger[k];
    assert ledger == ledger[..k] + [e] + ledger[k+1..];
    assert ledger[..k] + [e] == ledger[..k+1];
    var u;
    u, w := AppliedAt(ledger[..k], e, ledger[k+1..], s);
    EvolveSound(u, e, w);
    MovesTransitive(u, w, s);
    SameIdMoves(w, s);
    var h, b := OutcomeIsNew(ledger[..k], u, e, w, c);
    EarlierRequest(u, s, c, h, b);
    UnreadReturn(u, h, ReturnOf(s, c));
    SameTarget(u, c, e.command.action);
    var i, q := AdvancesLocated(u, c, e, w);
    LocateMoves(u, w, c);
    OnlyEnds(u, u.requests[i], e.command);
    AppliedIsRecorded(u, e, w);
    EndedAttempt(w, c, e.command.action);
    AttemptRulesOf(w, Locate(w, c).value.0, Locate(w, c).value.1);
  }

  lemma OnlyEnds(s: Inquiry, r: RequestState, c: Command)
    requires c.action.RecordOutcome? && Advance(s, r, c).Some?
    ensures Advance(s, r, c).value.decodes == r.decodes
  {
    hide FindBy;
  }

  lemma OutcomeIsNew(ledger: seq<Event>, u: Inquiry, e: Event, w: Inquiry, c: Call)
    returns (h: RequestState, b: Attempt)
    requires Current(ledger, u) && Evolve(Active(u), e) == Some(Active(w))
    requires e.command.action.RecordOutcome? && e.command.action.outcome.attemptId == c.attemptId
    requires e.command.action.outcome.Returned?
    ensures h in u.requests && b in h.attempts && b.plan.id == c.attemptId
    ensures Unused(u.requests, Returns, ReturnId, e.command.action.outcome.external.id)
  {
    hide Fold, Evolve, Flatten, Lifecycle;
    EffectsIgnoreBundles(u, e);
    ReducedDecisionsAreFresh(ledger, u, e.command);
    h := FindBy(u.requests, RequestId, e.command.action.requestId).value;
    b := FindBy(h.attempts, AttemptId, c.attemptId).value;
  }

  // ------------------------------------------------------------ the run that leaves it pending

  lemma PartReplays(ledger: seq<Event>, i: nat, j: nat)
    requires Replays(ledger) && i <= j <= |ledger|
    ensures Replays(ledger[..i] + ledger[i..j]) && ledger[..i] + ledger[i..j] == ledger[..j]
  {
    hide Evolve;
    assert ledger[..i] + ledger[i..j] == ledger[..j];
    assert ledger == ledger[..j] + ledger[j..];
    FoldSplits(Unstarted, ledger[..j], ledger[j..]);
  }

  /** Other writers bring the ledger from one of its prefixes to a longer one. */
  lemma Fill(past: seq<Move>, sys: System, ledger: seq<Event>, i: nat, j: nat) returns (longer: seq<Move>, next: System)
    requires RunAll(NOTHING, past) == Some(sys) && Replays(ledger) && i <= j <= |ledger| && sys.ledger == ledger[..i]
    ensures RunAll(NOTHING, longer) == Some(next) && next.ledger == ledger[..j] && next.processes == sys.processes
  {
    hide Fold, RunAll;
    PartReplays(ledger, i, j);
    var batch := BatchIsARun(sys, ledger[i..j]);
    RunAllSplits(NOTHING, past, batch);
    longer := past + batch;
    next := RunAll(sys, batch).value;
  }

  /** The call stands before recording its decode of the attempt's return. */
  predicate Pending(sys: System, i: nat, s: Inquiry, c: Call, x: Answers)
    requires Returning(s, c)
  {
    var returnId := ReturnOf(s, c);
    var stage := Recording(DecodeIdOf(returnId, c.version));
    && i < |sys.processes| && sys.processes[i].call == c
    && sys.processes[i].pc == Reading(stage, DecodeCommand(c, returnId, x.decoding, x.decodedAt), 0)
  }

  /** Every ledger with a captured return, however it came about, is also the ledger of a run in
      which a call is about to record its own decode: begun before the start, the call finds start
      and outcome logged when it comes to append, and nobody has read the return yet. */
  lemma PendingRun(ledger: seq<Event>, s: Inquiry, c: Call, x: Answers) returns (past: seq<Move>, sys: System)
    requires Current(ledger, s) && c.inquiryId == s.id && Serves(s, c) && Returning(s, c)
    requires x.valid && x.preflight.Supported?
    ensures RunAll(NOTHING, past) == Some(sys) && sys.ledger == ledger && |sys.processes| == 1
    ensures Pending(sys, 0, s, c, x)
  {
    hide Fold, RunAll, Locate, Begin, Located, FindBy;
    var j, k := StartThenOutcome(ledger, s, c);
    var u := UnstartedPrefix(ledger, s, c, j);
    var w := CapturedPrefix(ledger, s, c, k);
    assert [] == ledger[..0];
    NoMoves(NOTHING);
    past, sys := Fill([], NOTHING, ledger, 0, j);
    sys, past := StepRun(NOTHING, past, Spawn(c));
    sys, past := StepRun(NOTHING, past, Run(0, x)) by { SameLedger(sys.ledger); }
    assert sys.processes[0].pc == Preflighting(u);
    sys, past := StepRun(NOTHING, past, Run(0, x));
    assert sys.processes[0].pc == Reading(Starting, StartCommand(c, x.startedAt), 0);
    past, sys := Fill(past, sys, ledger, j, k + 1);
    ResumesStarted(sys.ledger, w, c, x);
    sys, past := StepRun(NOTHING, past, Run(0, x));
    assert sys.processes[0].pc == Interpreting(w);
    sys, past := StepRun(NOTHING, past, Run(0, x));
    assert Pending(sys, 0, s, c, x);
    past, sys := Fill(past, sys, ledger, k + 1, |ledger|);
    assert ledger[..|ledger|] == ledger;
  }

  lemma StartThenOutcome(ledger: seq<Event>, s: Inquiry, c: Call) returns (j: nat, k: nat)
    requires Current(ledger, s) && Returning(s, c)
    ensures j < k < |ledger| && ledger[j].command.action == StartAttempt(c.attemptId)
    ensures ledger[k].command.action == RecordOutcome(c.requestId, Locate(s, c).value.1.outcome.value)
    ensures Locate(s, c).value.1.outcome.value.attemptId == c.attemptId && Locate(s, c).value.1.outcome.value.Linked()
  {
    hide Fold, Lifecycle;
    LedgerSound(ledger, s);
    var (r, a) := Locate(s, c).value;
    AttemptRulesOf(s, r, a);
    OutcomeHeld(ledger, s, r, a);
    var action := RecordOutcome(c.requestId, a.outcome.value);
    assert HoldsAt(r, action);
    k := RecordedWasLogged(ledger, s, r, action);
    j := OutcomeAfterStart(ledger, s, k);
  }

  /** A call that comes to log a start already logged goes on from what the ledger shows. */
  lemma ResumesStarted(ledger: seq<Event>, w: Inquiry, c: Call, x: Answers)
    requires Current(ledger, w) && c.inquiryId == w.id && Returning(w, c)
    ensures Read(ledger, c, Starting, StartCommand(c, x.startedAt), 0, x) == Interpreting(w)
  {
    hide Fold, Lifecycle, Flatten;
    LedgerSound(ledger, w);
    SoundRules(w);
    var (r, a) := Locate(w, c).value;
    var h := Containing(w.requests, c.attemptId);
    SameAttempt(w, r, a, h.value, FindBy(h.value.attempts, AttemptId, c.attemptId).value);
    assert Judge(w, StartAttempt(c.attemptId)).Known?;
  }

  // ------------------------------------------------------------ unsealed ledgers are disturbed

  /** The ledger is as it was, or one refusal of the attempt longer. */
  ghost predicate Still(before: seq<Event>, after: seq<Event>, c: Call) {
    after == before || exists e :: after == before + [e] && Refusal(e, c)
  }

  lemma GrownIsNotStill(before: seq<Event>, e: Event, c: Call)
    requires !Refusal(e, c)
    ensures !Still(before, before + [e], c)
  {
    forall f: Event | before + [e] == before + [f] ensures f == e {
      assert (before + [f])[|before|] == f;
    }
  }

  /** The body of the recorded decode under the executor's identity, if there is one. */
  function OwnBody(s: Inquiry, c: Call): Id
    requires Returning(s, c)
  {
    var d := FindBy(Locate(s, c).value.0.decodes, DecodeId, DecodeIdOf(ReturnOf(s, c), c.version));
    if d.Some? && d.value.Decoded? then d.value.result.body else Text(0)
  }

  /** A pending command that is still good lands at the call's next two steps. */
  lemma PendingLands(sys: System, s: Inquiry, i: nat, x: Answers, e: Event, t: Inquiry)
    requires i < |sys.processes| && sys.processes[i].pc.Reading? && Current(sys.ledger, s)
    requires Decide(Active(s), sys.processes[i].pc.command) == Emits(e) && Evolve(Active(s), e) == Some(Active(t))
    ensures RunProcess(RunProcess(sys, i, x), i, x).ledger == sys.ledger + [e]
  {
    hide Fold, Decide, Evolve, Resume;
    SameLedger(sys.ledger);
  }

  lemma RunProcessKeepsCount(sys: System, i: nat, x: Answers)
    requires i < |sys.processes|
    ensures |RunProcess(sys, i, x).processes| == |sys.processes|
  {}

  lemma TwoRuns(sys: System, i: nat, x: Answers) returns (moves: seq<Move>, end: System)
    requires i < |sys.processes|
    ensures moves == [Run(i, x), Run(i, x)] && RunAll(sys, moves) == Some(end)
    ensures end == RunProcess(RunProcess(sys, i, x), i, x)
  {
    hide RunProcess, RunAll;
    NoMoves(sys);
    end, moves := StepRun(sys, [], Run(i, x));
    end, moves := StepRun(sys, moves, Run(i, x)) by { RunProcessKeepsCount(sys, i, x); }
  }

  /** A process about to accept an acceptable decode does so. */
  lemma AcceptanceLands(sys: System, i: nat, s: Inquiry, c: Call, d: Decode, x: Answers)
    returns (moves: seq<Move>, end: System)
    requires Current(sys.ledger, s) && c.inquiryId == s.id && Locate(s, c).Some?
    requires i < |sys.processes| && sys.processes[i].pc == Reading(Accepting, AcceptCommand(c, d.id, x.acceptedAt), 0)
    requires sys.processes[i].call.attemptId == c.attemptId
    requires d in Locate(s, c).value.0.decodes && Locate(s, c).value.0.accepted.None?
    requires Acceptable(s, Locate(s, c).value.0, d)
    ensures RunAll(sys, moves) == Some(end) && OnlyCalls(moves, c) && !Still(sys.ledger, end.ledger, c)
  {
    hide Fold, RunAll, Locate, FreshResult, RunProcess, Decide, Evolve, Still;
    var e, t := EmittedAccept(sys.ledger, s, c, d, x.acceptedAt);
    PendingLands(sys, s, i, x, e, t);
    moves, end := TwoRuns(sys, i, x);
    EmittedIs(s, AcceptCommand(c, d.id, x.acceptedAt), e);
    GrownIsNotStill(sys.ledger, e, c);
  }

  /** While the executor's decode identity is free, a pending decode lands, whether or not the
      request has been accepted. */
  lemma LateDecodeLands(sys: System, i: nat, s: Inquiry, c: Call, x: Answers)
    returns (moves: seq<Move>, end: System, e: Event)
    requires Current(sys.ledger, s) && c.inquiryId == s.id && Returning(s, c) && Pending(sys, i, s, c, x)
    requires !DecodeTaken(s, Locate(s, c).value.1, ReturnOf(s, c))
    ensures RunAll(sys, moves) == Some(end) && OnlyCalls(moves, c) && end.ledger == sys.ledger + [e]
    ensures e.command.action == RecordDecode(c.requestId, DecodeOf(c, ReturnOf(s, c), x.decoding))
    ensures !Still(sys.ledger, end.ledger, c)
  {
    hide Fold, RunAll, Locate, RunProcess, Decide, Evolve, Still, Flatten, FindBy, Captured;
    LocatedHas(s, c);
    RouteVersion(s, c);
    CapturedBy(Locate(s, c).value.0, Locate(s, c).value.1);
    var t;
    e, t := EmittedDecode(sys.ledger, s, c, ReturnOf(s, c), x.decoding, x.decodedAt);
    PendingLands(sys, s, i, x, e, t);
    moves, end := TwoRuns(sys, i, x);
    GrownIsNotStill(sys.ledger, e, c);
  }

  /** A new accepting call accepts the first reader of the return when that is acceptable. */
  lemma FirstReaderLands(sys: System, s: Inquiry, c: Call, d: Decode, x: Answers)
    returns (moves: seq<Move>, end: System)
    requires Current(sys.ledger, s) && c.inquiryId == s.id && c.accept && Returning(s, c) && Serves(s, c) && x.valid
    requires FindBy(Locate(s, c).value.0.decodes, ReadsReturn, ReturnOf(s, c)) == Some(d)
    requires Locate(s, c).value.0.accepted.None? && Acceptable(s, Locate(s, c).value.0, d)
    ensures RunAll(sys, moves) == Some(end) && OnlyCalls(moves, c) && !Still(sys.ledger, end.ledger, c)
  {
    hide Fold, RunAll, Locate, FreshResult, Still, Acceptable, FindBy;
    var n := |sys.processes|;
    NoMoves(sys);
    SameLedger(sys.ledger);
    var s1, m1 := StepRun(sys, [], Spawn(c));
    var s2, m2 := StepRun(sys, m1, Run(n, x));
    ReturningBegins(s, c);
    assert s2.processes[n].pc == Interpreting(s);
    var s3, m3 := StepRun(sys, m2, Run(n, x));
    DecodedIfAcceptable(s, c, d);
    assert s3.processes[n].pc == Reading(Accepting, AcceptCommand(c, d.id, x.acceptedAt), 0);
    var m4;
    m4, end := AcceptanceLands(s3, n, s, c, d, x);
    RunAllSplits(sys, m3, m4);
    moves := m3 + m4;
  }

  lemma ReturningBegins(s: Inquiry, c: Call)
    requires Returning(s, c) && Serves(s, c) && Locate(s, c).value.0.accepted.None?
    ensures Begin(s, c, true) == Interpreting(s)
  {
    hide Locate;
  }

  lemma DecodedIfAcceptable(s: Inquiry, c: Call, d: Decode)
    requires Locate(s, c).Some? && Acceptable(s, Locate(s, c).value.0, d)
    ensures d.Decoded?
  {
    hide Locate, FreshResult;
  }

  /** A pending decode that equals the recorded one goes on to accept it. */
  lemma OwnDecodeLands(sys: System, i: nat, s: Inquiry, c: Call, d: Decode, x: Answers)
    returns (moves: seq<Move>, end: System)
    requires Current(sys.ledger, s) && c.inquiryId == s.id && c.accept && Returning(s, c) && Pending(sys, i, s, c, x)
    requires d in Locate(s, c).value.0.decodes && d == DecodeOf(c, ReturnOf(s, c), x.decoding)
    requires Locate(s, c).value.0.accepted.None? && Acceptable(s, Locate(s, c).value.0, d)
    ensures RunAll(sys, moves) == Some(end) && OnlyCalls(moves, c) && !Still(sys.ledger, end.ledger, c)
  {
    hide Fold, RunAll, Locate, FreshResult, Still, Acceptable, FindBy, Decide;
    NoMoves(sys);
    SameLedger(sys.ledger);
    var s1, m1 := StepRun(sys, [], Run(i, x));
    DecodedIfAcceptable(s, c, d);
    KnownIsAccepted(sys.ledger, s, c, d, x);
    assert s1.processes[i].pc == Reading(Accepting, AcceptCommand(c, d.id, x.acceptedAt), 0);
    var m2;
    m2, end := AcceptanceLands(s1, i, s, c, d, x);
    RunAllSplits(sys, m1, m2);
    moves := m1 + m2;
  }

  lemma KnownIsAccepted(ledger: seq<Event>, s: Inquiry, c: Call, d: Decode, x: Answers)
    requires Current(ledger, s) && c.inquiryId == s.id && c.accept && Returning(s, c)
    requires d in Locate(s, c).value.0.decodes && d == DecodeOf(c, ReturnOf(s, c), x.decoding) && d.Decoded?
    ensures Read(ledger, c, Recording(d.id), DecodeCommand(c, ReturnOf(s, c), x.decoding, x.decodedAt), 0, x)
         == Reading(Accepting, AcceptCommand(c, d.id, x.acceptedAt), 0)
  {
    hide Fold, Lifecycle, Flatten, RequestRules;
    LedgerSound(ledger, s);
    SoundRules(s);
    var r := Locate(s, c).value.0;
    RulesOf(s, r);
    RequestFound(s, r);
    DecodeFound(r, d);
    assert Recorded(s, RecordDecode(c.requestId, d));
    KnownMeansRecorded(s, RecordDecode(c.requestId, d));
  }

  /** On a ledger that is not sealed, the pending call or a new one appends something else. */
  lemma PendingDisturbs(sys: System, i: nat, s: Inquiry, c: Call, x: Answers) returns (moves: seq<Move>, end: System)
    requires Current(sys.ledger, s) && c.inquiryId == s.id && c.accept && Returning(s, c) && Serves(s, c) && x.valid
    requires Pending(sys, i, s, c, x) && x.decoding == Semantic(OwnBody(s, c)) && !Sealed(s, c)
    ensures RunAll(sys, moves) == Some(end) && OnlyCalls(moves, c) && !Still(sys.ledger, end.ledger, c)
  {
    hide Fold, RunAll, Locate, FreshResult, Still, FindBy, Pending, DecodeTaken, Serves, OwnBody, Usable, Acceptable;
    LocatedHas(s, c);
    var (r, a) := Locate(s, c).value;
    if !DecodeTaken(s, a, ReturnOf(s, c)) {
      var e;
      moves, end, e := LateDecodeLands(sys, i, s, c, x);
    } else {
      var d :| d in r.decodes && Usable(r, a, d) && Acceptable(s, r, d) by { Unsealed(s, c); }
      DecodedIfAcceptable(s, c, d);
      OwnOrFirst(sys.ledger, s, c, d);
      if FindBy(r.decodes, ReadsReturn, ReturnOf(s, c)) == Some(d) {
        moves, end := FirstReaderLands(sys, s, c, d, x);
      } else {
        moves, end := OwnDecodeLands(sys, i, s, c, d, x);
      }
    }
  }

  lemma Unsealed(s: Inquiry, c: Call)
    requires Returning(s, c) && !Sealed(s, c) && DecodeTaken(s, Locate(s, c).value.1, ReturnOf(s, c))
    ensures var (r, a) := Locate(s, c).value;
      r.accepted.None? && exists d :: d in r.decodes && Usable(r, a, d) && Acceptable(s, r, d)
  {
    hide Locate, FreshResult, Usable, DecodeTaken;
  }

  lemma OwnOrFirst(ledger: seq<Event>, s: Inquiry, c: Call, d: Decode)
    requires Current(ledger, s) && Returning(s, c) && d in Locate(s, c).value.0.decodes && d.Decoded?
    requires Usable(Locate(s, c).value.0, Locate(s, c).value.1, d)
    ensures FindBy(Locate(s, c).value.0.decodes, ReadsReturn, ReturnOf(s, c)) == Some(d)
         || d == DecodeOf(c, ReturnOf(s, c), Semantic(OwnBody(s, c)))
  {
    hide Fold, Lifecycle, Locate, Flatten, RequestRules;
    LedgerSound(ledger, s);
    var r := Locate(s, c).value.0;
    RulesOf(s, r);
    DecodeFound(r, d);
  }

  // ------------------------------------------------------------ sealed is exactly quiet

  /** After this run to the ledger, with any calls for the attempt in flight, these further moves of
      calls for it leave the ledger still. */
  ghost predicate QuietRun(ledger: seq<Event>, c: Call, past: seq<Move>, later: seq<Move>) {
    var sys := RunAll(NOTHING, past);
    sys.Some? && sys.value.ledger == ledger && AllFor(sys.value, c) && OnlyCalls(later, c) ==>
      var end := RunAll(sys.value, later);
      end.Some? ==> Still(ledger, end.value.ledger, c)
  }

  ghost predicate Quiet(ledger: seq<Event>, c: Call) { forall past, later :: QuietRun(ledger, c, past, later) }

  lemma SealedIsQuiet(ledger: seq<Event>, s: Inquiry, c: Call, past: seq<Move>, later: seq<Move>)
    requires Current(ledger, s) && Sealed(s, c)
    ensures QuietRun(ledger, c, past, later)
  {
    hide Fold, RunAll, Sealed, AllFor, OnlyCalls, Refusal, SystemInvariant, RefusalOpen;
    var sys := RunAll(NOTHING, past);
    if sys.Some? && sys.value.ledger == ledger && AllFor(sys.value, c) && OnlyCalls(later, c) {
      Invariant(past, sys.value);
      var end := RunAll(sys.value, later);
      if end.Some? { SealedAppendsARefusalAtMost(sys.value, s, c, later, end.value); }
    }
  }

  lemma EndedIsSealed(ledger: seq<Event>, s: Inquiry, c: Call)
    requires Current(ledger, s) && Locate(s, c).Some? && Locate(s, c).value.1.outcome.Some?
    ensures Locate(s, c).value.1.start.Some?
    ensures !Locate(s, c).value.1.outcome.value.Returned? ==> Sealed(s, c) && Sealable(s, c)
  {
    hide Fold, Sound, Locate;
    LedgerSoundHere(ledger, s);
    AttemptRulesOf(s, Locate(s, c).value.0, Locate(s, c).value.1);
  }

  /** An answer under which the pending call would write exactly what is recorded, if anything. */
  function Disturbing(s: Inquiry, c: Call, x: Answers): Answers
    requires Returning(s, c)
  {
    x.(valid := true, preflight := Supported, decoding := Semantic(OwnBody(s, c)))
  }

  /** For an ended attempt, sealed is exactly the ledgers on which calls for the attempt, in flight in
      any run to it or newly begun, append nothing but one refusal. */
  lemma SealedIffQuiet(ledger: seq<Event>, s: Inquiry, c: Call)
    requires Current(ledger, s) && c.inquiryId == s.id && Serves(s, c) && Locate(s, c).value.1.outcome.Some?
    ensures Sealed(s, c) <==> Quiet(ledger, c)
  {
    hide Fold, RunAll, Locate, Sealed, Serves, QuietRun, OwnBody, Sealable;
    if Sealed(s, c) {
      forall past, later ensures QuietRun(ledger, c, past, later) { SealedIsQuiet(ledger, s, c, past, later); }
    } else {
      var b := c.(accept := true);
      ServedBy(ledger, s, c, b);
      var x := Disturbing(s, b, Answers(true, 0, 0, 0, 0, Supported, Bytes(Text(0)), Semantic(Text(0))));
      var past, sys := PendingRun(ledger, s, b, x);
      var later, end := PendingDisturbs(sys, 0, s, b, x);
      SameStill(ledger, end.ledger, c, b);
      LoudRun(ledger, c, b, past, sys, later, end);
    }
  }

  lemma ServedBy(ledger: seq<Event>, s: Inquiry, c: Call, b: Call)
    requires Current(ledger, s) && Serves(s, c) && b == c.(accept := b.accept) && Locate(s, c).value.1.outcome.Some?
    requires !Sealed(s, c)
    ensures Serves(s, b) && Returning(s, b) && !Sealed(s, b)
  {
    hide Fold, FindBy, DecodeTaken, NoneAcceptable;
    EndedIsSealed(ledger, s, c);
    SameCallViews(s, c, b, StartAttempt(c.attemptId));
  }

  lemma SameStill(before: seq<Event>, after: seq<Event>, c: Call, b: Call)
    requires SameAttemptCall(b, c)
    ensures Still(before, after, b) <==> Still(before, after, c)
  {}

  lemma LoudRun(ledger: seq<Event>, c: Call, b: Call, past: seq<Move>, sys: System, later: seq<Move>, end: System)
    requires b == c.(accept := b.accept) && RunAll(NOTHING, past) == Some(sys) && sys.ledger == ledger
    requires |sys.processes| == 1 && sys.processes[0].call == b
    requires OnlyCalls(later, b) && RunAll(sys, later) == Some(end) && !Still(ledger, end.ledger, c)
    ensures !QuietRun(ledger, c, past, later)
  {
    hide RunAll, Still;
  }

  // ------------------------------------------------------------ the accepting call

  /** The call begins and then moves alone. */
  predicate Alone(call: seq<Move>, n: nat, c: Call, x: Answers) {
    call != [] && call[0] == Spawn(c) && forall m :: m in call[1..] ==> m == Run(n, x)
  }

  /** After this run to the ledger, one call alone to its end and these further moves of calls for the
      attempt, in flight or new, the ledger is as the call left it, or one refusal longer. */
  ghost predicate QuietRunAfter(
    ledger: seq<Event>, c: Call, x: Answers, past: seq<Move>, call: seq<Move>, later: seq<Move>)
  {
    var sys := RunAll(NOTHING, past);
    (sys.Some? && sys.value.ledger == ledger && AllFor(sys.value, c) && OnlyCalls(later, c)
     && Alone(call, |sys.value.processes|, c, x)) ==>
      var mid := RunAll(sys.value, call);
      (mid.Some? && |mid.value.processes| > |sys.value.processes|
       && Halted(mid.value.processes[|sys.value.processes|].pc)) ==>
        var end := RunAll(mid.value, later);
        end.Some? ==> Still(mid.value.ledger, end.value.ledger, c)
  }

  ghost predicate QuietAfter(ledger: seq<Event>, c: Call, x: Answers) {
    forall past, call, later :: QuietRunAfter(ledger, c, x, past, call, later)
  }

  /** A process that moves alone to its end does what the lone call does. */
  lemma {:induction false} AloneDrives(sys: System, n: nat, x: Answers, moves: seq<Move>, end: System)
    requires n < |sys.processes| && (forall m :: m in moves ==> m == Run(n, x)) && RunAll(sys, moves) == Some(end)
    ensures |end.processes| == |sys.processes|
    ensures Halted(end.processes[n].pc) ==>
      end.ledger == Drive(sys.ledger, [], sys.processes[n].call, sys.processes[n].pc, x).ledger
    decreases moves
  {
    hide Next, Drive;
    var p := sys.processes[n];
    if moves == [] {
      if Halted(p.pc) { HaltedDrive(sys.ledger, p.call, p.pc, x); }
    } else {
      assert moves[0] in moves && forall m :: m in moves[1..] ==> m in moves;
      var next := RunProcess(sys, n, x);
      assert Apply(sys, moves[0]) == Some(next);
      AloneDrives(next, n, x, moves[1..], end);
      if Halted(p.pc) {
        HaltedStays(sys.ledger, p.call, p.pc, x);
        SameLedger(sys.ledger);
      } else {
        DriveAlone(sys.ledger, p.call, p.pc, x);
      }
    }
  }

  lemma HaltedStays(ledger: seq<Event>, c: Call, pc: Pc, x: Answers)
    requires Halted(pc)
    ensures Next(ledger, c, pc, x) == Progress(pc, [])
  {}

  lemma {:induction false} DriveHalts(ledger: seq<Event>, c: Call, pc: Pc, x: Answers)
    ensures Halted(Drive(ledger, [], c, pc, x).pc)
    decreases Remaining(pc)
  {
    hide Next, Remaining;
    if !Halted(pc) {
      NextFalls(ledger, c, pc, x);
      DriveAlone(ledger, c, pc, x);
      var p := Next(ledger, c, pc, x);
      DriveHalts(ledger + p.appended, c, p.pc, x);
    }
  }

  lemma {:induction false} RunsStayFor(sys: System, c: Call, moves: seq<Move>, end: System)
    requires AllFor(sys, c) && OnlyCalls(moves, c) && RunAll(sys, moves) == Some(end)
    ensures AllFor(end, c) && sys.ledger <= end.ledger
    decreases moves
  {
    hide AllFor, SameAttemptCall;
    if moves != [] {
      var next := Apply(sys, moves[0]).value;
      assert moves[0] in moves;
      StaysFor(sys, c, moves[0], next);
      LedgerOnlyGrows(sys, moves[0], next);
      RunsStayFor(next, c, moves[1..], end);
    }
  }

  lemma AloneIsOnlyCalls(call: seq<Move>, n: nat, c: Call, x: Answers)
    requires Alone(call, n, c, x)
    ensures OnlyCalls(call, c)
  {
    assert call == [call[0]] + call[1..];
  }

  lemma SealableIsQuiet(
    ledger: seq<Event>, s: Inquiry, c: Call, x: Answers, past: seq<Move>, call: seq<Move>, later: seq<Move>)
    requires Current(ledger, s) && c.inquiryId == s.id && c.accept && Sealable(s, c)
    requires !Begin(s, c, x.valid).Raised?
    ensures QuietRunAfter(ledger, c, x, past, call, later)
  {
    hide Fold, RunAll, Sealed, AllFor, OnlyCalls, Refusal, SystemInvariant, RefusalOpen, Begin, Drive, Sealable, Locate;
    var first := RunAll(NOTHING, past);
    if first.Some? && first.value.ledger == ledger && AllFor(first.value, c) && OnlyCalls(later, c)
       && Alone(call, |first.value.processes|, c, x)
    {
      var sys := first.value;
      var n := |sys.processes|;
      var second := RunAll(sys, call);
      if second.Some? && |second.value.processes| > n && Halted(second.value.processes[n].pc) {
        var mid := second.value;
        AloneLedger(sys, c, x, call, mid);
        SealableEnded(s, c);
        var t := AcceptingCallSealsIff(ledger, s, c, x);
        AloneIsOnlyCalls(call, n, c, x);
        RunsStayFor(sys, c, call, mid);
        RunAllSplits(NOTHING, past, call);
        Invariant(past + call, mid);
        var end := RunAll(mid, later);
        if end.Some? { SealedAppendsARefusalAtMost(mid, t, c, later, end.value); }
      }
    }
  }

  lemma SealableEnded(s: Inquiry, c: Call)
    requires Sealable(s, c)
    ensures Locate(s, c).Some? && Locate(s, c).value.1.outcome.Some?
  {
    hide Locate;
  }

  lemma AloneLedger(sys: System, c: Call, x: Answers, call: seq<Move>, mid: System)
    requires Alone(call, |sys.processes|, c, x) && RunAll(sys, call) == Some(mid)
    requires |mid.processes| > |sys.processes| && Halted(mid.processes[|sys.processes|].pc)
    ensures mid.ledger == Drive(sys.ledger, [], c, Entry, x).ledger
  {
    hide Drive, RunProcess;
    var next := Apply(sys, call[0]).value;
    AloneDrives(next, |sys.processes|, x, call[1..], mid);
  }

  /** The exact condition. Let any run lead to a ledger on which the attempt has ended, with any calls
      for it in flight, and let one accepting call then run alone to its end. Whatever the calls in
      flight and later ones do next, they append at most one refused-preflight disposition, in all
      such runs if and only if the attempt was sealable. */
  lemma InFlightCallsAddAtMostARefusalIff(ledger: seq<Event>, s: Inquiry, c: Call, x: Answers)
    requires Current(ledger, s) && c.inquiryId == s.id && c.accept
    requires Locate(s, c).Some? && Locate(s, c).value.1.outcome.Some? && !Begin(s, c, x.valid).Raised?
    ensures QuietAfter(ledger, c, x) <==> Sealable(s, c)
  {
    hide Fold, RunAll, Locate, Begin, Sealable, QuietRunAfter;
    if Sealable(s, c) {
      forall past, call, later ensures QuietRunAfter(ledger, c, x, past, call, later) {
        SealableIsQuiet(ledger, s, c, x, past, call, later);
      }
    } else {
      var past, call, later := UnsealableRun(ledger, s, c, x);
    }
  }

  lemma BeginServes(ledger: seq<Event>, s: Inquiry, c: Call, valid: bool)
    requires Current(ledger, s) && Locate(s, c).Some? && Locate(s, c).value.1.outcome.Some?
    requires !Begin(s, c, valid).Raised? && !Sealable(s, c)
    ensures Serves(s, c) && Returning(s, c)
  {
    hide Fold, Locate, Sealable;
    EndedIsSealed(ledger, s, c);
  }

  lemma ReturningMoves(s: Inquiry, t: Inquiry, c: Call)
    requires Moves(s, t) && Sound(s) && Sound(t) && Returning(s, c) && Serves(s, c)
    ensures Returning(t, c) && Serves(t, c) && ReturnOf(t, c) == ReturnOf(s, c) && t.id == s.id
  {
    hide Sound, Locate;
    LocateMoves(s, t, c) by { hide Moves; }
  }

  /** A run in which the call leaves an unsealed ledger while an earlier one is about to decode. */
  lemma UnsealableRun(ledger: seq<Event>, s: Inquiry, c: Call, x: Answers)
    returns (past: seq<Move>, call: seq<Move>, later: seq<Move>)
    requires Current(ledger, s) && c.inquiryId == s.id && c.accept && !Sealable(s, c)
    requires Locate(s, c).Some? && Locate(s, c).value.1.outcome.Some? && !Begin(s, c, x.valid).Raised?
    ensures !QuietRunAfter(ledger, c, x, past, call, later)
  {
    hide Fold, RunAll, Locate, Begin, Sealable, Serves, Drive, OwnBody, Sealed, Still, Moves, Sound, SameAttemptCall;
    BeginServes(ledger, s, c, x.valid);
    var t := AcceptingCallSealsIff(ledger, s, c, x);
    DriveGrows(ledger, c, x);
    assert Drive(ledger, [], c, Entry, x).ledger[..|ledger|] == ledger;
    var u := FoldedBefore(Drive(ledger, [], c, Entry, x).ledger, |ledger|, s);
    ReturningMoves(s, t, c);
    var y := Disturbing(t, c, x);
    var sys;
    past, sys := PendingRun(ledger, s, c, y);
    var mid;
    call, mid := CallAlone(sys, c, x);
    assert Pending(mid, 0, t, c, y);
    var end;
    later, end := PendingDisturbs(mid, 0, t, c, y);
    OneIsAllFor(sys, c);
  }

  lemma OneIsAllFor(sys: System, c: Call)
    requires |sys.processes| == 1 && sys.processes[0].call == c
    ensures AllFor(sys, c)
  {}

  lemma DriveGrows(ledger: seq<Event>, c: Call, x: Answers)
    ensures ledger <= Drive(ledger, [], c, Entry, x).ledger
  {
    hide RunAll, Drive;
    var sys := NOTHING.(ledger := ledger, processes := [Process(c, Entry, 0)]);
    var moves := CallIsARun(sys, 0, [], x);
    RunsStayFor(sys, c, moves, RunAll(sys, moves).value) by { OneIsAllFor(sys, c); }
  }

  lemma CallAlone(sys: System, c: Call, x: Answers) returns (call: seq<Move>, mid: System)
    ensures var n := |sys.processes|;
      && Alone(call, n, c, x) && RunAll(sys, call) == Some(mid)
      && |mid.processes| == n + 1 && mid.processes[..n] == sys.processes && Halted(mid.processes[n].pc)
      && mid.ledger == Drive(sys.ledger, [], c, Entry, x).ledger
  {
    hide RunAll, Drive;
    OneMove(sys, Spawn(c));
    var next := Apply(sys, Spawn(c)).value;
    var moves := CallIsARun(next, |sys.processes|, [], x);
    RunAllSplits(sys, [Spawn(c)], moves);
    call, mid := [Spawn(c)] + moves, RunAll(next, moves).value;
    DriveHalts(sys.ledger, c, Entry, x);
    assert call[1..] == moves;
  }
}
