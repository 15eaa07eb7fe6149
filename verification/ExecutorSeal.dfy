/** What calls still in flight can append once one accepting call has run: at most the disposition
    of a refused preflight, and nothing when the request is accepted. */
module ExecutorSeal {
  import opened Sequences
  import opened InquiryModel
  import opened Transitions
  import opened EffectLifecycle
  import opened EffectLedger
  import opened EffectAgreement
  import opened EffectExecutor
  import opened ExecutorSafety
  import opened ExecutorRuns
  import opened ExecutorCalls
  import opened ExecutorSettlement
  import opened ExecutorCompletion

  // ------------------------------------------------------------ sealed attempts

  /** The executor's own decode of the attempt's return is recorded, or its identity taken. */
  predicate DecodeTaken(s: Inquiry, a: Attempt, returnId: Id) {
    FindBy(Flatten(s.requests, Decodes), DecodeId, DecodeIdOf(returnId, a.plan.route.adapterVersion)).Some?
  }

  /** No decode that calls use can be accepted. */
  predicate NoneAcceptable(s: Inquiry, r: RequestState, a: Attempt) {
    forall d :: d in r.decodes && Usable(r, a, d) && d.Decoded? ==> !FreshResult(s, r, d.id)
  }

  /** The attempt is over, its decode identity is taken, and its request is accepted or cannot be
      accepted by a decode that calls use. */
  predicate Sealed(s: Inquiry, c: Call) {
    Locate(s, c).Some? && var (r, a) := Locate(s, c).value;
      && a.start.Some? && a.outcome.Some?
      && (a.outcome.value.Returned? ==>
            DecodeTaken(s, a, a.outcome.value.external.id) && (r.accepted.Some? || NoneAcceptable(s, r, a)))
  }

  /** A refusal of this attempt can still be recorded. */
  predicate RefusalOpen(s: Inquiry, c: Call) {
    Locate(s, c).Some? && Locate(s, c).value.0.accepted.None?
    && FindBy(Flatten(s.requests, NoAttempts), NoAttemptId, RefusalIdOf(c.attemptId)).None?
  }

  lemma AcceptNotReduced(ledger: seq<Event>, s: Inquiry, c: Call, command: Command)
    requires Current(ledger, s) && Sealed(s, c) && Fits(s, c, command.action) && command.action.AcceptResult?
    ensures Judge(s, command.action).Fresh? ==> !ReducerAdds(s, command.action)
  {
    hide Fold, Flatten, Locate, Lifecycle, RequestRules, FreshResult, DecodeTaken;
    LedgerSound(ledger, s);
    var (r, a) := Locate(s, c).value;
    SoundRules(s);
    RulesOf(s, r);
    RequestFound(s, r);
    var d :| d in r.decodes && Usable(r, a, d) && d.id == command.action.decodeId;
    DecodeFound(r, d);
  }

  lemma SealedIsNotFresh(ledger: seq<Event>, s: Inquiry, c: Call, a: Action)
    requires Current(ledger, s) && Sealed(s, c) && Fits(s, c, a) && !a.AcceptResult? && Judge(s, a).Fresh?
    ensures a.RecordNoAttempt? && a.noAttempt.id == RefusalIdOf(c.attemptId) && RefusalOpen(s, c)
  {
    hide Fold, Flatten, Lifecycle, RequestRules, NoneAcceptable, Captured;
    LedgerSound(ledger, s);
    SoundRules(s);
    var (r, x) := Locate(s, c).value;
    RequestFound(s, r);
    if a.StartAttempt? {
      var h := Containing(s.requests, c.attemptId);
      SameAttempt(s, r, x, h.value, FindBy(h.value.attempts, AttemptId, c.attemptId).value);
    }
  }

  /** On a sealed attempt the reducer accepts no command of a call but an open refusal. */
  lemma SealedRefuses(ledger: seq<Event>, s: Inquiry, c: Call, e: Event)
    requires Current(ledger, s) && Sealed(s, c) && Fits(s, c, e.command.action) && e.command.action.Effect()
    requires Evolve(Active(s), e).Some?
    ensures e.command.action.RecordNoAttempt? && RefusalOpen(s, c)
    ensures e.command.action.noAttempt.id == RefusalIdOf(c.attemptId)
  {
    hide Fold, Judge, ReducerAdds, Sealed, RefusalOpen, Locate, Evolve;
    var plain := Event(e.command, [], []);
    EffectsIgnoreBundles(s, e);
    FitsNoRequest(s, c, e.command.action);
    ReducedDecisionsAreFresh(ledger, s, e.command);
    OwnInquiry(s, plain);
    FreshDecisionsReduce(ledger, s, e.command);
    if e.command.action.AcceptResult? {
      AcceptNotReduced(ledger, s, c, e.command);
    } else {
      SealedIsNotFresh(ledger, s, c, e.command.action);
    }
  }

  lemma EffectsIgnoreBundles(s: Inquiry, e: Event)
    requires e.command.action.Effect()
    ensures Evolve(Active(s), e) == Evolve(Active(s), Event(e.command, [], []))
  {
    hide Lifecycle, EffectStep;
  }

  lemma FitsNoRequest(s: Inquiry, c: Call, a: Action)
    requires Fits(s, c, a)
    ensures !a.RequestEffect? && NamesReadyPlan(s, a)
  {}

  lemma OwnInquiry(s: Inquiry, e: Event)
    requires Evolve(Active(s), e).Some?
    ensures e.command.inquiryId == s.id
  {}

  lemma {:induction false} FlattenKept<T>(rs: seq<RequestState>, i: nat, q: RequestState, part: RequestState -> seq<T>)
    requires i < |rs| && part(q) == part(rs[i])
    ensures Flatten(rs[i := q], part) == Flatten(rs, part)
  {
    if i == 0 {
      assert rs[0 := q][1..] == rs[1..];
    } else {
      assert rs[i := q][1..] == rs[1..][i - 1 := q];
      FlattenKept(rs[1..], i - 1, q, part);
    }
  }

  /** A recorded refusal leaves the attempt sealed and closes the refusal. */
  lemma RefusalKeepsSealed(s: Inquiry, c: Call, e: Event, t: Inquiry)
    requires Sound(s) && Sealed(s, c) && Fits(s, c, e.command.action) && e.command.action.RecordNoAttempt?
    requires Evolve(Active(s), e) == Some(Active(t))
    ensures Sealed(t, c) && !RefusalOpen(t, c)
  {
    hide Lifecycle, Evolve, Locate, Flatten, RequestRules, FindBy, Moves, Recorded, Sealed, RefusalOpen;
    LocatedHas(s, c);
    RefusalTarget(s, c, e.command.action);
    var i, q := AdvancesLocated(s, c, e, t);
    EvolveSound(s, e, t);
    LocateMoves(s, t, c);
    OnlyRefusals(s, s.requests[i], e.command);
    FlattenKept(s.requests, i, q, Decodes);
    FlattenKept(s.requests, i, q, AcceptedResult);
    SealedAlike(s, t, c);
    AppliedIsRecorded(s, e, t);
    RefusalRecorded(t, c, e.command.action);
  }

  lemma RefusalTarget(s: Inquiry, c: Call, a: Action)
    requires Locate(s, c).Some? && a.RecordNoAttempt? && Fits(s, c, a)
    ensures Target(s, a) == Some(Locate(s, c).value.0)
  {
    hide Flatten;
  }

  lemma OnlyRefusals(s: Inquiry, r: RequestState, c: Command)
    requires c.action.RecordNoAttempt? && Advance(s, r, c).Some?
    ensures var q := Advance(s, r, c).value;
      q.attempts == r.attempts && q.decodes == r.decodes && q.accepted == r.accepted
        && AcceptedResult(q) == AcceptedResult(r)
  {
    hide FindBy, Flatten;
  }

  lemma SealedAlike(s: Inquiry, t: Inquiry, c: Call)
    requires Sealed(s, c) && Locate(t, c).Some?
    requires AttemptMoves(Locate(s, c).value.1, Locate(t, c).value.1)
    requires Locate(t, c).value.0.decodes == Locate(s, c).value.0.decodes
    requires Locate(t, c).value.0.accepted == Locate(s, c).value.0.accepted
    requires Flatten(t.requests, Decodes) == Flatten(s.requests, Decodes)
    requires Flatten(t.requests, AcceptedResult) == Flatten(s.requests, AcceptedResult)
    ensures Sealed(t, c)
  {
    hide Locate, Flatten, FindBy;
    var (r, a) := Locate(s, c).value;
    var (q, b) := Locate(t, c).value;
    assert forall id :: FreshResult(t, q, id) == FreshResult(s, r, id);
    assert forall d :: Usable(q, b, d) ==> Usable(r, a, d);
  }

  lemma RefusalRecorded(t: Inquiry, c: Call, a: Action)
    requires a.RecordNoAttempt? && a.noAttempt.id == RefusalIdOf(c.attemptId) && Recorded(t, a)
    ensures !RefusalOpen(t, c)
  {
    hide Locate;
    var h :| h in t.requests && Holds(h, a);
    FlattenHas(t.requests, NoAttempts, a.noAttempt);
  }

  // ------------------------------------------------------------ moves on a sealed attempt

  predicate AllFor(sys: System, c: Call) {
    forall i :: 0 <= i < |sys.processes| ==> SameAttemptCall(sys.processes[i].call, c)
  }

  lemma SameCallViews(s: Inquiry, c: Call, b: Call, a: Action)
    requires SameAttemptCall(b, c)
    ensures Locate(s, b) == Locate(s, c) && (Sealed(s, b) <==> Sealed(s, c))
    ensures (RefusalOpen(s, b) <==> RefusalOpen(s, c))
  {}

  /** What one move of a call appends. */
  lemma AppendedByRun(sys: System, i: nat, x: Answers, s: Inquiry, c: Call) returns (t: Inquiry)
    requires SystemInvariant(sys) && i < |sys.processes| && SameAttemptCall(sys.processes[i].call, c)
    requires Current(sys.ledger, s) && Sealed(s, c)
    ensures var next := RunProcess(sys, i, x);
      && Current(next.ledger, t) && Sealed(t, c)
      && ((next.ledger == sys.ledger && t == s)
          || (RefusalOpen(s, c) && !RefusalOpen(t, c) && exists e :: next.ledger == sys.ledger + [e] && Refusal(e, c)))
  {
    hide Sealed, RefusalOpen, Fold, Evolve, Locate, Fits, Read, Resume, Begin, Perform, Interpret, InvocationGood,
      AuthorGood;
    var p := sys.processes[i];
    SameLedger(sys.ledger);
    if p.pc.Committing? && |sys.ledger| == p.pc.expected {
      var e := p.pc.event;
      assert sys.ledger[..p.pc.expected] == sys.ledger;
      FoldLast(Unstarted, sys.ledger, e);
      assert Fits(s, p.call, e.command.action);
      SameCallViews(s, c, p.call, e.command.action);
      SealedRefuses(sys.ledger, s, p.call, e);
      LedgerSoundHere(sys.ledger, s);
      t := p.pc.next;
      RefusalKeepsSealed(s, p.call, e, t);
      SameCallViews(t, c, p.call, e.command.action);
      assert Refusal(e, c);
    } else {
      t := s;
    }
  }

  /** The event records the refusal of the call's attempt. */
  predicate Refusal(e: Event, c: Call) {
    e.command.action.RecordNoAttempt? && e.command.action.noAttempt.id == RefusalIdOf(c.attemptId)
  }

  /** From any reachable system whose attempt is sealed, calls for it, in flight or newly begun,
      interleaved or crashing, append nothing but at most one refusal, and nothing at all once the
      request is accepted or the refusal is recorded. */
  lemma {:induction false} SealedAppendsARefusalAtMost(sys: System, s: Inquiry, c: Call, moves: seq<Move>, end: System)
    requires SystemInvariant(sys) && Current(sys.ledger, s) && Sealed(s, c) && AllFor(sys, c)
    requires OnlyCalls(moves, c) && RunAll(sys, moves) == Some(end)
    ensures end.ledger == sys.ledger
         || (RefusalOpen(s, c) && exists e :: end.ledger == sys.ledger + [e] && Refusal(e, c))
    decreases moves
  {
    hide SystemInvariant, Current, Sealed, RefusalOpen, SameAttemptCall, Refusal, RunProcess;
    if moves != [] {
      var m := moves[0];
      var next := Apply(sys, m).value;
      ApplyKeeps(sys, m, next);
      var t := s;
      if m.Run? { t := AppendedByRun(sys, m.process, m.answers, s, c); }
      StaysFor(sys, c, m, next);
      SealedAppendsARefusalAtMost(next, t, c, moves[1..], end);
    }
  }

  lemma StaysFor(sys: System, c: Call, m: Move, next: System)
    requires AllFor(sys, c) && Apply(sys, m) == Some(next) && (m.Spawn? ==> SameAttemptCall(m.call, c))
    ensures AllFor(next, c)
  {
    hide SameAttemptCall, Next, Fold;
  }

  // ------------------------------------------------------------ accepted and sealed is for good

  /** The request is accepted and the attempt sealed. */
  predicate Shut(s: Inquiry, c: Call) { Sealed(s, c) && Locate(s, c).value.0.accepted.Some? }

  lemma ItemKept(s: Inquiry, t: Inquiry, id: Id)
    requires Moves(s, t) && FindBy(Flatten(s.requests, Decodes), DecodeId, id).Some?
    ensures FindBy(Flatten(t.requests, Decodes), DecodeId, id).Some?
  {
    hide Moves;
    var d := FindBy(Flatten(s.requests, Decodes), DecodeId, id).value;
    FlattenHas(s.requests, Decodes, d);
    var i :| 0 <= i < |s.requests| && d in Decodes(s.requests[i]);
    var q := RequestKept(s, t, s.requests[i]);
    var j :| 0 <= j < |t.requests| && t.requests[j] == q;
    FlattenHas(t.requests, Decodes, d);
  }

  lemma ShutMoves(s: Inquiry, t: Inquiry, c: Call)
    requires Moves(s, t) && Sound(s) && Sound(t) && Shut(s, c)
    ensures Shut(t, c) && !RefusalOpen(t, c)
  {
    hide Moves, Sound, Locate, FindBy, Flatten;
    LocateMoves(s, t, c);
    var a := Locate(s, c).value.1;
    if a.outcome.value.Returned? {
      ItemKept(s, t, DecodeIdOf(a.outcome.value.external.id, a.plan.route.adapterVersion));
    }
  }

  /** What one move does to a shut attempt: nothing, whoever moves. */
  lemma ShutMove(sys: System, s: Inquiry, c: Call, m: Move, next: System) returns (t: Inquiry)
    requires SystemInvariant(sys) && Current(sys.ledger, s) && Shut(s, c) && Apply(sys, m) == Some(next)
    ensures SystemInvariant(next) && Current(next.ledger, t) && Shut(t, c)
    ensures sys.ledger <= next.ledger && sys.authors <= next.authors && |next.authors| == |next.ledger|
    ensures |sys.processes| <= |next.processes|
    ensures forall i :: 0 <= i < |sys.processes| ==> next.processes[i].call == sys.processes[i].call
    ensures forall k :: |sys.ledger| <= k < |next.ledger| ==> NotFor(next, c, k)
  {
    hide Sealed, Next, Fold, PcGood, InvocationGood, AuthorGood, RefusalOpen, SameAttemptCall, Replays;
    ApplyKeeps(sys, m, next);
    t := LaterAggregate(sys, s, next);
    ShutMoves(s, t, c);
    LedgerSoundHere(sys.ledger, s);
    ShutMoves(s, s, c) by { SameMoves(s); }
    if m.Run? && SameAttemptCall(sys.processes[m.process].call, c) {
      var u := AppendedByRun(sys, m.process, m.answers, s, c);
    }
  }

  lemma SameMoves(s: Inquiry)
    ensures Moves(s, s)
  {}

  lemma LaterAggregate(sys: System, s: Inquiry, next: System) returns (t: Inquiry)
    requires Current(sys.ledger, s) && sys.ledger <= next.ledger && Replays(next.ledger)
    ensures Current(next.ledger, t) && Moves(s, t) && Sound(s) && Sound(t)
  {
    hide Fold, Moves, Sound;
    assert next.ledger[..|sys.ledger|] == sys.ledger;
    t := FoldedBefore(next.ledger, |sys.ledger|, s);
  }

  /** The event was not written by a call for the attempt. */
  predicate NotFor(sys: System, c: Call, k: nat)
    requires k < |sys.authors|
  {
    sys.authors[k].Some? ==>
      var p := sys.authors[k].value; p < |sys.processes| && !SameAttemptCall(sys.processes[p].call, c)
  }

  /** Once the request is accepted and the attempt sealed, no call for it authors another event, in
      any continuation: other writers and calls for other attempts may do what they like. */
  lemma {:induction false} ShutStaysSilent(sys: System, s: Inquiry, c: Call, moves: seq<Move>, end: System)
    requires SystemInvariant(sys) && Current(sys.ledger, s) && Shut(s, c) && RunAll(sys, moves) == Some(end)
    ensures sys.ledger <= end.ledger && sys.authors <= end.authors && |end.authors| == |end.ledger|
    ensures |sys.processes| <= |end.processes|
    ensures forall i :: 0 <= i < |sys.processes| ==> end.processes[i].call == sys.processes[i].call
    ensures forall k :: |sys.ledger| <= k < |end.ledger| ==> NotFor(end, c, k)
    decreases moves
  {
    hide PcGood, InvocationGood, AuthorGood, Current, Shut, Apply, SameAttemptCall;
    if moves != [] {
      var next := Apply(sys, moves[0]).value;
      var t := ShutMove(sys, s, c, moves[0], next);
      ShutStaysSilent(next, t, c, moves[1..], end);
      forall k | |sys.ledger| <= k < |end.ledger| ensures NotFor(end, c, k) {
        if k < |next.ledger| { assert NotFor(next, c, k); }
      }
    }
  }
}
