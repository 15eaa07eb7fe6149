/** What every run of the executors' system keeps, and the safety of the persisted protocol. */
module ExecutorSafety {
  import opened Sequences
  import opened InquiryModel
  import opened Transitions
  import opened EffectLifecycle
  import opened EffectLedger
  import opened EffectExecutor

  // ------------------------------------------------------------ invocations

  lemma StartedViewHasStart(ledger: seq<Event>, v: nat, view: Inquiry, c: Call)
    requires v <= |ledger| && Current(ledger[..v], view) && Locate(view, c).Some? && Locate(view, c).value.1.start.Some?
    ensures HasStart(ledger, c.attemptId, v)
  {
    hide Fold;
    var (r, a) := Locate(view, c).value;
    assert HoldsAt(r, StartAttempt(c.attemptId));
    var k := RecordedWasLogged(ledger[..v], view, r, StartAttempt(c.attemptId));
    assert ledger[..v][k] == ledger[k];
  }

  /** An attempt whose outcome was logged is ended in every later aggregate. */
  lemma OutcomeLoggedIsSeen(ledger: seq<Event>, v: nat, view: Inquiry, c: Call, k: nat)
    requires k < v <= |ledger| && Current(ledger[..v], view) && Locate(view, c).Some?
    requires ledger[k].command.action.RecordOutcome? && ledger[k].command.action.outcome.attemptId == c.attemptId
    ensures Locate(view, c).value.1.outcome == Some(ledger[k].command.action.outcome)
  {
    hide Fold, Sound, Locate;
    var action := ledger[k].command.action;
    assert ledger[..v][k] == ledger[k];
    LoggedIsRecorded(ledger[..v], view, k);
    LedgerSound(ledger[..v], view);
    EndedAttempt(view, c, action);
  }

  lemma EndedAttempt(s: Inquiry, c: Call, action: Action)
    requires Sound(s) && Locate(s, c).Some? && action.RecordOutcome? && action.outcome.attemptId == c.attemptId
    requires Recorded(s, action)
    ensures Locate(s, c).value.1.outcome == Some(action.outcome)
  {
    hide Lifecycle, Flatten, RequestRules, Locate;
    SoundRules(s);
    var h :| h in s.requests && Holds(h, action);
    var x :| x in h.attempts && Ends(x, action.outcome);
    SameAttempt(s, h, x, Locate(s, c).value.0, Locate(s, c).value.1);
  }

  lemma PerformingInvokes(ledger: seq<Event>, c: Call, began: nat, view: Inquiry)
    requires Replays(ledger) && began <= |ledger| && PcGood(ledger, c, began, Performing(view))
    ensures HasStart(ledger, c.attemptId, |ledger|) && !HasOutcome(ledger, c.attemptId, began)
  {
    hide Fold, Locate;
    var v :| began <= v <= |ledger| && Current(ledger[..v], view);
    StartedViewHasStart(ledger, v, view, c);
    forall k | 0 <= k < began
      ensures !(ledger[k].command.action.RecordOutcome? && ledger[k].command.action.outcome.attemptId == c.attemptId)
    {
      if ledger[k].command.action.RecordOutcome? && ledger[k].command.action.outcome.attemptId == c.attemptId {
        OutcomeLoggedIsSeen(ledger, v, view, c, k);
      }
    }
  }

  // ------------------------------------------------------------ every run of the system

  lemma InvocationGoodGrows(sys: System, next: System, v: Invocation)
    requires InvocationGood(sys, v) && sys.ledger <= next.ledger && |sys.processes| <= |next.processes|
    requires forall i :: 0 <= i < |sys.processes| ==>
        next.processes[i].call == sys.processes[i].call && next.processes[i].began == sys.processes[i].began
    ensures InvocationGood(next, v)
  {
    var id := sys.processes[v.process].call.attemptId;
    assert next.processes[v.process].call.attemptId == id;
    var k :| 0 <= k < v.at && sys.ledger[k].command.action == StartAttempt(id);
    assert next.ledger[k] == sys.ledger[k];
    forall j | 0 <= j < sys.processes[v.process].began ensures next.ledger[j] == sys.ledger[j] {}
  }

  lemma AuthorGoodGrows(sys: System, next: System, k: nat, more: seq<Event>)
    requires k < |sys.ledger| == |sys.authors| && AuthorGood(sys, k)
    requires next.ledger == sys.ledger + more && Replays(next.ledger) && |next.authors| == |next.ledger|
    requires next.authors[k] == sys.authors[k] && |sys.processes| <= |next.processes|
    requires forall i :: 0 <= i < |sys.processes| ==> next.processes[i].call == sys.processes[i].call
    ensures AuthorGood(next, k)
  {
    hide FitsNow, Replays;
    if sys.authors[k].Some? {
      FitsNowGrows(sys.ledger, more, sys.processes[sys.authors[k].value].call, sys.ledger[k].command);
    }
  }

  lemma EnvironmentKeeps(sys: System, e: Event, next: System)
    requires SystemInvariant(sys) && Apply(sys, Environment(e)) == Some(next)
    ensures SystemInvariant(next)
  {
    hide PcGood, AuthorGood, InvocationGood, Fold;
    forall i | 0 <= i < |next.processes|
      ensures next.processes[i].began <= |next.ledger|
      ensures PcGood(next.ledger, next.processes[i].call, next.processes[i].began, next.processes[i].pc)
    {
      var p := sys.processes[i];
      PcGoodGrows(sys.ledger, [e], p.call, p.began, p.pc);
    }
    forall v | v in next.invocations ensures InvocationGood(next, v) { InvocationGoodGrows(sys, next, v); }
    forall k | 0 <= k < |next.ledger| ensures AuthorGood(next, k) {
      if k < |sys.ledger| { AuthorGoodGrows(sys, next, k, [e]); } else { Unauthored(next, k); }
    }
  }

  lemma Unauthored(sys: System, k: nat)
    requires k < |sys.ledger| == |sys.authors| && sys.authors[k].None?
    ensures AuthorGood(sys, k)
  {}

  lemma QuietMoveKeeps(sys: System, next: System)
    requires SystemInvariant(sys)
    requires next.ledger == sys.ledger && next.authors == sys.authors && next.invocations == sys.invocations
    requires |sys.processes| <= |next.processes|
    requires forall i :: 0 <= i < |sys.processes| ==>
        next.processes[i].call == sys.processes[i].call && next.processes[i].began == sys.processes[i].began
    requires forall i :: 0 <= i < |next.processes| ==>
               (i < |sys.processes| && next.processes[i].pc == sys.processes[i].pc)
               || (next.processes[i].began <= |sys.ledger|
                   && (next.processes[i].pc.Entry? || next.processes[i].pc.Raised?))
    ensures SystemInvariant(next)
  {
    hide AuthorGood, InvocationGood, Replays;
    SameLedger(sys.ledger);
    forall i | 0 <= i < |next.processes|
      ensures next.processes[i].began <= |next.ledger|
      ensures PcGood(next.ledger, next.processes[i].call, next.processes[i].began, next.processes[i].pc)
    {
      if i < |sys.processes| && next.processes[i].pc == sys.processes[i].pc {
        assert next.processes[i] == sys.processes[i];
      }
    }
    forall v | v in next.invocations ensures InvocationGood(next, v) { InvocationGoodGrows(sys, next, v); }
    forall k | 0 <= k < |next.ledger| ensures AuthorGood(next, k) { AuthorGoodGrows(sys, next, k, []); }
  }

  lemma RunKeeps(sys: System, i: nat, x: Answers)
    requires SystemInvariant(sys) && i < |sys.processes|
    ensures SystemInvariant(RunProcess(sys, i, x))
  {
    hide PcGood, AuthorGood, InvocationGood, Next, FitsNow, Replays, HasStart, HasOutcome;
    var p := sys.processes[i];
    var next := RunProcess(sys, i, x);
    var progress := Next(sys.ledger, p.call, p.pc, x);
    NextGood(sys.ledger, p.call, p.began, p.pc, x);
    forall j | 0 <= j < |next.processes|
      ensures next.processes[j].began <= |next.ledger|
      ensures PcGood(next.ledger, next.processes[j].call, next.processes[j].began, next.processes[j].pc)
    {
      if j != i {
        var q := sys.processes[j];
        PcGoodGrows(sys.ledger, progress.appended, q.call, q.began, q.pc);
      }
    }
    forall v | v in next.invocations ensures InvocationGood(next, v) {
      if v in sys.invocations {
        InvocationGoodGrows(sys, next, v);
      } else {
        NewInvocation(sys, i, x, v);
      }
    }
    forall k | 0 <= k < |next.ledger| ensures AuthorGood(next, k) {
      if k < |sys.ledger| {
        AuthorGoodGrows(sys, next, k, progress.appended);
      } else {
        NewAuthor(sys, i, x, k);
      }
    }
  }

  lemma NewInvocation(sys: System, i: nat, x: Answers, v: Invocation)
    requires SystemInvariant(sys) && i < |sys.processes| && sys.processes[i].pc.Performing?
    requires v == Invocation(i, |sys.ledger|)
    ensures InvocationGood(RunProcess(sys, i, x), v)
  {
    hide PcGood, AuthorGood, Next, FitsNow, Replays, HasStart, HasOutcome;
    var p := sys.processes[i];
    PerformingInvokes(sys.ledger, p.call, p.began, p.pc.view);
    var mid := sys.(invocations := sys.invocations + [v]);
    assert InvocationGood(mid, v);
    InvocationGoodGrows(mid, RunProcess(sys, i, x), v);
  }

  lemma NewAuthor(sys: System, i: nat, x: Answers, k: nat)
    requires SystemInvariant(sys) && i < |sys.processes|
    requires |sys.ledger| <= k < |RunProcess(sys, i, x).ledger|
    ensures AuthorGood(RunProcess(sys, i, x), k)
  {
    hide PcGood, Next, FitsNow, Replays, InvocationGood;
    var p := sys.processes[i];
    NextGood(sys.ledger, p.call, p.began, p.pc, x);
  }

  lemma ApplyKeeps(sys: System, m: Move, next: System)
    requires SystemInvariant(sys) && Apply(sys, m) == Some(next)
    ensures SystemInvariant(next)
  {
    hide SystemInvariant, RunProcess, Fold;
    match m
    case Environment(e) => EnvironmentKeeps(sys, e, next);
    case Spawn(_) => QuietMoveKeeps(sys, next) by { BeganWithin(sys); }
    case Run(i, x) => RunKeeps(sys, i, x);
    case Crash(_) => QuietMoveKeeps(sys, next) by { BeganWithin(sys); }
  }

  lemma BeganWithin(sys: System)
    requires SystemInvariant(sys)
    ensures forall i :: 0 <= i < |sys.processes| ==> sys.processes[i].began <= |sys.ledger|
  {}

  lemma {:induction false} RunsKeep(sys: System, moves: seq<Move>, end: System)
    requires SystemInvariant(sys) && RunAll(sys, moves) == Some(end)
    ensures SystemInvariant(end)
    decreases moves
  {
    hide SystemInvariant, Apply;
    if moves != [] {
      var next := Apply(sys, moves[0]).value;
      ApplyKeeps(sys, moves[0], next);
      RunsKeep(next, moves[1..], end);
    }
  }

  lemma NothingGood()
    ensures SystemInvariant(NOTHING)
  {}

  lemma Invariant(moves: seq<Move>, sys: System)
    requires RunAll(NOTHING, moves) == Some(sys)
    ensures SystemInvariant(sys)
  {
    NothingGood();
    RunsKeep(NOTHING, moves, sys);
  }

  // ------------------------------------------------------------ safety of every run

  /** The adapter is called only after the attempt's start is in the ledger, and never by a
      call that began after an outcome of the attempt was logged. */
  lemma InvokedOnlyBetweenStartAndOutcome(moves: seq<Move>, sys: System, v: Invocation)
    requires RunAll(NOTHING, moves) == Some(sys) && v in sys.invocations
    ensures v.process < |sys.processes| && sys.processes[v.process].began <= v.at <= |sys.ledger|
    ensures exists k ::
      0 <= k < v.at && sys.ledger[k].command.action == StartAttempt(sys.processes[v.process].call.attemptId)
    ensures forall k :: 0 <= k < sys.processes[v.process].began && sys.ledger[k].command.action.RecordOutcome? ==>
              sys.ledger[k].command.action.outcome.attemptId != sys.processes[v.process].call.attemptId
  {
    hide PcGood, AuthorGood, RunAll;
    Invariant(moves, sys);
    assert InvocationGood(sys, v);
  }

  lemma Replayed(moves: seq<Move>, sys: System, k: nat) returns (t: Inquiry)
    requires RunAll(NOTHING, moves) == Some(sys) && k < |sys.ledger|
    ensures Current(sys.ledger, t)
  {
    hide PcGood, AuthorGood, RunAll, InvocationGood;
    Invariant(moves, sys);
    t := NonemptyActive(sys.ledger);
  }

  lemma NonemptyActive(ledger: seq<Event>) returns (t: Inquiry)
    requires Replays(ledger) && ledger != []
    ensures Current(ledger, t)
  {
    hide Evolve;
    EvolveActive(Unstarted, ledger[0]);
    t := StaysActive(Evolve(Unstarted, ledger[0]).value.inquiry, ledger[1..]);
  }

  /** The ledger of any run holds at most one start and one outcome for an attempt and one
      acceptance for a request, whoever wrote them. */
  lemma OneStartOneOutcomeOneAcceptance(moves: seq<Move>, sys: System, i: nat, j: nat)
    requires RunAll(NOTHING, moves) == Some(sys) && i < j < |sys.ledger|
    ensures var a, b := sys.ledger[i].command.action, sys.ledger[j].command.action;
      && !(a.StartAttempt? && b.StartAttempt? && a.attemptId == b.attemptId)
      && !(a.RecordOutcome? && b.RecordOutcome? && a.outcome.attemptId == b.outcome.attemptId)
      && !(a.AcceptResult? && b.AcceptResult? && a.requestId == b.requestId)
  {
    hide RunAll, Fold;
    var t := Replayed(moves, sys, i);
    if sys.ledger[i].command.action.Effect() && sys.ledger[j].command.action.Effect() {
      AtMostOneOfEach(sys.ledger, t, i, j);
    }
  }

  /** The decode an executor writes for an attempt has one possible identity. */
  lemma SameDecodeId(s: Inquiry, b: Call, c: Call, d: Action, e: Action)
    requires Sound(s) && b.attemptId == c.attemptId && Fits(s, b, d) && Fits(s, c, e) && d.RecordDecode?
    requires e.RecordDecode?
    ensures d.decode.id == e.decode.id
  {
    hide Lifecycle, Flatten, RequestRules, Locate;
    SoundRules(s);
    var (r, x) := Locate(s, b).value;
    var (q, y) := Locate(s, c).value;
    SameAttempt(s, r, x, q, y);
  }

  /** The event's author, if a call wrote it, is one of the system's processes. */
  predicate Written(sys: System, k: nat) {
    |sys.authors| == |sys.ledger| && k < |sys.ledger|
    && (sys.authors[k].Some? ==> sys.authors[k].value < |sys.processes|)
  }

  /** All calls for one attempt together log at most one decode. */
  lemma OneExecutorDecode(moves: seq<Move>, sys: System, i: nat, j: nat)
    requires RunAll(NOTHING, moves) == Some(sys) && i < j < |sys.ledger|
    ensures Written(sys, i) && Written(sys, j)
    ensures var (p, q) := (sys.authors[i], sys.authors[j]);
      (p.Some? && q.Some?
       && sys.processes[p.value].call.attemptId == sys.processes[q.value].call.attemptId) ==>
        !(sys.ledger[i].command.action.RecordDecode? && sys.ledger[j].command.action.RecordDecode?)
  {
    hide RunAll, Fold, PcGood, InvocationGood, Fits, Sound;
    Invariant(moves, sys);
    var t := Replayed(moves, sys, i);
    assert AuthorGood(sys, i) && AuthorGood(sys, j);
    var (a, b) := (sys.ledger[i].command.action, sys.ledger[j].command.action);
    var (p, q) := (sys.authors[i], sys.authors[j]);
    LedgerSound(sys.ledger, t);
    if p.Some? && q.Some? && a.RecordDecode? && b.RecordDecode?
       && sys.processes[p.value].call.attemptId == sys.processes[q.value].call.attemptId
    {
      SameDecodeId(t, sys.processes[p.value].call, sys.processes[q.value].call, a, b);
      AtMostOneOfEach(sys.ledger, t, i, j);
    }
  }

  /** The record the reducer admits once that two equal event identities would both make. */
  lemma SameLabelRivals(s: Inquiry, b: Call, c: Call, d: Command, e: Command)
    requires Fits(s, b, d.action) && Fits(s, c, e.action) && Labelled(b, d) && Labelled(c, e)
    requires d.eventId == e.eventId
    ensures Rivals(d.action, e.action)
        || (d.action.AcceptResult? && e.action.AcceptResult? && d.action.decodeId == e.action.decodeId)
  {
    hide Located;
  }

  /** No two events that calls write, for whatever attempts, share an event identity: the store
      can refuse a call's event as a duplicate only because another writer used its digest. */
  lemma ExecutorIdentitiesDiffer(moves: seq<Move>, sys: System, i: nat, j: nat)
    requires RunAll(NOTHING, moves) == Some(sys) && i < j < |sys.ledger|
    ensures Written(sys, i) && Written(sys, j)
    ensures sys.authors[i].Some? && sys.authors[j].Some? ==>
              sys.ledger[i].command.eventId != sys.ledger[j].command.eventId
  {
    hide RunAll, Fold, PcGood, InvocationGood, Fits, Labelled, Rivals;
    Invariant(moves, sys);
    var t := Replayed(moves, sys, i);
    assert AuthorGood(sys, i) && AuthorGood(sys, j);
    var (a, b) := (sys.ledger[i].command, sys.ledger[j].command);
    if sys.authors[i].Some? && sys.authors[j].Some? && a.eventId == b.eventId {
      var (p, q) := (sys.processes[sys.authors[i].value].call, sys.processes[sys.authors[j].value].call);
      SameLabelRivals(t, p, q, a, b);
      AtMostOneOfEach(sys.ledger, t, i, j);
      SameDecodeSameRequest(sys.ledger, t, i, j);
    }
  }

  /** A decode identity is accepted for one request only. */
  lemma SameDecodeSameRequest(ledger: seq<Event>, t: Inquiry, i: nat, j: nat)
    requires Current(ledger, t) && i < j < |ledger|
    requires ledger[i].command.action.AcceptResult? && ledger[j].command.action.AcceptResult?
    ensures ledger[i].command.action.decodeId != ledger[j].command.action.decodeId
  {
    hide Fold;
    var m := AcceptAfterDecode(ledger, t, i);
    var n := AcceptAfterDecode(ledger, t, j);
    AtMostOneOfEach(ledger, t, i, j);
    if m < n { AtMostOneOfEach(ledger, t, m, n); }
    if n < m { AtMostOneOfEach(ledger, t, n, m); }
  }

  /** Every decode in the ledger follows the captured return it reads, which follows its
      attempt's start; every acceptance follows the successful decode it accepts. */
  lemma LoggedInProtocolOrder(moves: seq<Move>, sys: System, j: nat)
    requires RunAll(NOTHING, moves) == Some(sys) && j < |sys.ledger|
    ensures sys.ledger[j].command.action.RecordDecode? ==>
              exists i, k :: 0 <= k < i < j && sys.ledger[i].command.action.RecordOutcome?
                && sys.ledger[i].command.action.outcome.Returned?
                && sys.ledger[i].command.action.outcome.external.id == sys.ledger[j].command.action.decode.returnId
                && sys.ledger[k].command.action == StartAttempt(sys.ledger[i].command.action.outcome.attemptId)
    ensures sys.ledger[j].command.action.AcceptResult? ==>
              exists i :: 0 <= i < j && sys.ledger[i].command.action.RecordDecode?
                && sys.ledger[i].command.action.decode.Decoded?
                && sys.ledger[i].command.action.decode.id == sys.ledger[j].command.action.decodeId
                && sys.ledger[i].command.action.requestId == sys.ledger[j].command.action.requestId
  {
    hide RunAll, Fold;
    var t := Replayed(moves, sys, j);
    var action := sys.ledger[j].command.action;
    if action.RecordDecode? {
      var i := DecodeAfterOutcome(sys.ledger, t, j);
      var k := OutcomeAfterStart(sys.ledger, t, i);
    } else if action.AcceptResult? {
      var i := AcceptAfterDecode(sys.ledger, t, j);
    }
  }

  /** The sequence number the program compares is the length of the ledger. */
  lemma {:induction false} SequenceCountsEvents(ledger: seq<Event>, s: Inquiry)
    requires Current(ledger, s)
    ensures s.sequence == |ledger|
    decreases |ledger|
  {
    var front, last := ledger[..|ledger|-1], ledger[|ledger|-1];
    assert ledger == front + [last];
    FoldLast(Unstarted, front, last);
    var mid := Fold(Unstarted, front).value;
    if mid.Active? {
      SequenceCountsEvents(front, mid.inquiry);
      EvolveCounts(mid.inquiry, last, s);
    } else if front != [] {
      var t := NonemptyActive(front);
    }
  }

  lemma EvolveCounts(s: Inquiry, e: Event, t: Inquiry)
    requires Evolve(Active(s), e) == Some(Active(t))
    ensures t.sequence == s.sequence + 1
  {
    hide Lifecycle, Judge, Advance, Target;
  }
}
