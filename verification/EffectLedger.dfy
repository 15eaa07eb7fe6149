/** The ledger and the aggregate say the same thing about effects: a record is present exactly
    when its command was logged, and records are logged in protocol order. */
module EffectLedger {
  import opened Sequences
  import opened InquiryModel
  import opened Transitions
  import opened EffectLifecycle

  // ------------------------------------------------------------ recorded means logged

  /** One request answers the command's address and holds its record. */
  predicate HoldsAt(r: RequestState, a: Action)
    requires a.Effect()
  {
    Addressed(r, a) && Holds(r, a)
  }

  /** The attempt at a position of the successor: unchanged, newly planned, started or ended. */
  lemma AttemptAfter(s: Inquiry, r: RequestState, c: Command, k: nat)
    requires c.action.Effect() && !c.action.RequestEffect? && Advance(s, r, c).Some?
    requires k < |Advance(s, r, c).value.attempts|
    ensures var y := Advance(s, r, c).value.attempts[k];
      || (k < |r.attempts| && y == r.attempts[k])
      || (k == |r.attempts| && c.action == PlanAttempt(y.plan) && y.start.None? && y.outcome.None?)
      || (k < |r.attempts| && c.action == StartAttempt(y.plan.id) && y.plan == r.attempts[k].plan && y.outcome.None?)
      || (k < |r.attempts| && c.action.RecordOutcome? && y == r.attempts[k].(outcome := Some(c.action.outcome)))
  {
    hide Flatten, Captured, FindBy;
  }

  lemma AttemptOrigin(s: Inquiry, r: RequestState, c: Command, a: Action, k: nat)
    requires c.action.Effect() && !c.action.RequestEffect? && Advance(s, r, c).Some? && Target(s, c.action) == Some(r)
    requires k < |Advance(s, r, c).value.attempts|
    ensures var q := Advance(s, r, c).value; var y := q.attempts[k];
      && (a == PlanAttempt(y.plan) ==> a == c.action || Holds(r, a))
      && (a == StartAttempt(y.plan.id) && y.start.Some? ==> a == c.action || Holds(r, a))
      && (a.RecordOutcome? && a.requestId == r.request.id && Ends(y, a.outcome) ==> a == c.action || Holds(r, a))
  {
    hide Advance, Target, FindBy;
    AttemptAfter(s, r, c, k);
    TargetAddress(s, r, c);
    assert k < |r.attempts| ==> r.attempts[k] in r.attempts;
  }

  lemma AdvanceOrigin(s: Inquiry, r: RequestState, c: Command, a: Action)
    requires c.action.Effect() && !c.action.RequestEffect? && a.Effect()
    requires Target(s, c.action) == Some(r) && Advance(s, r, c).Some? && HoldsAt(Advance(s, r, c).value, a)
    ensures HoldsAt(r, a) || a == c.action
  {
    hide Flatten, Captured, FindBy, Target, StartIn, EndIn;
    var q := Advance(s, r, c).value;
    AdvanceKeepsRequest(s, r, c);
    TargetAddress(s, r, c);
    if a.PlanAttempt? || a.StartAttempt? || a.RecordOutcome? {
      var k := AttemptHolding(q, a);
      AttemptOrigin(s, r, c, a, k);
    }
  }

  lemma AttemptHolding(q: RequestState, a: Action) returns (k: nat)
    requires (a.PlanAttempt? || a.StartAttempt? || a.RecordOutcome?) && Holds(q, a)
    ensures k < |q.attempts|
    ensures a == PlanAttempt(q.attempts[k].plan)
        || (a == StartAttempt(q.attempts[k].plan.id) && q.attempts[k].start.Some?)
         || (a.RecordOutcome? && a.requestId == q.request.id && Ends(q.attempts[k], a.outcome))
  {
    var y;
    match a {
      case PlanAttempt(p) => y :| y in q.attempts && y.plan == p;
      case StartAttempt(id) => y :| y in q.attempts && y.plan.id == id && y.start.Some?;
      case RecordOutcome(_, o) => y :| y in q.attempts && Ends(y, o);
    }
    k :| 0 <= k < |q.attempts| && q.attempts[k] == y;
  }

  lemma TargetAddress(s: Inquiry, r: RequestState, c: Command)
    requires c.action.Effect() && !c.action.RequestEffect? && Target(s, c.action) == Some(r)
    ensures c.action.RecordOutcome? || c.action.RecordDecode? || c.action.AcceptResult? ==>
        r.request.id == c.action.requestId
    ensures c.action.RecordNoAttempt? ==> r.request.id == c.action.noAttempt.requestId
    ensures c.action.PlanAttempt? ==> r.request.id == c.action.attemptPlan.requestId
  {}

  /** A record in the successor was there before or is what the event's command asked for. */
  lemma StepOrigin(s: Inquiry, e: Event, t: Inquiry, r: RequestState, a: Action)
    requires Sound(s) && Evolve(Active(s), e) == Some(Active(t)) && a.Effect() && r in t.requests && HoldsAt(r, a)
    ensures e.command.action == a || exists q :: q in s.requests && HoldsAt(q, a)
  {
    hide Lifecycle, Advance, Target, HoldsAt, FindBy, RequestRules, DistinctKeys, Flatten;
    var c := e.command;
    if c.action.Effect() {
      AppliedSteps(s, e, t);
      SoundRules(s);
      if c.action.RequestEffect? {
        if r !in s.requests {
          assert r == RequestState(c.action.request, [], [], [], None);
          EmptyHolds(c.action.request, a);
        }
      } else {
        var i, q := TargetAt(s, c);
        if r !in s.requests {
          assert r == q;
          AdvanceOrigin(s, s.requests[i], c, a);
        }
      }
    } else {
      RecordSteps(s, e, t);
    }
  }

  lemma RecordSteps(s: Inquiry, e: Event, t: Inquiry)
    requires !e.command.action.Effect() && Evolve(Active(s), e) == Some(Active(t))
    ensures t.requests == s.requests
  {}

  lemma EmptyHolds(q: Request, a: Action)
    requires a.Effect() && HoldsAt(RequestState(q, [], [], [], None), a)
    ensures a == RequestEffect(q)
  {}

  /** Every record of a reachable request was logged by exactly the command it answers. */
  lemma {:induction false} RecordedWasLogged(events: seq<Event>, s: Inquiry, r: RequestState, a: Action)
    returns (k: nat)
    requires Fold(Unstarted, events) == Some(Active(s)) && a.Effect() && r in s.requests && HoldsAt(r, a)
    ensures k < |events| && events[k].command.action == a
    decreases |events|
  {
    hide Evolve, HoldsAt, Sound;
    var front, last := events[..|events|-1], events[|events|-1];
    assert events == front + [last];
    FoldLast(Unstarted, front, last);
    var mid := Fold(Unstarted, front).value;
    if mid.Unstarted? {
      NothingAtStart(last, s);
      assert false;
    } else {
      LedgerSound(front, mid.inquiry);
      StepOrigin(mid.inquiry, last, s, r, a);
      if last.command.action == a {
        k := |front|;
      } else {
        var q :| q in mid.inquiry.requests && HoldsAt(q, a);
        k := RecordedWasLogged(front, mid.inquiry, q, a);
        assert events[k] == front[k];
      }
    }
  }

  lemma NothingAtStart(e: Event, s: Inquiry)
    requires Evolve(Unstarted, e) == Some(Active(s))
    ensures s.requests == []
  {}

  /** A logged effect command leaves its record in every later aggregate. */
  lemma {:induction false} LoggedIsRecorded(events: seq<Event>, s: Inquiry, k: nat)
    requires Fold(Unstarted, events) == Some(Active(s)) && k < |events| && events[k].command.action.Effect()
    ensures Recorded(s, events[k].command.action)
  {
    hide Fold, Evolve, Moves, Sound, Recorded;
    var before, e, after := events[..k], events[k], events[k+1..];
    assert events == before + [e] + after;
    var p, q := AppliedAt(before, e, after, s);
    AppliedIsRecorded(p, e, q);
    RecordedMoves(q, s, e.command.action);
  }

  // ------------------------------------------------------------ protocol order

  /** The aggregate a logged event was reduced from, and the request it advanced. */
  lemma AdvancedAt(events: seq<Event>, t: Inquiry, j: nat) returns (s: Inquiry, r: RequestState)
    requires Fold(Unstarted, events) == Some(Active(t)) && j < |events|
    requires events[j].command.action.Effect() && !events[j].command.action.RequestEffect?
    ensures Fold(Unstarted, events[..j]) == Some(Active(s)) && Sound(s)
    ensures r in s.requests && Target(s, events[j].command.action) == Some(r) && Advance(s, r, events[j].command).Some?
  {
    hide Fold, Evolve, Moves, Sound, Advance, Target;
    var before, e, after := events[..j], events[j], events[j+1..];
    assert events == before + [e] + after;
    var u;
    s, u := AppliedAt(before, e, after, t);
    AppliedSteps(s, e, u);
    r := Target(s, e.command.action).value;
  }

  /** An outcome is logged only after its attempt's start. */
  lemma OutcomeAfterStart(events: seq<Event>, t: Inquiry, j: nat) returns (k: nat)
    requires Fold(Unstarted, events) == Some(Active(t)) && j < |events| && events[j].command.action.RecordOutcome?
    ensures k < j && events[k].command.action == StartAttempt(events[j].command.action.outcome.attemptId)
  {
    hide Fold, Sound;
    var s, r := AdvancedAt(events, t, j);
    var id := events[j].command.action.outcome.attemptId;
    var a := FindBy(r.attempts, AttemptId, id).value;
    assert HoldsAt(r, StartAttempt(id));
    k := RecordedWasLogged(events[..j], s, r, StartAttempt(id));
  }

  /** A decode is logged only after the outcome that captured the return it reads. */
  lemma DecodeAfterOutcome(events: seq<Event>, t: Inquiry, j: nat) returns (k: nat)
    requires Fold(Unstarted, events) == Some(Active(t)) && j < |events| && events[j].command.action.RecordDecode?
    ensures k < j && events[k].command.action.RecordOutcome?
    ensures events[k].command.action.requestId == events[j].command.action.requestId
    ensures events[k].command.action.outcome.Returned?
         && events[k].command.action.outcome.external.id == events[j].command.action.decode.returnId
  {
    hide Fold, Lifecycle, Flatten, FindBy;
    var s, r := AdvancedAt(events, t, j);
    TargetAddress(s, r, events[j].command);
    var x :| x in Returns(r) && x.id == events[j].command.action.decode.returnId;
    ReturnsHave(r.attempts, x);
    var a :| a in r.attempts && a.outcome.Some? && a.outcome.value.Returned? && a.outcome.value.external == x;
    OutcomeHeld(events[..j], s, r, a);
    assert HoldsAt(r, RecordOutcome(r.request.id, a.outcome.value));
    k := RecordedWasLogged(events[..j], s, r, RecordOutcome(r.request.id, a.outcome.value));
  }

  lemma AdvanceOutcome(s: Inquiry, r: RequestState, c: Command, a: Attempt)
    requires c.action.Effect() && !c.action.RequestEffect? && RequestRules(r)
    requires Advance(s, r, c).Some? && a in Advance(s, r, c).value.attempts && a.outcome.Some?
    ensures Ends(a, a.outcome.value) || a in r.attempts
  {
    hide Flatten, Captured, Returns;
    var q := Advance(s, r, c).value;
    var k :| 0 <= k < |q.attempts| && q.attempts[k] == a;
    if c.action.RecordOutcome? {
      var x := FindBy(r.attempts, AttemptId, c.action.outcome.attemptId).value;
      OnlyOne(r.attempts, AttemptId, r.attempts[k], x);
    }
  }

  /** An ended attempt of a reachable request holds an outcome that names it and its route. */
  lemma {:induction false} OutcomeHeld(events: seq<Event>, s: Inquiry, r: RequestState, a: Attempt)
    requires Fold(Unstarted, events) == Some(Active(s)) && r in s.requests && a in r.attempts && a.outcome.Some?
    ensures Ends(a, a.outcome.value)
    decreases |events|
  {
    hide Evolve, Sound, Lifecycle, RequestRules;
    var front, last := events[..|events|-1], events[|events|-1];
    assert events == front + [last];
    FoldLast(Unstarted, front, last);
    var mid := Fold(Unstarted, front).value;
    if mid.Unstarted? {
      NothingAtStart(last, s);
      assert false;
    } else {
      LedgerSound(front, mid.inquiry);
      if r in mid.inquiry.requests {
        OutcomeHeld(front, mid.inquiry, r, a);
      } else {
        var q := NewlyEnded(mid.inquiry, last, s, r, a);
        if !Ends(a, a.outcome.value) { OutcomeHeld(front, mid.inquiry, q, a); }
      }
    }
  }

  lemma NewlyEnded(s: Inquiry, e: Event, t: Inquiry, r: RequestState, a: Attempt) returns (q: RequestState)
    requires Sound(s) && Evolve(Active(s), e) == Some(Active(t)) && r in t.requests && r !in s.requests
    requires a in r.attempts && a.outcome.Some?
    ensures Ends(a, a.outcome.value) || (q in s.requests && a in q.attempts)
  {
    hide Evolve, Lifecycle, Advance, Target, FindBy, RequestRules, Flatten;
    var c := e.command;
    if !c.action.Effect() {
      RecordSteps(s, e, t);
      assert false;
    } else {
      AppliedSteps(s, e, t);
      SoundRules(s);
      if !c.action.RequestEffect? {
        var i, next := TargetAt(s, c);
        q := s.requests[i];
        RulesOf(s, q);
        AdvanceOutcome(s, q, c, a);
      }
    }
  }

  /** A result is accepted only after the successful decode that carries it. */
  lemma AcceptAfterDecode(events: seq<Event>, t: Inquiry, j: nat) returns (k: nat)
    requires Fold(Unstarted, events) == Some(Active(t)) && j < |events| && events[j].command.action.AcceptResult?
    ensures k < j && events[k].command.action.RecordDecode?
    ensures events[k].command.action.requestId == events[j].command.action.requestId
    ensures events[k].command.action.decode.Decoded?
    ensures events[k].command.action.decode.id == events[j].command.action.decodeId
  {
    hide Fold, Sound;
    var s, r := AdvancedAt(events, t, j);
    TargetAddress(s, r, events[j].command);
    var d := FindBy(r.decodes, DecodeId, events[j].command.action.decodeId).value;
    assert HoldsAt(r, RecordDecode(r.request.id, d));
    k := RecordedWasLogged(events[..j], s, r, RecordDecode(r.request.id, d));
  }
}
