/** Whole calls inside the concurrent system: every call is a run, and a lone call on an unstarted
    attempt logs its start. */
module ExecutorCalls {
  import opened Sequences
  import opened InquiryModel
  import opened Transitions
  import opened EffectLifecycle
  import opened EffectAgreement
  import opened EffectLedger
  import opened ExecutorSafety
  import opened EffectExecutor
  import opened ExecutorRuns

  // ------------------------------------------------------------ a call is a run

  lemma {:induction false} RunAllSplits(sys: System, first: seq<Move>, second: seq<Move>)
    ensures RunAll(sys, first + second)
        == (var mid := RunAll(sys, first); if mid.None? then None else RunAll(mid.value, second))
    decreases first
  {
    if first == [] {
      assert first + second == second;
    } else {
      assert (first + second)[0] == first[0] && (first + second)[1..] == first[1..] + second;
      var next := Apply(sys, first[0]);
      if next.Some? { RunAllSplits(next.value, first[1..], second); }
    }
  }

  lemma NoMoves(sys: System)
    ensures RunAll(sys, []) == Some(sys)
  {}

  lemma LedgerOnlyGrows(sys: System, m: Move, next: System)
    requires Apply(sys, m) == Some(next)
    ensures sys.ledger <= next.ledger
  {
    hide Next, Fold;
  }

  lemma OneMove(sys: System, m: Move)
    ensures RunAll(sys, [m]) == Apply(sys, m)
  {
    var next := Apply(sys, m);
    assert [m][1..] == [];
    if next.Some? { assert RunAll(next.value, []) == next; }
  }

  /** A batch another writer commits is a run of single commits. */
  lemma {:induction false} BatchIsARun(sys: System, batch: seq<Event>) returns (moves: seq<Move>)
    requires Fold(Unstarted, sys.ledger + batch).Some?
    ensures RunAll(sys, moves).Some?
    ensures var end := RunAll(sys, moves).value;
      end.ledger == sys.ledger + batch && end.processes == sys.processes && end.invocations == sys.invocations
    decreases |batch|
  {
    hide Fold;
    if batch == [] {
      moves := [];
      SameLedger(sys.ledger);
      assert sys.ledger + batch == sys.ledger;
    } else {
      var e, rest := batch[0], batch[1..];
      assert sys.ledger + batch == (sys.ledger + [e]) + rest;
      FoldSplits(Unstarted, sys.ledger + [e], rest);
      var next := Apply(sys, Environment(e)).value;
      var more := BatchIsARun(next, rest);
      moves := [Environment(e)] + more;
      OneMove(sys, Environment(e));
      RunAllSplits(sys, [Environment(e)], more);
    }
  }

  lemma ArrivalIsARun(sys: System, arrivals: seq<seq<Event>>) returns (moves: seq<Move>)
    ensures RunAll(sys, moves).Some?
    ensures arrivals == [] ==> moves == [] && Arrive(sys.ledger, arrivals).1 == []
    ensures var end := RunAll(sys, moves).value;
      end.ledger == Arrive(sys.ledger, arrivals).0 && end.processes == sys.processes
        && end.invocations == sys.invocations
  {
    hide Fold;
    if arrivals != [] && Fold(Unstarted, sys.ledger + arrivals[0]).Some? {
      moves := BatchIsARun(sys, arrivals[0]);
    } else {
      moves := [];
    }
  }

  /** Whatever a whole call does, with other writers landing in between, is a run of the system. */
  lemma {:induction false} CallIsARun(sys: System, i: nat, arrivals: seq<seq<Event>>, x: Answers)
    returns (moves: seq<Move>)
    requires i < |sys.processes|
    ensures RunAll(sys, moves).Some?
    ensures var p := sys.processes[i]; var end := RunAll(sys, moves).value;
        var f := Drive(sys.ledger, arrivals, p.call, p.pc, x);
      end.ledger == f.ledger && end.processes == sys.processes[i := p.(pc := f.pc)]
    ensures arrivals == [] ==> forall m :: m in moves ==> m == Run(i, x)
    decreases Remaining(sys.processes[i].pc)
  {
    hide Next, Arrive, Remaining;
    var p := sys.processes[i];
    if Halted(p.pc) {
      moves := [];
    } else {
      var here := [];
      if TouchesLedger(p.pc) { here := ArrivalIsARun(sys, arrivals); }
      var mid := RunAll(sys, here).value;
      var left := if TouchesLedger(p.pc) then Arrive(sys.ledger, arrivals).1 else arrivals;
      var next := RunProcess(mid, i, x);
      NextFalls(mid.ledger, p.call, p.pc, x);
      var rest := CallIsARun(next, i, left, x);
      moves := here + ([Run(i, x)] + rest);
      OneMove(mid, Run(i, x));
      RunAllSplits(mid, [Run(i, x)], rest);
      RunAllSplits(sys, here, [Run(i, x)] + rest);
    }
  }

  // ------------------------------------------------------------ starting

  lemma StepRun(sys: System, moves: seq<Move>, m: Move) returns (next: System, longer: seq<Move>)
    requires RunAll(sys, moves).Some? && Apply(RunAll(sys, moves).value, m).Some?
    ensures longer == moves + [m] && RunAll(sys, longer) == Some(next)
    ensures Apply(RunAll(sys, moves).value, m) == Some(next)
  {
    hide Apply;
    longer := moves + [m];
    RunAllSplits(sys, moves, [m]);
    OneMove(RunAll(sys, moves).value, m);
    next := RunAll(sys, longer).value;
  }

  lemma SameInquiry(s: Inquiry, e: Event, t: Inquiry)
    requires Sound(s) && Evolve(Active(s), e) == Some(Active(t))
    ensures t.id == s.id
  {
    hide Sound, Evolve;
    EvolveSound(s, e, t);
  }

  /** One call, alone, logs the start of an unstarted attempt and stands before the adapter. */
  lemma StartIsFresh(ledger: seq<Event>, s: Inquiry, c: Call, x: Answers)
    requires Current(ledger, s) && c.inquiryId == s.id && Begin(s, c, x.valid).Preflighting?
    ensures Decide(Active(s), StartCommand(c, x.startedAt)) == Emits(Event(StartCommand(c, x.startedAt), [], []))
    ensures Evolve(Active(s), Event(StartCommand(c, x.startedAt), [], [])).Some?
  {
    hide Fold, Lifecycle, Evolve, Flatten;
    var command := StartCommand(c, x.startedAt);
    LedgerSound(ledger, s);
    SoundRules(s);
    var (r, a) := Locate(s, c).value;
    var h := Containing(s.requests, c.attemptId);
    SameAttempt(s, r, a, h.value, FindBy(h.value.attempts, AttemptId, c.attemptId).value);
    AttemptRulesOf(s, r, a);
    assert Judge(s, command.action).Fresh?;
    FreshDecisionsReduce(ledger, s, command);
  }

  lemma StartedLocated(s: Inquiry, c: Call, e: Event, t: Inquiry)
    requires Sound(s) && Begin(s, c, true).Preflighting? && e.command.action == StartAttempt(c.attemptId)
    requires Evolve(Active(s), e) == Some(Active(t))
    ensures AfterStart(t, c) == Performing(t) && Begin(t, c, true) == Performing(t)
  {
    hide Sound, Evolve, Moves, Recorded, FindBy;
    EvolveSound(s, e, t);
    LocateMoves(s, t, c);
    AttemptRulesOf(s, Locate(s, c).value.0, Locate(s, c).value.1);
    AppliedIsRecorded(s, e, t);
    StartedAttempt(t, c);
    StartLeavesTheRest(s, c, e, t);
  }

  lemma StartedAttempt(t: Inquiry, c: Call)
    requires Sound(t) && Locate(t, c).Some? && Recorded(t, StartAttempt(c.attemptId))
    ensures Locate(t, c).value.1.start.Some?
  {
    hide Lifecycle, Flatten, RequestRules, Locate;
    SoundRules(t);
    var h :| h in t.requests && Holds(h, StartAttempt(c.attemptId));
    var x :| x in h.attempts && x.plan.id == c.attemptId && x.start.Some?;
    SameAttempt(t, h, x, Locate(t, c).value.0, Locate(t, c).value.1);
  }

  /** A start neither ends an attempt nor accepts a result. */
  lemma StartLeavesTheRest(s: Inquiry, c: Call, e: Event, t: Inquiry)
    requires Sound(s) && Sound(t) && Evolve(Active(s), e) == Some(Active(t))
    requires e.command.action == StartAttempt(c.attemptId)
    requires Locate(s, c).Some? && Locate(t, c).Some?
    requires Locate(s, c).value.1.outcome.None? && Locate(s, c).value.0.accepted.None?
    ensures Locate(t, c).value.1.outcome.None? && Locate(t, c).value.0.accepted.None?
  {
    hide Lifecycle, Evolve, FindBy, Flatten, RequestRules, Locate;
    SoundRules(s);
    SoundRules(t);
    AppliedSteps(s, e, t);
    var i, q := TargetAt(s, e.command);
    var (r, a) := Locate(s, c).value;
    var (u, b) := Locate(t, c).value;
    StartTarget(s, c.attemptId, r, a, e.command);
    assert t.requests[i] == q;
    var k :| 0 <= k < |r.attempts| && r.attempts[k] == a;
    assert q.attempts[k] in q.attempts && q.attempts[k].plan.id == c.attemptId;
    SameAttempt(t, q, q.attempts[k], u, b);
  }

  lemma StartTarget(s: Inquiry, id: Id, r: RequestState, a: Attempt, command: Command)
    requires EffectRules(s) && r in s.requests && a in r.attempts && a.plan.id == id
    requires command.action == StartAttempt(id)
    requires Target(s, command.action).Some? && Advance(s, Target(s, command.action).value, command).Some?
    ensures Target(s, command.action) == Some(r)
    ensures var q := Advance(s, r, command).value;
      q.accepted == r.accepted && |q.attempts| == |r.attempts|
      && forall k :: 0 <= k < |r.attempts| && r.attempts[k].plan.id == id ==>
          q.attempts[k].plan.id == id && q.attempts[k].outcome.None?
  {
    hide EffectRules;
    var h := Containing(s.requests, id).value;
    SameAttempt(s, r, a, h, FindBy(h.attempts, AttemptId, id).value);
  }

  lemma PreflightLocated(s: Inquiry, c: Call)
    requires Begin(s, c, true).Preflighting?
    ensures Begin(s, c, true) == Preflighting(s) && Locate(s, c).Some?
  {}
}
