/** When the adapter is called: at most once by each call, at most once for an attempt while at
    most one call begins before its outcome, and otherwise as often as calls keep beginning. */
module ExecutorPresentation {
  import opened Sequences
  import opened InquiryModel
  import opened Transitions
  import opened EffectLifecycle
  import opened EffectExecutor
  import opened ExecutorCalls
  import opened ExecutorRuns
  import opened ExecutorSafety

  // ------------------------------------------------------------ each call presents at most once

  /** Where a call may still come to the adapter. */
  predicate MayInvoke(pc: Pc) {
    || pc.Entry? || pc.Preflighting? || pc.Performing?
    || (pc.Reading? && pc.stage.Starting?) || (pc.Committing? && pc.stage.Starting?)
  }

  /** Past the adapter there is no way back to it. */
  lemma NeverBack(ledger: seq<Event>, c: Call, pc: Pc, x: Answers)
    requires pc.Performing? || !MayInvoke(pc)
    ensures !MayInvoke(Next(ledger, c, pc, x).pc)
  {
    hide Fold, Locate, Decide, Evolve, FindBy;
  }

  /** Processes that have invoked are past the adapter, and each has invoked once. */
  predicate Spent(sys: System) {
    && (forall v :: v in sys.invocations ==> v.process < |sys.processes| && !MayInvoke(sys.processes[v.process].pc))
    && (forall i, j :: 0 <= i < j < |sys.invocations| ==> sys.invocations[i].process != sys.invocations[j].process)
  }

  lemma RunKeepsSpent(sys: System, i: nat, x: Answers)
    requires Spent(sys) && i < |sys.processes|
    ensures Spent(RunProcess(sys, i, x))
  {
    hide Next;
    var p, next := sys.processes[i], RunProcess(sys, i, x);
    if p.pc.Performing? || !MayInvoke(p.pc) { NeverBack(sys.ledger, p.call, p.pc, x); }
    forall a, b | 0 <= a < b < |next.invocations| ensures next.invocations[a].process != next.invocations[b].process {
      assert a < |sys.invocations| ==>
          next.invocations[a] == sys.invocations[a] && sys.invocations[a] in sys.invocations;
      assert b < |sys.invocations| ==> next.invocations[b] == sys.invocations[b];
    }
  }

  lemma ApplyKeepsSpent(sys: System, m: Move, next: System)
    requires Spent(sys) && Apply(sys, m) == Some(next)
    ensures Spent(next)
  {
    hide RunProcess, Fold;
    if m.Run? { RunKeepsSpent(sys, m.process, m.answers); }
  }

  lemma {:induction false} RunsKeepSpent(sys: System, moves: seq<Move>, end: System)
    requires Spent(sys) && RunAll(sys, moves) == Some(end)
    ensures Spent(end)
    decreases moves
  {
    hide Spent, Apply;
    if moves != [] {
      var next := Apply(sys, moves[0]).value;
      ApplyKeepsSpent(sys, moves[0], next);
      RunsKeepSpent(next, moves[1..], end);
    }
  }

  /** In any run, no call invokes the adapter twice. */
  lemma OneInvocationPerCall(moves: seq<Move>, sys: System, i: nat, j: nat)
    requires RunAll(NOTHING, moves) == Some(sys) && i < j < |sys.invocations|
    ensures sys.invocations[i].process != sys.invocations[j].process
  {
    hide RunAll;
    RunsKeepSpent(NOTHING, moves, sys);
  }

  /** A call for the attempt that began before any outcome of it was logged. */
  predicate Early(sys: System, p: nat, attemptId: Id)
    requires p < |sys.processes|
  {
    && sys.processes[p].call.attemptId == attemptId && sys.processes[p].began <= |sys.ledger|
    && !HasOutcome(sys.ledger, attemptId, sys.processes[p].began)
  }

  /** The calls that invoke are early; so when at most one call for an attempt begins before its
      outcome is logged, the adapter is invoked at most once for it. */
  lemma PresentedAtMostOnce(moves: seq<Move>, sys: System, attemptId: Id, i: nat, j: nat)
    requires RunAll(NOTHING, moves) == Some(sys)
    requires forall p, q :: 0 <= p < q < |sys.processes| ==> !(Early(sys, p, attemptId) && Early(sys, q, attemptId))
    requires i < |sys.invocations| && j < |sys.invocations|
    ensures sys.invocations[i].process < |sys.processes| && sys.invocations[j].process < |sys.processes|
    ensures (sys.processes[sys.invocations[i].process].call.attemptId == attemptId
             && sys.processes[sys.invocations[j].process].call.attemptId == attemptId) ==>
              i == j
  {
    hide RunAll, HasOutcome;
    InvokersAreEarly(moves, sys, i);
    InvokersAreEarly(moves, sys, j);
    if i < j { OneInvocationPerCall(moves, sys, i, j); }
    if j < i { OneInvocationPerCall(moves, sys, j, i); }
  }

  lemma InvokersAreEarly(moves: seq<Move>, sys: System, i: nat)
    requires RunAll(NOTHING, moves) == Some(sys) && i < |sys.invocations|
    ensures sys.invocations[i].process < |sys.processes|
    ensures Early(sys, sys.invocations[i].process, sys.processes[sys.invocations[i].process].call.attemptId)
  {
    hide RunAll, PcGood, AuthorGood, HasStart, HasOutcome;
    Invariant(moves, sys);
    assert InvocationGood(sys, sys.invocations[i]);
  }

  // ------------------------------------------------------------ which calls can present

  /** The call is for this attempt's adapter and version, the request is unresolved and the attempt
      has no outcome; whether it has started does not matter. */
  predicate Presentable(s: Inquiry, c: Call) {
    Locate(s, c).Some? && var (r, a) := Locate(s, c).value;
      && r.request.adapterId == c.adapterId && a.plan.route.adapterId == c.adapterId
      && a.plan.route.adapterVersion == c.version
      && r.accepted.None? && a.outcome.None?
  }

  /** A capable adapter and a registered route. */
  predicate Capable(x: Answers) { x.valid && x.preflight.Supported? }

  lemma PresentableBegins(s: Inquiry, c: Call)
    requires Presentable(s, c)
    ensures Begin(s, c, true) == if Locate(s, c).value.1.start.None? then Preflighting(s) else Performing(s)
  {
    hide Locate;
  }

  lemma PerformingIsPresentable(t: Inquiry, c: Call)
    requires Begin(t, c, true) == Performing(t)
    ensures Presentable(t, c)
  {
    hide Locate;
  }

  /** A call at its entry on a presentable attempt, run alone, comes to stand before the adapter,
      and the attempt is presentable still. */
  lemma RunToAdapter(sys: System, n: nat, s: Inquiry, c: Call, x: Answers)
    returns (moves: seq<Move>, end: System, t: Inquiry)
    requires n < |sys.processes| && sys.processes[n].call == c && sys.processes[n].pc == Entry
    requires Current(sys.ledger, s) && c.inquiryId == s.id && Presentable(s, c) && Capable(x)
    ensures RunAll(sys, moves) == Some(end) && (forall m :: m in moves ==> m.Run? && m.process == n)
    ensures end.processes == sys.processes[n := sys.processes[n].(pc := Performing(t))]
    ensures end.invocations == sys.invocations
    ensures Current(end.ledger, t) && t.id == s.id && Presentable(t, c) && Locate(t, c).value.1.start.Some?
  {
    hide RunAll, Fold, Locate, Begin, Presentable, Evolve, Decide;
    PresentableBegins(s, c);
    SameLedger(sys.ledger);
    assert RunAll(sys, []) == Some(sys) by { NoMoves(sys); }
    var s1, m1 := StepRun(sys, [], Run(n, x));
    PresentableLocated(s, c);
    if Locate(s, c).value.1.start.Some? {
      moves, end, t := m1, s1, s;
    } else {
      var m4, s4, e, u := RunThroughStart(s1, n, s, c, x);
      RunAllSplits(sys, m1, m4);
      moves, end, t := m1 + m4, s4, u;
    }
  }

  lemma PresentableLocated(s: Inquiry, c: Call)
    requires Presentable(s, c)
    ensures Locate(s, c).Some?
  {}

  /** Preflight, read and commit the start. */
  lemma RunThroughStart(sys: System, n: nat, s: Inquiry, c: Call, x: Answers)
    returns (moves: seq<Move>, end: System, e: Event, t: Inquiry)
    requires n < |sys.processes| && sys.processes[n].call == c && sys.processes[n].pc == Preflighting(s)
    requires Current(sys.ledger, s) && c.inquiryId == s.id && Begin(s, c, true).Preflighting? && Capable(x)
    ensures RunAll(sys, moves) == Some(end) && (forall m :: m in moves ==> m.Run? && m.process == n)
    ensures end.processes == sys.processes[n := sys.processes[n].(pc := Performing(t))]
    ensures end.invocations == sys.invocations
    ensures Current(end.ledger, t) && t.id == s.id && Presentable(t, c) && Locate(t, c).value.1.start.Some?
  {
    hide RunAll, Fold, Evolve, Decide, Begin, Locate, AfterStart, Moves, Sound;
    var command := StartCommand(c, x.startedAt);
    e := Event(command, [], []);
    StartIsFresh(sys.ledger, s, c, x);
    LedgerSound(sys.ledger, s);
    EvolveActive(Active(s), e);
    t := Evolve(Active(s), e).value.inquiry;
    FoldLast(Unstarted, sys.ledger, e);
    SameInquiry(s, e, t);
    StartedLocated(s, c, e, t);
    PerformingIsPresentable(t, c);
    PreflightLocated(s, c);
    PerformingStarted(t, c);
    SameLedger(sys.ledger);
    NoMoves(sys);
    var s2, m2 := StepRun(sys, [], Run(n, x));
    assert s2.processes[n].pc == Reading(Starting, command, 0) && s2.ledger == sys.ledger;
    var s3, m3 := StepRun(sys, m2, Run(n, x));
    assert s3.processes[n].pc == Committing(Starting, command, 0, |sys.ledger|, e, t) && s3.ledger == sys.ledger;
    end, moves := StepRun(sys, m3, Run(n, x));
    assert end.ledger == sys.ledger + [e];
  }

  lemma PerformingStarted(t: Inquiry, c: Call)
    requires AfterStart(t, c) == Performing(t)
    ensures Locate(t, c).Some? && Locate(t, c).value.1.start.Some?
  {}

  /** A newly begun call on a presentable attempt can invoke, leaving it presentable. */
  lemma NewCallInvokes(sys: System, s: Inquiry, c: Call, x: Answers) returns (moves: seq<Move>, end: System, t: Inquiry)
    requires Current(sys.ledger, s) && c.inquiryId == s.id && Presentable(s, c) && Capable(x)
    ensures RunAll(sys, [Spawn(c)] + moves) == Some(end)
    ensures forall m :: m in moves ==> m.Run? && m.process == |sys.processes|
    ensures |end.processes| == |sys.processes| + 1 && end.processes[..|sys.processes|] == sys.processes
    ensures end.processes[|sys.processes|].call == c
    ensures end.invocations == sys.invocations + [Invocation(|sys.processes|, |end.ledger|)]
    ensures Current(end.ledger, t) && t.id == s.id && Presentable(t, c)
  {
    hide RunAll, Fold, Locate, Presentable, Perform;
    var n := |sys.processes|;
    var s1 := Apply(sys, Spawn(c)).value;
    OneMove(sys, Spawn(c));
    var m2, s2, u := RunToAdapter(s1, n, s, c, x);
    PresentableLocated(u, c);
    SameLedger(s2.ledger);
    var m3;
    end, m3 := StepRun(s1, m2, Run(n, x));
    RunAllSplits(sys, [Spawn(c)], m3);
    moves, t := m3, u;
  }

  // ------------------------------------------------------------ and which cannot

  /** Nothing later makes an attempt presentable to a call that found it otherwise. */
  predicate Inert(s: Inquiry, c: Call) { Locate(s, c).Some? && !Presentable(s, c) }

  lemma InertMoves(s: Inquiry, t: Inquiry, c: Call)
    requires Moves(s, t) && Sound(s) && Sound(t) && Inert(s, c)
    ensures Inert(t, c)
  {
    hide Moves, Sound, Locate;
    LocateMoves(s, t, c);
  }

  lemma InertBegins(s: Inquiry, c: Call, valid: bool)
    requires Sound(s) && Inert(s, c)
    ensures !MayInvoke(Begin(s, c, valid))
  {
    hide Sound, Locate;
    var (r, a) := Locate(s, c).value;
    AttemptRulesOf(s, r, a);
  }

  /** A call that has not entered yet, or is past the adapter without having invoked. */
  predicate Headless(sys: System, n: nat) {
    && n < |sys.processes| && (sys.processes[n].pc.Entry? || !MayInvoke(sys.processes[n].pc))
    && forall v :: v in sys.invocations ==> v.process != n
  }

  /** The call's attempt was inert in a prefix of the ledger. */
  ghost predicate InertAt(sys: System, b: nat, s: Inquiry, c: Call) {
    b <= |sys.ledger| && Current(sys.ledger[..b], s) && Inert(s, c)
  }

  lemma InertStep(sys: System, n: nat, b: nat, s: Inquiry, c: Call, m: Move, next: System)
    requires Replays(sys.ledger) && InertAt(sys, b, s, c) && Headless(sys, n) && sys.processes[n].call == c
    requires Apply(sys, m) == Some(next)
    ensures Headless(next, n) && next.processes[n].call == c
  {
    hide Inert, Replays, Current, Begin, Fold, Moves, Sound;
    if m.Run? && m.process == n {
      var p := sys.processes[n];
      if p.pc.Entry? {
        var u := FoldedBefore(sys.ledger, b, s);
        InertMoves(s, u, c);
        InertBegins(u, c, m.answers.valid);
        EntryBegins(sys.ledger, u, c, m.answers);
      } else {
        NeverBack(sys.ledger, c, p.pc, m.answers);
      }
    }
  }

  lemma EntryBegins(ledger: seq<Event>, s: Inquiry, c: Call, x: Answers)
    requires Current(ledger, s)
    ensures Next(ledger, c, Entry, x).pc == Begin(s, c, x.valid)
  {}

  lemma {:induction false} InertNeverInvokes(sys: System, n: nat, b: nat, s: Inquiry, c: Call, moves: seq<Move>,
    end: System)
    requires SystemInvariant(sys) && InertAt(sys, b, s, c) && Headless(sys, n) && sys.processes[n].call == c
    requires RunAll(sys, moves) == Some(end)
    ensures Headless(end, n)
    decreases moves
  {
    hide SystemInvariant, Inert, Current, Headless, Apply, Replays;
    if moves != [] {
      var next := Apply(sys, moves[0]).value;
      ReplaysNow(sys);
      InertStep(sys, n, b, s, c, moves[0], next);
      ApplyKeeps(sys, moves[0], next);
      LedgerOnlyGrows(sys, moves[0], next);
      assert next.ledger[..b] == sys.ledger[..b];
      InertNeverInvokes(next, n, b, s, c, moves[1..], end);
    }
  }

  lemma ReplaysNow(sys: System)
    requires SystemInvariant(sys)
    ensures Replays(sys.ledger)
  {}

  predicate Invokes(sys: System, n: nat) { exists v :: v in sys.invocations && v.process == n }

  /** Exactly which calls may present: one begun after any run can come to the adapter, in some
      continuation with whatever other calls and writers, if and only if the request and route name
      its adapter and version, nothing is accepted and the attempt has no outcome. */
  lemma CallReachesAdapterIff(moves: seq<Move>, sys: System, s: Inquiry, c: Call)
    requires RunAll(NOTHING, moves) == Some(sys) && Current(sys.ledger, s) && c.inquiryId == s.id && Locate(s, c).Some?
    ensures (exists more, end :: RunAll(sys, [Spawn(c)] + more) == Some(end) && Invokes(end, |sys.processes|))
       <==> Presentable(s, c)
  {
    hide RunAll, Current, Locate, Presentable, SystemInvariant, Spent;
    if Presentable(s, c) {
      var x := Answers(true, 0, 0, 0, 0, Supported, Bytes(Text(0)), Semantic(Text(0)));
      var more, end, t := NewCallInvokes(sys, s, c, x);
      assert end.invocations[|sys.invocations|].process == |sys.processes|;
      assert Invokes(end, |sys.processes|);
    }
    if more, end :| RunAll(sys, [Spawn(c)] + more) == Some(end) && Invokes(end, |sys.processes|) {
      Invariant(moves, sys);
      RunsKeepSpent(NOTHING, moves, sys) by { NothingSpent(); }
      SpentInside(sys);
      var n := |sys.processes|;
      OneMove(sys, Spawn(c));
      RunAllSplits(sys, [Spawn(c)], more);
      var next := Apply(sys, Spawn(c)).value;
      ApplyKeeps(sys, Spawn(c), next);
      if !Presentable(s, c) {
        assert sys.ledger[..|sys.ledger|] == sys.ledger;
        InertNeverInvokes(next, n, |sys.ledger|, s, c, more, end);
      }
    }
  }

  lemma NothingSpent()
    ensures Spent(NOTHING)
  {}

  lemma SpentInside(sys: System)
    requires Spent(sys)
    ensures forall v :: v in sys.invocations ==> v.process < |sys.processes|
  {}

  // ------------------------------------------------------------ repeated presentation

  /** The `k`th new process is a crashed call `c`, and the `k`th new invocation is its own. */
  predicate Spoiled(sys: System, end: System, c: Call, k: nat) {
    var (p, v) := (|sys.processes| + k, |sys.invocations| + k);
    && p < |end.processes| && end.processes[p].call == c && end.processes[p].pc == Raised
    && v < |end.invocations| && end.invocations[v].process == p
  }

  /** The new calls of a repetition: all for one attempt, all crashed, each invoked once in turn. */
  predicate Repeats(sys: System, end: System, c: Call, n: nat) {
    var (p, v) := (|sys.processes|, |sys.invocations|);
    && |end.processes| == p + n && |end.invocations| == v + n
    && end.processes[..p] == sys.processes && end.invocations[..v] == sys.invocations
    && forall k: nat :: k < n ==> Spoiled(sys, end, c, k)
  }

  /** Presentation is not at most once, racing or not: from any run with a presentable attempt,
      started or not, `n` calls for any `n` can each invoke the adapter and crash before the next
      one begins, with no other writer involved. */
  lemma {:induction false} PresentationRepeats(sys: System, s: Inquiry, c: Call, x: Answers, n: nat)
    returns (moves: seq<Move>, end: System, t: Inquiry)
    requires Current(sys.ledger, s) && c.inquiryId == s.id && Presentable(s, c) && Capable(x)
    ensures RunAll(sys, moves) == Some(end) && Repeats(sys, end, c, n)
    ensures forall m :: m in moves ==> !m.Environment?
    ensures Current(end.ledger, t) && t.id == s.id && Presentable(t, c)
    decreases n
  {
    hide RunAll, Current, Presentable, Apply;
    if n == 0 {
      NoMoves(sys);
      moves, end, t := [], sys, s;
    } else {
      var m1, s1, u := NewCallInvokes(sys, s, c, x);
      var here := [Spawn(c)] + m1;
      var s2, m2 := CrashOne(sys, here, s1, |sys.processes|);
      var m3, s3, v := PresentationRepeats(s2, u, c, x, n - 1);
      RunAllSplits(sys, m2, m3);
      moves, end, t := m2 + m3, s3, v;
      Repeated(sys, s1, s2, end, c, n);
    }
  }

  lemma CrashOne(sys: System, moves: seq<Move>, mid: System, n: nat) returns (end: System, longer: seq<Move>)
    requires RunAll(sys, moves) == Some(mid) && n < |mid.processes|
    ensures longer == moves + [Crash(n)] && RunAll(sys, longer) == Some(end)
    ensures end == mid.(processes := mid.processes[n := mid.processes[n].(pc := Raised)])
  {
    hide RunAll;
    end, longer := StepRun(sys, moves, Crash(n));
  }

  lemma Repeated(sys: System, s1: System, s2: System, end: System, c: Call, n: nat)
    requires n > 0 && |s1.processes| == |sys.processes| + 1
    requires s1.processes[..|sys.processes|] == sys.processes && s1.processes[|sys.processes|].call == c
    requires s1.invocations == sys.invocations + [Invocation(|sys.processes|, |s1.ledger|)]
    requires s2 == s1.(processes := s1.processes[|sys.processes| := s1.processes[|sys.processes|].(pc := Raised)])
    requires Repeats(s2, end, c, n - 1)
    ensures Repeats(sys, end, c, n)
  {
    var p, v := |sys.processes|, |sys.invocations|;
    assert end.processes[p] == s2.processes[p] by { assert s2.processes[p] == end.processes[..p + 1][p]; }
    assert end.invocations[v] == s2.invocations[v] by { assert s2.invocations[v] == end.invocations[..v + 1][v]; }
    assert end.processes[..p] == end.processes[..p + 1][..p] == sys.processes;
    assert end.invocations[..v] == end.invocations[..v + 1][..v] == sys.invocations;
    forall k: nat | k < n ensures Spoiled(sys, end, c, k) {
      if k > 0 { assert Spoiled(s2, end, c, k - 1); }
    }
  }

  // ------------------------------------------------------------ races

  /** Two overlapping calls on a presentable attempt can both invoke before an outcome is logged. */
  lemma RacingCallsBothInvoke(sys: System, s: Inquiry, c: Call, x: Answers) returns (moves: seq<Move>, end: System)
    requires Current(sys.ledger, s) && c.inquiryId == s.id && Presentable(s, c) && Capable(x)
    ensures RunAll(sys, moves) == Some(end) && forall m :: m in moves ==> !m.Environment?
    ensures var n := |sys.processes|;
      && |end.processes| == n + 2 && end.processes[n].call == end.processes[n+1].call == c
      && end.invocations == sys.invocations + [Invocation(n, |end.ledger|), Invocation(n + 1, |end.ledger|)]
  {
    hide RunAll, Current, Presentable, Locate, Perform, Fold;
    var n := |sys.processes|;
    NoMoves(sys);
    var s1, m1 := StepRun(sys, [], Spawn(c));
    var s2, m2 := StepRun(sys, m1, Spawn(c));
    var r1, s3, t := RunToAdapter(s2, n, s, c, x);
    RunAllSplits(sys, m2, r1);
    var r2, s4, u := RunToAdapter(s3, n + 1, t, c, x);
    RunAllSplits(sys, m2 + r1, r2);
    PresentableLocated(t, c);
    PresentableLocated(u, c);
    SameLedger(s4.ledger);
    var s5, m5 := StepRun(sys, m2 + r1 + r2, Run(n, x));
    var m6;
    end, m6 := StepRun(sys, m5, Run(n + 1, x));
    moves := m6;
  }
}
