/** What the reducer keeps about effects over every replayable ledger: attempts only advance,
    resolved requests are closed, and an applied effect command stays applied. */
module EffectLifecycle {
  import opened Sequences
  import opened InquiryModel
  import opened Transitions

  // ------------------------------------------------------------ monotone growth

  datatype Phase = Planned | Started | Terminal

  function PhaseOf(a: Attempt): Phase {
    if a.outcome.Some? then Terminal else if a.start.Some? then Started else Planned
  }

  predicate NotBefore(p: Phase, q: Phase) { p.Planned? || q.Terminal? || p == q }

  /** The plan is fixed; start metadata and the outcome are fixed once present. */
  predicate AttemptMoves(a: Attempt, b: Attempt) {
    b.plan == a.plan && (a.start.Some? ==> b.start == a.start) && (a.outcome.Some? ==> b.outcome == a.outcome)
  }

  /** Records only grow; an accepted request gains no attempt, start or no-attempt disposition. */
  predicate RequestMoves(r: RequestState, q: RequestState) {
    && q.request == r.request
    && |r.attempts| <= |q.attempts|
    && (forall k :: 0 <= k < |r.attempts| ==> AttemptMoves(r.attempts[k], q.attempts[k]))
    && r.noAttempts <= q.noAttempts && r.decodes <= q.decodes
    && (r.accepted.Some? ==> Closed(r, q))
  }

  predicate Closed(r: RequestState, q: RequestState) {
    && q.accepted == r.accepted && q.noAttempts == r.noAttempts && |q.attempts| == |r.attempts|
    && (forall k :: 0 <= k < |r.attempts| ==> q.attempts[k].start == r.attempts[k].start)
  }

  predicate RequestsMove(rs: seq<RequestState>, qs: seq<RequestState>) {
    |rs| <= |qs| && forall i :: 0 <= i < |rs| ==> RequestMoves(rs[i], qs[i])
  }

  predicate Moves(s: Inquiry, t: Inquiry) {
    && t.id == s.id && t.manifest == s.manifest && t.context == s.context
    && s.plans <= t.plans && s.claims <= t.claims && s.conflicts <= t.conflicts
    && s.obligations <= t.obligations && s.dispositions <= t.dispositions
    && s.guards <= t.guards && s.warrants <= t.warrants
    && RequestsMove(s.requests, t.requests)
  }

  /** The aggregate rules and the one identity rule only the reducer enforces. */
  predicate Sound(s: Inquiry) {
    Lifecycle(s) && DistinctKeys(Flatten(s.requests, NoAttempts), NoAttemptId)
  }

  lemma RequestMovesTransitive(a: RequestState, b: RequestState, c: RequestState)
    requires RequestMoves(a, b) && RequestMoves(b, c)
    ensures RequestMoves(a, c)
  {
    forall k | 0 <= k < |a.attempts| ensures AttemptMoves(a.attempts[k], c.attempts[k]) {
      assert AttemptMoves(a.attempts[k], b.attempts[k]) && AttemptMoves(b.attempts[k], c.attempts[k]);
    }
  }

  lemma MovesTransitive(a: Inquiry, b: Inquiry, c: Inquiry)
    requires Moves(a, b) && Moves(b, c)
    ensures Moves(a, c)
  {
    forall i | 0 <= i < |a.requests| ensures RequestMoves(a.requests[i], c.requests[i]) {
      RequestMovesTransitive(a.requests[i], b.requests[i], c.requests[i]);
    }
  }

  lemma MovesReflexive(s: Inquiry)
    ensures Moves(s, s)
  {}

  // ------------------------------------------------------------ one reduction

  /** Replacing one owned request moves the aggregate when the request itself moves. */
  lemma ReplaceMoves(s: Inquiry, i: nat, q: RequestState)
    requires DistinctKeys(s.requests, RequestId) && i < |s.requests|
    requires RequestMoves(s.requests[i], q)
    ensures ReplaceRequest(s.requests, q) == s.requests[i := q]
    ensures Moves(s, WithRequest(s, q))
  {
    forall k | 0 <= k < |s.requests| ensures ReplaceRequest(s.requests, q)[k] == s.requests[i := q][k] {
      assert k != i ==> RequestId(s.requests[k]) != RequestId(s.requests[i]);
    }
    assert ReplaceRequest(s.requests, q) == s.requests[i := q];
  }

  /** A reducer step on one request only moves it forward. */
  lemma AdvanceMoves(s: Inquiry, r: RequestState, c: Command)
    requires c.action.Effect() && !c.action.RequestEffect? && RequestRules(r)
    requires Advance(s, r, c).Some?
    ensures RequestMoves(r, Advance(s, r, c).value)
  {
    hide Flatten, Captured, Returns;
    var q := Advance(s, r, c).value;
    if c.action.StartAttempt? {
      var a := FindBy(r.attempts, AttemptId, c.action.attemptId).value;
      forall k | 0 <= k < |r.attempts| ensures AttemptMoves(r.attempts[k], q.attempts[k]) {
        assert r.attempts[k] in r.attempts;
        OnlyOne(r.attempts, AttemptId, r.attempts[k], a);
      }
    } else if c.action.RecordOutcome? {
      var a := FindBy(r.attempts, AttemptId, c.action.outcome.attemptId).value;
      forall k | 0 <= k < |r.attempts| ensures AttemptMoves(r.attempts[k], q.attempts[k]) {
        OnlyOne(r.attempts, AttemptId, r.attempts[k], a);
      }
    }
  }

  lemma OnlyOne<T>(s: seq<T>, key: T -> Id, x: T, y: T)
    requires DistinctKeys(s, key) && x in s && y in s
    ensures key(x) == key(y) ==> x == y
  {
    FindUnique(s, key, x);
    FindUnique(s, key, y);
  }

  lemma AdvanceKeepsRequest(s: Inquiry, r: RequestState, c: Command)
    requires c.action.Effect() && !c.action.RequestEffect? && Advance(s, r, c).Some?
    ensures Advance(s, r, c).value.request == r.request
  {}

  lemma EffectStepMoves(s: Inquiry, c: Command)
    requires Lifecycle(s) && c.action.Effect() && EffectStep(s, c).Some?
    ensures Moves(s, EffectStep(s, c).value)
  {
    hide Advance, Target, RecordRules, RequestRules;
    if !c.action.RequestEffect? {
      var r := Target(s, c.action).value;
      var i :| 0 <= i < |s.requests| && s.requests[i] == r;
      AdvanceMoves(s, r, c);
      ReplaceMoves(s, i, Advance(s, r, c).value);
    }
  }

  /** Every reduction moves an aggregate forward. */
  lemma EvolveMoves(s: Inquiry, e: Event, t: Inquiry)
    requires Lifecycle(s) && Evolve(Active(s), e) == Some(Active(t))
    ensures Moves(s, t) && Lifecycle(t)
  {
    hide Lifecycle, Decide, EffectStep;
    if e.command.action.Effect() {
      EffectStepMoves(s, e.command);
    } else {
      MovesReflexive(s);
    }
  }

  // ------------------------------------------------------------ identities stay distinct

  /** Items distinct inside each request and across any two have distinct identities overall. */
  lemma {:induction false} FlattenDistinct<T>(rs: seq<RequestState>, part: RequestState -> seq<T>, key: T -> Id)
    requires forall i :: 0 <= i < |rs| ==> DistinctKeys(part(rs[i]), key)
    requires forall i, j, x, y {:trigger x in part(rs[i]), y in part(rs[j])} ::
               0 <= i < j < |rs| && x in part(rs[i]) && y in part(rs[j]) ==> key(x) != key(y)
    ensures DistinctKeys(Flatten(rs, part), key)
  {
    if rs != [] {
      var head, rest := part(rs[0]), rs[1..];
      forall i, j, x, y | 0 <= i < j < |rest| && x in part(rest[i]) && y in part(rest[j]) ensures key(x) != key(y) {
        assert x in part(rs[i+1]) && y in part(rs[j+1]);
      }
      FlattenDistinct(rest, part, key);
      var tail := Flatten(rest, part);
      forall y | y in tail ensures forall x :: x in head ==> key(x) != key(y) {
        FlattenHas(rest, part, y);
        var j :| 0 <= j < |rest| && y in part(rest[j]);
        assert y in part(rs[j+1]);
      }
      AppendDistinct(head, tail, key);
    }
  }

  lemma AppendDistinct<T>(head: seq<T>, tail: seq<T>, key: T -> Id)
    requires DistinctKeys(head, key) && DistinctKeys(tail, key)
    requires forall x, y :: x in head && y in tail ==> key(x) != key(y)
    ensures DistinctKeys(head + tail, key)
  {
    var all := head + tail;
    forall i, j | 0 <= i < j < |all| ensures key(all[i]) != key(all[j]) {
      assert i < |head| <= j ==> all[i] in head && all[j] in tail;
    }
  }

  lemma ItemOf<T>(rs: seq<RequestState>, part: RequestState -> seq<T>, key: T -> Id, i: nat, x: T)
    requires i < |rs| && x in part(rs[i]) && DistinctKeys(Flatten(rs, part), key)
    ensures FindBy(Flatten(rs, part), key, key(x)) == Some(x)
  {
    FlattenHas(rs, part, x);
    FindUnique(Flatten(rs, part), key, x);
  }

  lemma HolderOf<T>(rs: seq<RequestState>, part: RequestState -> seq<T>, key: T -> Id, id: Id) returns (r: RequestState)
    requires FindBy(Flatten(rs, part), key, id).Some?
    ensures r in rs && FindBy(Flatten(rs, part), key, id).value in part(r)
  {
    var x := FindBy(Flatten(rs, part), key, id).value;
    FlattenHas(rs, part, x);
    var i :| 0 <= i < |rs| && x in part(rs[i]);
    r := rs[i];
  }

  // ------------------------------------------------------------ what is already recorded

  /** The request the command names is there, under the plan it names. */
  predicate Addressed(r: RequestState, a: Action)
    requires a.Effect()
  {
    match a
    case RequestEffect(_) => true
    case PlanAttempt(p) => r.request.id == p.requestId
    case StartAttempt(_) => true
    case RecordNoAttempt(d) => r.request.id == d.requestId && r.request.stepPlanId == d.stepPlanId
    case RecordOutcome(id, _) => r.request.id == id
    case RecordDecode(id, _) => r.request.id == id
    case AcceptResult(id, _) => r.request.id == id
  }

  /** The request holds exactly what the command would record. */
  predicate Holds(r: RequestState, a: Action)
    requires a.Effect()
  {
    match a
    case RequestEffect(q) => r.request == q
    case PlanAttempt(p) => exists x :: x in r.attempts && x.plan == p
    case StartAttempt(id) => exists x :: x in r.attempts && x.plan.id == id && x.start.Some?
    case RecordNoAttempt(d) => d in r.noAttempts
    case RecordOutcome(id, o) =>
      r.request.id == id && exists x :: x in r.attempts && Ends(x, o)
    case RecordDecode(_, d) => d in r.decodes
    case AcceptResult(id, d) => r.request.id == id && r.accepted == Some(d)
  }

  predicate Ends(x: Attempt, o: Outcome) {
    x.plan.id == o.attemptId && x.plan.route.id == o.routeId && x.start.Some? && x.outcome == Some(o)
  }

  predicate Recorded(s: Inquiry, a: Action)
    requires a.Effect()
  {
    (exists r :: r in s.requests && Addressed(r, a)) && (exists r :: r in s.requests && Holds(r, a))
  }

  lemma AttemptKept(r: RequestState, q: RequestState, x: Attempt) returns (y: Attempt)
    requires RequestMoves(r, q) && x in r.attempts
    ensures y in q.attempts && AttemptMoves(x, y)
  {
    var k :| 0 <= k < |r.attempts| && r.attempts[k] == x;
    y := q.attempts[k];
  }

  lemma HoldsMoves(r: RequestState, q: RequestState, a: Action)
    requires a.Effect() && RequestMoves(r, q) && Holds(r, a)
    ensures Holds(q, a)
  {
    match a
    case PlanAttempt(p) =>
      var x :| x in r.attempts && x.plan == p;
      var _ := AttemptKept(r, q, x);
    case StartAttempt(id) =>
      var x :| x in r.attempts && x.plan.id == id && x.start.Some?;
      var _ := AttemptKept(r, q, x);
    case RecordOutcome(_, o) =>
      var x :| x in r.attempts && Ends(x, o);
      var y := AttemptKept(r, q, x);
      assert Ends(y, o);
    case _ =>
  }

  lemma RequestKept(s: Inquiry, t: Inquiry, r: RequestState) returns (q: RequestState)
    requires Moves(s, t) && r in s.requests
    ensures q in t.requests && RequestMoves(r, q)
  {
    var i :| 0 <= i < |s.requests| && s.requests[i] == r;
    q := t.requests[i];
  }

  /** What is recorded stays recorded. */
  lemma RecordedMoves(s: Inquiry, t: Inquiry, a: Action)
    requires a.Effect() && Moves(s, t) && Recorded(s, a)
    ensures Recorded(t, a)
  {
    hide Moves, Holds;
    var r :| r in s.requests && Addressed(r, a);
    var q := RequestKept(s, t, r);
    assert Addressed(q, a);
    var r' :| r' in s.requests && Holds(r', a);
    var q' := RequestKept(s, t, r');
    HoldsMoves(r', q', a);
  }

  lemma SoundRules(s: Inquiry)
    requires Sound(s)
    ensures EffectRules(s) && RecordRules(s)
  {}

  lemma RequestFound(s: Inquiry, r: RequestState)
    requires EffectRules(s) && r in s.requests
    ensures FindBy(s.requests, RequestId, r.request.id) == Some(r)
  {
    FindUnique(s.requests, RequestId, r);
  }

  lemma KnownPlanAttempt(s: Inquiry, p: AttemptPlan)
    requires Sound(s)
    ensures JudgeAttemptPlan(s, p).Known? <==> Recorded(s, PlanAttempt(p))
  {
    hide Lifecycle, Flatten, RequestRules;
    var a := PlanAttempt(p);
    SoundRules(s);
    if JudgeAttemptPlan(s, p).Known? {
      var r := HolderOf(s.requests, Attempts, AttemptId, p.id);
      assert Holds(r, a);
      assert Addressed(FindBy(s.requests, RequestId, p.requestId).value, a);
    }
    if Recorded(s, a) {
      var r :| r in s.requests && Addressed(r, a);
      RequestFound(s, r);
      var h :| h in s.requests && Holds(h, a);
      var i :| 0 <= i < |s.requests| && s.requests[i] == h;
      var x :| x in h.attempts && x.plan == p;
      ItemOf(s.requests, Attempts, AttemptId, i, x);
    }
  }

  lemma KnownStart(s: Inquiry, id: Id)
    requires Sound(s)
    ensures JudgeStart(s, id).Known? <==> Recorded(s, StartAttempt(id))
  {
    hide Lifecycle, RequestRules;
    var a := StartAttempt(id);
    SoundRules(s);
    if JudgeStart(s, id).Known? {
      var r := Containing(s.requests, id).value;
      assert Addressed(r, a) && Holds(r, a);
    }
    if Recorded(s, a) {
      var h :| h in s.requests && Holds(h, a);
      var x :| x in h.attempts && x.plan.id == id && x.start.Some?;
      var r := Containing(s.requests, id).value;
      var y := FindBy(r.attempts, AttemptId, id).value;
      SameAttempt(s, h, x, r, y);
    }
  }

  /** An attempt identity belongs to one attempt of one request. */
  lemma SameAttempt(s: Inquiry, r: RequestState, x: Attempt, q: RequestState, y: Attempt)
    requires EffectRules(s) && r in s.requests && q in s.requests
    requires x in r.attempts && y in q.attempts && x.plan.id == y.plan.id
    ensures r == q && x == y
  {
    var i :| 0 <= i < |s.requests| && s.requests[i] == r;
    var j :| 0 <= j < |s.requests| && s.requests[j] == q;
    assert x in Attempts(s.requests[i]) && y in Attempts(s.requests[j]);
    FlattenUnique(s.requests, Attempts, AttemptId, i, j, x, y);
  }

  lemma KnownNoAttempt(s: Inquiry, d: NoAttempt)
    requires Sound(s)
    ensures JudgeNoAttempt(s, d).Known? <==> Recorded(s, RecordNoAttempt(d))
  {
    hide Lifecycle, Flatten, RequestRules, Captured;
    var a := RecordNoAttempt(d);
    SoundRules(s);
    if JudgeNoAttempt(s, d).Known? {
      var r := HolderOf(s.requests, NoAttempts, NoAttemptId, d.id);
      assert Holds(r, a);
      assert Addressed(FindBy(s.requests, RequestId, d.requestId).value, a);
    }
    if Recorded(s, a) {
      var r :| r in s.requests && Addressed(r, a);
      RequestFound(s, r);
      var h :| h in s.requests && Holds(h, a);
      var i :| 0 <= i < |s.requests| && s.requests[i] == h;
      ItemOf(s.requests, NoAttempts, NoAttemptId, i, d);
    }
  }

  lemma KnownOutcome(s: Inquiry, id: Id, o: Outcome)
    requires Sound(s)
    ensures JudgeOutcome(s, id, o).Known? <==> Recorded(s, RecordOutcome(id, o))
  {
    hide Lifecycle, Flatten;
    var a := RecordOutcome(id, o);
    SoundRules(s);
    if JudgeOutcome(s, id, o).Known? {
      var r := FindBy(s.requests, RequestId, id).value;
      var x := FindBy(r.attempts, AttemptId, o.attemptId).value;
      assert Ends(x, o);
      assert Addressed(r, a) && Holds(r, a);
    }
    if Recorded(s, a) {
      var h :| h in s.requests && Holds(h, a);
      RequestFound(s, h);
      var x :| x in h.attempts && Ends(x, o);
      assert RequestRules(h);
      FindUnique(h.attempts, AttemptId, x);
    }
  }

  lemma KnownDecode(s: Inquiry, id: Id, d: Decode)
    requires Sound(s)
    ensures JudgeDecode(s, id, d).Known? <==> Recorded(s, RecordDecode(id, d))
  {
    hide Lifecycle, Flatten, RequestRules, Captured;
    var a := RecordDecode(id, d);
    SoundRules(s);
    if JudgeDecode(s, id, d).Known? {
      var r := HolderOf(s.requests, Decodes, DecodeId, d.id);
      assert Holds(r, a);
      assert Addressed(FindBy(s.requests, RequestId, id).value, a);
    }
    if Recorded(s, a) {
      var r :| r in s.requests && Addressed(r, a);
      RequestFound(s, r);
      var h :| h in s.requests && Holds(h, a);
      var i :| 0 <= i < |s.requests| && s.requests[i] == h;
      ItemOf(s.requests, Decodes, DecodeId, i, d);
    }
  }

  lemma KnownRequest(s: Inquiry, q: Request)
    requires Sound(s)
    ensures JudgeRequest(s, q).Known? <==> Recorded(s, RequestEffect(q))
  {
    hide Lifecycle, RequestRules;
    var a := RequestEffect(q);
    SoundRules(s);
    if JudgeRequest(s, q).Known? {
      var r := FindBy(s.requests, RequestId, q.id).value;
      assert Addressed(r, a) && Holds(r, a);
    }
    if Recorded(s, a) {
      var h :| h in s.requests && Holds(h, a);
      RequestFound(s, h);
    }
  }

  lemma KnownAccept(s: Inquiry, id: Id, d: Id)
    requires Sound(s)
    ensures JudgeAccept(s, id, d).Known? <==> Recorded(s, AcceptResult(id, d))
  {
    hide Lifecycle, RequestRules;
    var a := AcceptResult(id, d);
    SoundRules(s);
    if JudgeAccept(s, id, d).Known? {
      var r := FindBy(s.requests, RequestId, id).value;
      assert Addressed(r, a) && Holds(r, a);
    }
    if Recorded(s, a) {
      var h :| h in s.requests && Holds(h, a);
      RequestFound(s, h);
    }
  }

  /** A decision yields no event exactly when the aggregate already holds the command's record. */
  lemma KnownMeansRecorded(s: Inquiry, a: Action)
    requires Sound(s) && a.Effect()
    ensures Judge(s, a).Known? <==> Recorded(s, a)
  {
    hide Sound, Recorded, JudgeRequest, JudgeAttemptPlan, JudgeStart, JudgeNoAttempt, JudgeOutcome, JudgeDecode,
      JudgeAccept;
    match a
    case RequestEffect(q) => KnownRequest(s, q);
    case PlanAttempt(p) => KnownPlanAttempt(s, p);
    case StartAttempt(id) => KnownStart(s, id);
    case RecordNoAttempt(d) => KnownNoAttempt(s, d);
    case RecordOutcome(id, o) => KnownOutcome(s, id, o);
    case RecordDecode(id, d) => KnownDecode(s, id, d);
    case AcceptResult(id, d) => KnownAccept(s, id, d);
  }

  // ------------------------------------------------------------ soundness along a ledger

  lemma TargetAt(s: Inquiry, c: Command) returns (i: nat, q: RequestState)
    requires EffectRules(s) && c.action.Effect() && !c.action.RequestEffect? && EffectStep(s, c).Some?
    ensures i < |s.requests| && Some(s.requests[i]) == Target(s, c.action)
    ensures Advance(s, s.requests[i], c) == Some(q) && RequestMoves(s.requests[i], q)
    ensures EffectStep(s, c) == Some(WithRequest(s, q)) && WithRequest(s, q).requests == s.requests[i := q]
  {
    hide Advance, Target, RequestRules, Flatten;
    var r := Target(s, c.action).value;
    i :| 0 <= i < |s.requests| && s.requests[i] == r;
    q := Advance(s, r, c).value;
    AdvanceMoves(s, r, c);
    ReplaceMoves(s, i, q);
  }

  lemma OldOrNew(s: Inquiry, c: Command, t: Inquiry, k: nat, x: NoAttempt)
    requires EffectRules(s) && c.action.Effect() && EffectStep(s, c) == Some(t)
    requires k < |t.requests| && x in t.requests[k].noAttempts
    ensures (k < |s.requests| && x in s.requests[k].noAttempts)
            || (c.action.RecordNoAttempt? && x == c.action.noAttempt
                && FindBy(Flatten(s.requests, NoAttempts), NoAttemptId, x.id).None?
                && k < |s.requests| && Target(s, c.action) == Some(s.requests[k]))
  {
    hide EffectRules, Flatten, Captured;
    if !c.action.RequestEffect? {
      var i, q := TargetAt(s, c);
    }
  }

  lemma NoAttemptsStayDistinct(s: Inquiry, c: Command, t: Inquiry)
    requires Sound(s) && c.action.Effect() && EffectStep(s, c) == Some(t) && Lifecycle(t)
    ensures DistinctKeys(Flatten(t.requests, NoAttempts), NoAttemptId)
  {
    hide EffectStep, Lifecycle, Target, RequestRules;
    SoundRules(s);
    forall i | 0 <= i < |t.requests| ensures DistinctKeys(NoAttempts(t.requests[i]), NoAttemptId) {
      RulesOf(t, t.requests[i]);
    }
    forall i, j, x, y | 0 <= i < j < |t.requests| && x in NoAttempts(t.requests[i]) && y in NoAttempts(t.requests[j])
      ensures NoAttemptId(x) != NoAttemptId(y)
    {
      OldOrNew(s, c, t, i, x);
      OldOrNew(s, c, t, j, y);
      PairDistinct(s, i, j, x, y);
    }
    FlattenDistinct(t.requests, NoAttempts, NoAttemptId);
  }

  lemma PairDistinct(s: Inquiry, i: nat, j: nat, x: NoAttempt, y: NoAttempt)
    requires Sound(s) && i < j < |s.requests|
    ensures x in s.requests[i].noAttempts && y in s.requests[j].noAttempts ==> x.id != y.id
    ensures x in s.requests[i].noAttempts && FindBy(Flatten(s.requests, NoAttempts), NoAttemptId, y.id).None? ==>
        x.id != y.id
    ensures y in s.requests[j].noAttempts && FindBy(Flatten(s.requests, NoAttempts), NoAttemptId, x.id).None? ==>
        x.id != y.id
    ensures s.requests[i] != s.requests[j]
  {
    hide Lifecycle, Flatten;
    SoundRules(s);
    FlattenHas(s.requests, NoAttempts, x);
    FlattenHas(s.requests, NoAttempts, y);
    assert x in s.requests[i].noAttempts ==> x in NoAttempts(s.requests[i]);
    assert y in s.requests[j].noAttempts ==> y in NoAttempts(s.requests[j]);
    if x in s.requests[i].noAttempts && y in s.requests[j].noAttempts && x.id == y.id {
      FlattenUnique(s.requests, NoAttempts, NoAttemptId, i, j, x, y);
    }
    assert RequestId(s.requests[i]) != RequestId(s.requests[j]);
  }

  lemma RulesOf(s: Inquiry, r: RequestState)
    requires Lifecycle(s) && r in s.requests
    ensures RequestRules(r) && EffectRules(s)
  {}

  lemma EvolveSound(s: Inquiry, e: Event, t: Inquiry)
    requires Sound(s) && Evolve(Active(s), e) == Some(Active(t))
    ensures Moves(s, t) && Sound(t)
  {
    hide Lifecycle, Decide, EffectStep, Moves;
    EvolveMoves(s, e, t);
    if e.command.action.Effect() { NoAttemptsStayDistinct(s, e.command, t); }
  }

  lemma StartSound(e: Event, t: Inquiry)
    requires Evolve(Unstarted, e) == Some(Active(t))
    ensures Sound(t)
  {}

  /** Over any run of the reducer, soundness is kept and every record only moves forward. */
  lemma {:induction false} FoldMoves(s: Inquiry, events: seq<Event>, t: Inquiry)
    requires Sound(s) && Fold(Active(s), events) == Some(Active(t))
    ensures Moves(s, t) && Sound(t)
    decreases events
  {
    hide Moves, Sound, Evolve;
    if events == [] {
      MovesReflexive(s);
    } else {
      var mid := Evolve(Active(s), events[0]).value;
      EvolveActive(Active(s), events[0]);
      EvolveSound(s, events[0], mid.inquiry);
      FoldMoves(mid.inquiry, events[1..], t);
      MovesTransitive(s, mid.inquiry, t);
    }
  }

  lemma EvolveActive(a: Aggregate, e: Event)
    requires Evolve(a, e).Some?
    ensures Evolve(a, e).value.Active?
  {}

  /** Every reachable aggregate is sound. */
  lemma LedgerSound(events: seq<Event>, s: Inquiry)
    requires Fold(Unstarted, events) == Some(Active(s))
    ensures Sound(s)
  {
    hide Sound, Evolve;
    var first := Evolve(Unstarted, events[0]).value;
    EvolveActive(Unstarted, events[0]);
    StartSound(events[0], first.inquiry);
    FoldMoves(first.inquiry, events[1..], s);
  }

  /** Two points of one ledger: the later aggregate extends the earlier one. */
  lemma LedgerMoves(first: seq<Event>, s: Inquiry, second: seq<Event>, t: Inquiry)
    requires Fold(Unstarted, first) == Some(Active(s))
    requires Fold(Unstarted, first + second) == Some(Active(t))
    ensures Moves(s, t) && Sound(s) && Sound(t)
  {
    hide Sound, Moves, Evolve;
    FoldSplits(Unstarted, first, second);
    LedgerSound(first, s);
    FoldMoves(s, second, t);
  }

  /** Attempts go through planned, started and ended in that order, and an outcome never changes. */
  lemma AttemptsOnlyAdvance(first: seq<Event>, s: Inquiry, second: seq<Event>, t: Inquiry, r: RequestState, a: Attempt)
    requires Fold(Unstarted, first) == Some(Active(s))
    requires Fold(Unstarted, first + second) == Some(Active(t))
    requires r in s.requests && a in r.attempts
    ensures exists q, b :: q in t.requests && b in q.attempts && b.plan == a.plan && q.request == r.request
              && NotBefore(PhaseOf(a), PhaseOf(b)) && (a.outcome.Some? ==> b.outcome == a.outcome)
              && (r.accepted.Some? ==> |q.attempts| == |r.attempts| && b.start == a.start && q.accepted == r.accepted)
  {
    hide Fold, Evolve, Sound, Lifecycle;
    LedgerMoves(first, s, second, t);
    var i :| 0 <= i < |s.requests| && s.requests[i] == r;
    var k :| 0 <= k < |r.attempts| && r.attempts[k] == a;
    var q := t.requests[i];
    AttemptRulesOf(s, r, a);
    AttemptRulesOf(t, q, q.attempts[k]);
    assert AttemptMoves(a, q.attempts[k]);
  }

  lemma AttemptRulesOf(s: Inquiry, r: RequestState, a: Attempt)
    requires Sound(s) && r in s.requests && a in r.attempts
    ensures AttemptRules(a)
  {
    SoundRules(s);
    assert RequestRules(r);
  }

  /** Every decode of a reachable request reads a return that request captured, and an
      accepted result is one of its successful decodes. */
  lemma DecodesReadCapturedReturns(events: seq<Event>, s: Inquiry, r: RequestState, d: Decode)
    requires Fold(Unstarted, events) == Some(Active(s)) && r in s.requests && d in r.decodes
    ensures exists a :: a in r.attempts && a.start.Some? && a.outcome.Some? && a.outcome.value.Returned?
              && a.outcome.value.external.id == d.returnId
    ensures r.accepted == Some(d.id) ==> d.Decoded?
  {
    hide Fold;
    LedgerSound(events, s);
    RulesOf(s, r);
    var x :| x in Returns(r) && x.id == d.returnId;
    ReturnsHave(r.attempts, x);
    var a :| a in r.attempts && a.outcome.Some? && a.outcome.value.Returned? && a.outcome.value.external == x;
    assert AttemptRules(a);
    FindUnique(r.decodes, DecodeId, d);
  }

  /** A return is read only by decodes of the request that captured it. */
  lemma ReadersAreLocal(s: Inquiry, r: RequestState, q: RequestState, d: Decode)
    requires Sound(s) && r in s.requests && q in s.requests && d in q.decodes && Captured(r, d.returnId)
    ensures q == r
  {
    hide Lifecycle, Flatten, FindBy;
    SoundRules(s);
    RulesOf(s, q);
    var x :| x in Returns(r) && x.id == d.returnId;
    var y :| y in Returns(q) && y.id == d.returnId;
    var i :| 0 <= i < |s.requests| && s.requests[i] == r;
    var j :| 0 <= j < |s.requests| && s.requests[j] == q;
    FlattenUnique(s.requests, Returns, ReturnId, i, j, x, y);
  }

  lemma CapturedBy(r: RequestState, a: Attempt)
    requires a in r.attempts && a.outcome.Some? && a.outcome.value.Returned?
    ensures Captured(r, a.outcome.value.external.id)
  {
    ReturnsHave(r.attempts, a.outcome.value.external);
  }

  // ------------------------------------------------------------ idempotence

  lemma AdvanceHolds(s: Inquiry, r: RequestState, c: Command)
    requires c.action.Effect() && !c.action.RequestEffect? && RequestRules(r)
    requires Target(s, c.action) == Some(r) && Advance(s, r, c).Some?
    ensures Holds(Advance(s, r, c).value, c.action) && Addressed(Advance(s, r, c).value, c.action)
  {
    hide Flatten, Captured, RequestRules;
    var q := Advance(s, r, c).value;
    match c.action
    case PlanAttempt(p) => assert q.attempts[|r.attempts|] in q.attempts;
    case StartAttempt(id) =>
      var a := FindBy(r.attempts, AttemptId, id).value;
      var k :| 0 <= k < |r.attempts| && r.attempts[k] == a;
      assert q.attempts[k] in q.attempts;
    case RecordNoAttempt(d) => assert q.noAttempts[|r.noAttempts|] in q.noAttempts;
    case RecordOutcome(_, o) =>
      var a := FindBy(r.attempts, AttemptId, o.attemptId).value;
      var k :| 0 <= k < |r.attempts| && r.attempts[k] == a;
      assert q.attempts[k] in q.attempts && Ends(q.attempts[k], o);
    case RecordDecode(_, d) => assert q.decodes[|r.decodes|] in q.decodes;
    case AcceptResult(_, _) =>
  }

  /** Applying an effect event records exactly what its command asked for. */
  lemma AppliedIsRecorded(s: Inquiry, e: Event, t: Inquiry)
    requires Sound(s) && e.command.action.Effect() && Evolve(Active(s), e) == Some(Active(t))
    ensures Recorded(t, e.command.action)
  {
    hide Lifecycle, Advance, Target, Holds, Flatten, RequestRules;
    var c := e.command;
    SoundRules(s);
    if c.action.RequestEffect? {
      var r := t.requests[|s.requests|];
      assert r in t.requests && Addressed(r, c.action);
      NewRequestHolds(r, c.action);
    } else {
      var i, q := TargetAt(s, c);
      AdvanceHolds(s, s.requests[i], c);
      assert t.requests[i] == q;
      assert q in t.requests;
    }
  }

  lemma NewRequestHolds(r: RequestState, a: Action)
    requires a.RequestEffect? && r.request == a.request
    ensures Holds(r, a)
  {}

  /** Once a ledger has applied an effect command, deciding it again yields no events,
      whatever the event identity and time, in every later state of that ledger. */
  lemma AppliedCommandsAreIdempotent(before: seq<Event>, e: Event, after: seq<Event>, t: Inquiry, again: Command)
    requires e.command.action.Effect() && Fold(Unstarted, before + [e] + after) == Some(Active(t))
    requires again.action == e.command.action && again.inquiryId == t.id
    ensures Decide(Active(t), again) == Nothing
  {
    hide Fold, Evolve, Moves, Sound, Recorded, Judge;
    var s, u := AppliedAt(before, e, after, t);
    AppliedIsRecorded(s, e, u);
    RecordedMoves(u, t, again.action);
    KnownMeansRecorded(t, again.action);
  }

  /** The aggregates around one event of a replayable ledger. */
  lemma AppliedAt(before: seq<Event>, e: Event, after: seq<Event>, t: Inquiry) returns (s: Inquiry, u: Inquiry)
    requires e.command.action.Effect() && Fold(Unstarted, before + [e] + after) == Some(Active(t))
    ensures Fold(Unstarted, before) == Some(Active(s)) && Evolve(Active(s), e) == Some(Active(u))
    ensures Sound(s) && Sound(u) && Sound(t) && Moves(u, t)
    ensures Fold(Unstarted, before + [e]) == Some(Active(u))
  {
    hide Sound, Moves, Evolve;
    FoldSplits(Unstarted, before + [e], after);
    FoldLast(Unstarted, before, e);
    var a := Fold(Unstarted, before).value;
    OnlyStartsFirst(a, e);
    s := a.inquiry;
    EvolveActive(a, e);
    u := Evolve(a, e).value.inquiry;
    LedgerSound(before, s);
    LedgerMoves(before + [e], u, after, t);
  }

  lemma OnlyStartsFirst(a: Aggregate, e: Event)
    requires Evolve(a, e).Some? && e.command.action.Effect()
    ensures a.Active?
  {}

  /** Commands that exclude one another once the first is recorded. */
  predicate Rivals(a: Action, b: Action) {
    || (a.StartAttempt? && b.StartAttempt? && a.attemptId == b.attemptId)
    || (a.RecordOutcome? && b.RecordOutcome? && a.outcome.attemptId == b.outcome.attemptId)
    || (a.RecordDecode? && b.RecordDecode? && a.decode.id == b.decode.id)
    || (a.AcceptResult? && b.AcceptResult? && a.requestId == b.requestId)
    || (a.RecordNoAttempt? && b.RecordNoAttempt? && a.noAttempt.id == b.noAttempt.id)
  }

  lemma SecondStartRefused(t: Inquiry, id: Id, c: Command)
    requires Sound(t) && c.action == StartAttempt(id) && Recorded(t, c.action)
    ensures EffectStep(t, c).None?
  {
    hide Lifecycle, Flatten, RequestRules;
    SoundRules(t);
    var h :| h in t.requests && Holds(h, c.action);
    var x :| x in h.attempts && x.plan.id == id && x.start.Some?;
    var r := Containing(t.requests, id).value;
    SameAttempt(t, h, x, r, FindBy(r.attempts, AttemptId, id).value);
  }

  lemma SecondOutcomeRefused(t: Inquiry, a: Action, c: Command)
    requires Sound(t) && a.RecordOutcome? && c.action.RecordOutcome? && Rivals(a, c.action) && Recorded(t, a)
    ensures EffectStep(t, c).None?
  {
    hide Lifecycle, Flatten, RequestRules;
    SoundRules(t);
    var h :| h in t.requests && Holds(h, a);
    var x :| x in h.attempts && Ends(x, a.outcome);
    var r := FindBy(t.requests, RequestId, c.action.requestId);
    if r.Some? {
      var y := FindBy(r.value.attempts, AttemptId, c.action.outcome.attemptId);
      if y.Some? { SameAttempt(t, h, x, r.value, y.value); }
    }
  }

  lemma SecondDecodeRefused(t: Inquiry, a: Action, c: Command)
    requires Sound(t) && a.RecordDecode? && c.action.RecordDecode? && Rivals(a, c.action) && Recorded(t, a)
    ensures EffectStep(t, c).None?
  {
    hide Lifecycle, Flatten, RequestRules;
    SoundRules(t);
    var h :| h in t.requests && Holds(h, a);
    var i :| 0 <= i < |t.requests| && t.requests[i] == h;
    ItemOf(t.requests, Decodes, DecodeId, i, a.decode);
  }

  lemma SecondAcceptRefused(t: Inquiry, a: Action, c: Command)
    requires Sound(t) && a.AcceptResult? && c.action.AcceptResult? && Rivals(a, c.action) && Recorded(t, a)
    ensures EffectStep(t, c).None?
  {
    hide Lifecycle, Flatten, RequestRules;
    SoundRules(t);
    var h :| h in t.requests && Holds(h, a);
    RequestFound(t, h);
  }

  lemma SecondRefusalRefused(t: Inquiry, a: Action, c: Command)
    requires Sound(t) && a.RecordNoAttempt? && c.action.RecordNoAttempt? && Rivals(a, c.action) && Recorded(t, a)
    ensures EffectStep(t, c).None?
  {
    hide Lifecycle;
    var h :| h in t.requests && Holds(h, a);
    FlattenHas(t.requests, NoAttempts, a.noAttempt);
    assert NoAttemptId(a.noAttempt) == a.noAttempt.id;
  }

  lemma RivalRefused(t: Inquiry, a: Action, c: Command)
    requires Sound(t) && a.Effect() && c.action.Effect() && Rivals(a, c.action) && Recorded(t, a)
    ensures EffectStep(t, c).None?
  {
    hide Sound, Recorded, EffectStep;
    match a
    case StartAttempt(id) => SecondStartRefused(t, id, c);
    case RecordOutcome(_, _) => SecondOutcomeRefused(t, a, c);
    case RecordDecode(_, _) => SecondDecodeRefused(t, a, c);
    case AcceptResult(_, _) => SecondAcceptRefused(t, a, c);
    case RecordNoAttempt(_) => SecondRefusalRefused(t, a, c);
  }

  /** A replayable ledger holds at most one start and one outcome for an attempt, one decode and
      one refusal disposition for an identity and one accepted result for a request. */
  lemma {:induction false} AtMostOneOfEach(events: seq<Event>, t: Inquiry, i: nat, j: nat)
    requires Fold(Unstarted, events) == Some(Active(t)) && i < j < |events|
    requires events[i].command.action.Effect() && events[j].command.action.Effect()
    ensures !Rivals(events[i].command.action, events[j].command.action)
  {
    hide Fold, Evolve, Moves, Sound, Recorded, EffectStep, Rivals;
    var a, b := events[i], events[j];
    var before, between, after := events[..i], events[i+1..j], events[j+1..];
    assert events == (before + [a] + between) + [b] + after;
    var s, u := AppliedAt(before + [a] + between, b, after, t);
    var p, q := AppliedAt(before, a, between, s);
    AppliedIsRecorded(p, a, q);
    RecordedMoves(q, s, a.command.action);
    AppliedSteps(s, b, u);
    if Rivals(a.command.action, b.command.action) { RivalRefused(s, a.command.action, b.command); }
  }

  lemma AppliedSteps(s: Inquiry, e: Event, t: Inquiry)
    requires e.command.action.Effect() && Evolve(Active(s), e) == Some(Active(t))
    ensures EffectStep(s, e.command) == Some(t)
  {}
}
