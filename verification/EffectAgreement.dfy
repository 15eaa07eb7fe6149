/** Where the decider and the reducer agree about effects: the reducer accepts what the decider
    emits except when an accepted result identity repeats, and conversely. */
module EffectAgreement {
  import opened Sequences
  import opened InquiryModel
  import opened Transitions
  import opened EffectLifecycle

  // ------------------------------------------------------------ the reducer accepts the decider

  /** Replacing one request keeps identities distinct when its items are old or fresh. */
  lemma ReplaceDistinct<T>(rs: seq<RequestState>, i: nat, q: RequestState, part: RequestState -> seq<T>, key: T -> Id)
    requires i < |rs| && DistinctKeys(Flatten(rs, part), key) && DistinctKeys(part(q), key)
    requires forall y :: y in part(q) ==>
               (exists x :: x in part(rs[i]) && key(x) == key(y)) || FindBy(Flatten(rs, part), key, key(y)).None?
    ensures DistinctKeys(Flatten(rs[i := q], part), key)
  {
    hide DistinctKeys;
    var qs := rs[i := q];
    forall k | 0 <= k < |qs| ensures DistinctKeys(part(qs[k]), key) {
      if k != i { PartDistinct(rs, part, key, k); }
    }
    forall a, b, x, y | 0 <= a < b < |qs| && x in part(qs[a]) && y in part(qs[b]) ensures key(x) != key(y) {
      if a == i {
        OtherKey(rs, i, part, key, x, b, y);
      } else if b == i {
        OtherKey(rs, i, part, key, y, a, x);
      } else {
        OldKeys(rs, part, key, a, b, x, y);
      }
    }
    FlattenDistinct(qs, part, key);
  }

  lemma PartDistinct<T>(rs: seq<RequestState>, part: RequestState -> seq<T>, key: T -> Id, k: nat)
    requires k < |rs| && DistinctKeys(Flatten(rs, part), key)
    ensures DistinctKeys(part(rs[k]), key)
    decreases rs
  {
    var head, tail := part(rs[0]), Flatten(rs[1..], part);
    var all := head + tail;
    if k == 0 {
      forall i, j | 0 <= i < j < |head| ensures key(head[i]) != key(head[j]) {
        assert all[i] == head[i] && all[j] == head[j];
      }
    } else {
      forall i, j | 0 <= i < j < |tail| ensures key(tail[i]) != key(tail[j]) {
        assert all[|head| + i] == tail[i] && all[|head| + j] == tail[j];
      }
      PartDistinct(rs[1..], part, key, k - 1);
    }
  }

  lemma OldKeys<T>(rs: seq<RequestState>, part: RequestState -> seq<T>, key: T -> Id, a: nat, b: nat, x: T, y: T)
    requires a < |rs| && b < |rs| && a != b && x in part(rs[a]) && y in part(rs[b])
    requires DistinctKeys(Flatten(rs, part), key)
    ensures key(x) != key(y)
  {
    if key(x) == key(y) { FlattenUnique(rs, part, key, a, b, x, y); }
  }

  lemma OtherKey<T>(rs: seq<RequestState>, i: nat, part: RequestState -> seq<T>, key: T -> Id, x: T, b: nat, y: T)
    requires i < |rs| && b < |rs| && i != b && y in part(rs[b]) && DistinctKeys(Flatten(rs, part), key)
    requires (exists o :: o in part(rs[i]) && key(o) == key(x)) || FindBy(Flatten(rs, part), key, key(x)).None?
    ensures key(x) != key(y)
  {
    if o :| o in part(rs[i]) && key(o) == key(x) {
      OldKeys(rs, part, key, i, b, o, y);
    } else {
      FlattenHas(rs, part, y);
    }
  }

  /** The four identity rules across requests. */
  predicate CrossRules(rs: seq<RequestState>) {
    && DistinctKeys(Flatten(rs, Attempts), AttemptId)
    && DistinctKeys(Flatten(rs, Returns), ReturnId)
    && DistinctKeys(Flatten(rs, Decodes), DecodeId)
    && DistinctKeys(Flatten(rs, AcceptedResult), ResultId)
  }

  /** An item list that is the old one, or the old one and one fresh item. */
  predicate Grown<T(==)>(rs: seq<RequestState>, before: seq<T>, after: seq<T>,
    part: RequestState -> seq<T>, key: T -> Id) {
    after == before
    || (|after| == |before| + 1 && after[..|before|] == before
        && FindBy(Flatten(rs, part), key, key(after[|before|])).None?)
  }

  lemma GrownDistinct<T>(rs: seq<RequestState>, i: nat, q: RequestState, part: RequestState -> seq<T>, key: T -> Id)
    requires i < |rs| && DistinctKeys(Flatten(rs, part), key) && Grown(rs, part(rs[i]), part(q), part, key)
    ensures DistinctKeys(Flatten(rs[i := q], part), key) && DistinctKeys(part(q), key)
  {
    var before, after := part(rs[i]), part(q);
    PartDistinct(rs, part, key, i);
    if after != before {
      var x := after[|before|];
      assert after == before + [x];
      forall o | o in before ensures key(o) != key(x) {
        FlattenHas(rs, part, o);
      }
      AppendDistinct(before, [x], key);
    }
    ReplaceDistinct(rs, i, q, part, key);
  }

  /** Attempt replacement keeps the list of attempt identities. */
  lemma SameIdsDistinct(rs: seq<RequestState>, i: nat, q: RequestState)
    requires i < |rs| && DistinctKeys(Flatten(rs, Attempts), AttemptId) && |q.attempts| == |rs[i].attempts|
    requires forall k :: 0 <= k < |q.attempts| ==> q.attempts[k].plan == rs[i].attempts[k].plan
    ensures DistinctKeys(Flatten(rs[i := q], Attempts), AttemptId) && DistinctKeys(q.attempts, AttemptId)
  {
    PartDistinct(rs, Attempts, AttemptId, i);
    forall a, b | 0 <= a < b < |q.attempts| ensures AttemptId(q.attempts[a]) != AttemptId(q.attempts[b]) {
      assert AttemptId(rs[i].attempts[a]) != AttemptId(rs[i].attempts[b]);
    }
    forall y | y in q.attempts ensures exists x :: x in Attempts(rs[i]) && AttemptId(x) == AttemptId(y) {
      var k :| 0 <= k < |q.attempts| && q.attempts[k] == y;
      assert rs[i].attempts[k] in Attempts(rs[i]);
    }
    ReplaceDistinct(rs, i, q, Attempts, AttemptId);
  }

  lemma {:induction false} ReturnsAppend(a: seq<Attempt>, b: seq<Attempt>)
    ensures ReturnsIn(a + b) == ReturnsIn(a) + ReturnsIn(b)
  {
    if a == [] {
      assert a + b == b;
    } else {
      assert (a + b)[0] == a[0] && (a + b)[1..] == a[1..] + b;
      ReturnsAppend(a[1..], b);
    }
  }

  lemma {:induction false} ReturnsSame(a: seq<Attempt>, b: seq<Attempt>)
    requires |a| == |b| && forall k :: 0 <= k < |a| ==> a[k].outcome == b[k].outcome
    ensures ReturnsIn(a) == ReturnsIn(b)
  {
    if a != [] { ReturnsSame(a[1..], b[1..]); }
  }

  lemma CrossOf(s: Inquiry)
    requires EffectRules(s)
    ensures CrossRules(s.requests)
  {}

  lemma ReplaceEffectRules(s: Inquiry, i: nat, q: RequestState)
    requires EffectRules(s) && i < |s.requests| && q.request == s.requests[i].request
    ensures EffectRules(WithRequest(s, q)) <==> CrossRules(s.requests[i := q]) && RequestRules(q)
  {
    hide RequestRules, Flatten;
    var t := WithRequest(s, q);
    forall k | 0 <= k < |s.requests| ensures t.requests[k] == s.requests[i := q][k] {
      assert k != i ==> RequestId(s.requests[k]) != RequestId(s.requests[i]);
    }
    assert t.requests == s.requests[i := q];
    forall a, b | 0 <= a < b < |t.requests| ensures RequestId(t.requests[a]) != RequestId(t.requests[b]) {
      assert RequestId(s.requests[a]) != RequestId(s.requests[b]);
    }
    forall r | r in t.requests ensures FindBy(t.plans, PlanId, r.request.stepPlanId).Some? {
      assert s.requests[i] in s.requests;
    }
    assert t.requests[i] == q;
  }

  lemma OwnRules(s: Inquiry, i: nat)
    requires EffectRules(s) && i < |s.requests|
    ensures RequestRules(s.requests[i])
  {}

  lemma PlanAttemptReduces(s: Inquiry, i: nat, p: AttemptPlan)
    requires EffectRules(s) && i < |s.requests| && FindBy(Flatten(s.requests, Attempts), AttemptId, p.id).None?
    ensures var q := s.requests[i].(attempts := s.requests[i].attempts + [Attempt(p, None, None)]);
      CrossRules(s.requests[i := q]) && RequestRules(q)
  {
    hide Flatten, DistinctKeys, Captured, EffectRules, FindBy;
    var rs, r := s.requests, s.requests[i];
    var q := r.(attempts := r.attempts + [Attempt(p, None, None)]);
    OwnRules(s, i);
    CrossOf(s);
    ReturnsAppend(r.attempts, [Attempt(p, None, None)]);
    assert ReturnsIn([Attempt(p, None, None)]) == [];
    assert Returns(q) == Returns(r);
    GrownDistinct(rs, i, q, Attempts, AttemptId);
    GrownDistinct(rs, i, q, Returns, ReturnId);
    GrownDistinct(rs, i, q, Decodes, DecodeId);
    GrownDistinct(rs, i, q, AcceptedResult, ResultId);
    CapturedKept(r, q);
  }

  lemma CapturedKept(r: RequestState, q: RequestState)
    requires forall x :: x in Returns(r) ==> x in Returns(q)
    ensures forall id :: Captured(r, id) ==> Captured(q, id)
  {}

  lemma StartReduces(s: Inquiry, i: nat, id: Id, start: Start)
    requires EffectRules(s) && i < |s.requests|
    requires forall x :: x in s.requests[i].attempts && x.plan.id == id ==> x.outcome.None?
    ensures var q := s.requests[i].(attempts := StartIn(s.requests[i].attempts, id, start));
      CrossRules(s.requests[i := q]) && RequestRules(q)
  {
    hide Flatten, DistinctKeys, Captured, EffectRules, FindBy;
    var rs, r := s.requests, s.requests[i];
    var q := r.(attempts := StartIn(r.attempts, id, start));
    OwnRules(s, i);
    CrossOf(s);
    forall k | 0 <= k < |q.attempts|
      ensures q.attempts[k].outcome == r.attempts[k].outcome && AttemptRules(q.attempts[k])
    {
      assert r.attempts[k] in r.attempts && AttemptRules(r.attempts[k]);
    }
    ReturnsSame(r.attempts, q.attempts);
    SameIdsDistinct(rs, i, q);
    GrownDistinct(rs, i, q, Returns, ReturnId);
    GrownDistinct(rs, i, q, Decodes, DecodeId);
    GrownDistinct(rs, i, q, AcceptedResult, ResultId);
    CapturedKept(r, q);
  }

  lemma NoAttemptReduces(s: Inquiry, i: nat, d: NoAttempt)
    requires Sound(s) && i < |s.requests| && FindBy(Flatten(s.requests, NoAttempts), NoAttemptId, d.id).None?
    ensures var q := s.requests[i].(noAttempts := s.requests[i].noAttempts + [d]);
      CrossRules(s.requests[i := q]) && RequestRules(q)
  {
    hide Flatten, DistinctKeys, Captured, Lifecycle, EffectRules, FindBy;
    var rs, r := s.requests, s.requests[i];
    var q := r.(noAttempts := r.noAttempts + [d]);
    SoundRules(s);
    OwnRules(s, i);
    CrossOf(s);
    GrownDistinct(rs, i, q, Attempts, AttemptId);
    GrownDistinct(rs, i, q, NoAttempts, NoAttemptId);
    GrownDistinct(rs, i, q, Returns, ReturnId);
    GrownDistinct(rs, i, q, Decodes, DecodeId);
    GrownDistinct(rs, i, q, AcceptedResult, ResultId);
    CapturedKept(r, q);
  }

  lemma DecodeReduces(s: Inquiry, i: nat, d: Decode)
    requires EffectRules(s) && i < |s.requests| && Captured(s.requests[i], d.returnId)
    requires FindBy(Flatten(s.requests, Decodes), DecodeId, d.id).None?
    ensures var q := s.requests[i].(decodes := s.requests[i].decodes + [d]);
      CrossRules(s.requests[i := q]) && RequestRules(q)
  {
    hide Flatten, DistinctKeys, Captured, EffectRules, FindBy;
    var rs, r := s.requests, s.requests[i];
    var q := r.(decodes := r.decodes + [d]);
    OwnRules(s, i);
    CrossOf(s);
    if r.accepted.Some? { FindPrefix(r.decodes, q.decodes, DecodeId, r.accepted.value); }
    GrownDistinct(rs, i, q, Attempts, AttemptId);
    GrownDistinct(rs, i, q, Returns, ReturnId);
    GrownDistinct(rs, i, q, Decodes, DecodeId);
    GrownDistinct(rs, i, q, AcceptedResult, ResultId);
    CapturedKept(r, q);
  }

  lemma InsertDistinct<T>(a: seq<T>, b: seq<T>, x: T, key: T -> Id)
    requires DistinctKeys(a + b, key) && forall o :: o in a + b ==> key(o) != key(x)
    ensures DistinctKeys(a + [x] + b, key)
  {
    var old', all := a + b, a + [x] + b;
    forall i, j | 0 <= i < j < |all| ensures key(all[i]) != key(all[j]) {
      var i', j' := if i <= |a| then i else i - 1, if j <= |a| then j else j - 1;
      assert i != |a| ==> all[i] == old'[i'] && old'[i'] in old';
      assert j != |a| ==> all[j] == old'[j'] && old'[j'] in old';
    }
  }

  lemma EndShape(attempts: seq<Attempt>, k: nat, outcome: Outcome)
    requires DistinctKeys(attempts, AttemptId) && k < |attempts|
    ensures EndIn(attempts, attempts[k].plan.id, outcome) == attempts[k := attempts[k].(outcome := Some(outcome))]
  {
    var ended := EndIn(attempts, attempts[k].plan.id, outcome);
    forall j | 0 <= j < |attempts| ensures ended[j] == attempts[k := attempts[k].(outcome := Some(outcome))][j] {
      assert j != k ==> AttemptId(attempts[j]) != AttemptId(attempts[k]);
    }
  }

  lemma Regroup<T>(a: seq<T>, b: seq<T>, c: seq<T>)
    ensures a + (b + c) == a + b + c
  {}

  lemma ReturnsAround(attempts: seq<Attempt>, k: nat)
    requires k < |attempts|
    ensures ReturnsIn(attempts) == ReturnsIn(attempts[..k]) + ReturnsIn([attempts[k]]) + ReturnsIn(attempts[k+1..])
  {
    hide ReturnsIn;
    var front, one, back := attempts[..k], [attempts[k]], attempts[k+1..];
    assert attempts == front + (one + back);
    ReturnsAppend(front, one + back);
    ReturnsAppend(one, back);
    Regroup(ReturnsIn(front), ReturnsIn(one), ReturnsIn(back));
  }

  lemma ReturnsOfOne(a: Attempt)
    ensures ReturnsIn([a]) == if a.outcome.Some? && a.outcome.value.Returned? then [a.outcome.value.external] else []
  {}

  /** The single place where an outcome joins its request's attempts. */
  lemma EndSplits(attempts: seq<Attempt>, k: nat, outcome: Outcome)
    requires DistinctKeys(attempts, AttemptId) && k < |attempts| && attempts[k].outcome.None?
    ensures var ended := EndIn(attempts, attempts[k].plan.id, outcome);
      && ended == attempts[k := attempts[k].(outcome := Some(outcome))]
      && ReturnsIn(attempts) == ReturnsIn(attempts[..k]) + ReturnsIn(attempts[k+1..])
      && ReturnsIn(ended) ==
           if outcome.Returned? then ReturnsIn(attempts[..k]) + [outcome.external] + ReturnsIn(attempts[k+1..])
                             else ReturnsIn(attempts)
  {
    hide ReturnsIn, EndIn, DistinctKeys;
    var ended := EndIn(attempts, attempts[k].plan.id, outcome);
    EndShape(attempts, k, outcome);
    ReturnsAround(attempts, k);
    ReturnsAround(ended, k);
    assert ended[..k] == attempts[..k] && ended[k+1..] == attempts[k+1..];
    ReturnsOfOne(attempts[k]);
    ReturnsOfOne(ended[k]);
  }

  lemma OutcomeReturnsDistinct(s: Inquiry, i: nat, k: nat, outcome: Outcome)
    requires EffectRules(s) && i < |s.requests| && k < |s.requests[i].attempts|
    requires s.requests[i].attempts[k].outcome.None?
    requires outcome.Returned? ==> FindBy(Flatten(s.requests, Returns), ReturnId, outcome.external.id).None?
    ensures var r := s.requests[i]; var q := r.(attempts := EndIn(r.attempts, r.attempts[k].plan.id, outcome));
      && DistinctKeys(Flatten(s.requests[i := q], Returns), ReturnId) && DistinctKeys(Returns(q), ReturnId)
      && forall x :: x in Returns(r) ==> x in Returns(q)
  {
    hide Captured, EffectRules, FindBy, EndIn, RequestRules;
    var rs, r := s.requests, s.requests[i];
    var q := r.(attempts := EndIn(r.attempts, r.attempts[k].plan.id, outcome));
    OwnRules(s, i);
    CrossOf(s);
    PartDistinct(rs, Returns, ReturnId, i);
    PartDistinct(rs, Attempts, AttemptId, i);
    EndSplits(r.attempts, k, outcome);
    if outcome.Returned? {
      forall o | o in Returns(r) ensures o.id != outcome.external.id {
        FlattenHas(rs, Returns, o);
        assert ReturnId(o) == o.id;
      }
      InsertDistinct(ReturnsIn(r.attempts[..k]), ReturnsIn(r.attempts[k+1..]), outcome.external, ReturnId);
    }
    forall y | y in Returns(q)
      ensures (exists x :: x in Returns(rs[i]) && ReturnId(x) == ReturnId(y))
          || FindBy(Flatten(rs, Returns), ReturnId, ReturnId(y)).None?
    {
      assert y in Returns(r) || (outcome.Returned? && y == outcome.external);
    }
    ReplaceDistinct(rs, i, q, Returns, ReturnId);
  }

  lemma OutcomeReduces(s: Inquiry, i: nat, k: nat, outcome: Outcome)
    requires EffectRules(s) && i < |s.requests| && k < |s.requests[i].attempts|
    requires s.requests[i].attempts[k].start.Some? && s.requests[i].attempts[k].outcome.None?
    requires outcome.Returned? ==> FindBy(Flatten(s.requests, Returns), ReturnId, outcome.external.id).None?
    ensures var r := s.requests[i]; var q := r.(attempts := EndIn(r.attempts, r.attempts[k].plan.id, outcome));
      CrossRules(s.requests[i := q]) && (RequestRules(q) <==> outcome.Linked())
  {
    hide Flatten, DistinctKeys, Captured, EffectRules, FindBy, Returns;
    var rs, r := s.requests, s.requests[i];
    var q := r.(attempts := EndIn(r.attempts, r.attempts[k].plan.id, outcome));
    OwnRules(s, i);
    CrossOf(s);
    OutcomeReturnsDistinct(s, i, k, outcome);
    SameIdsDistinct(rs, i, q);
    GrownDistinct(rs, i, q, Decodes, DecodeId);
    GrownDistinct(rs, i, q, AcceptedResult, ResultId);
    CapturedKept(r, q);
    EndedRules(r, q, k, outcome);
  }

  lemma EndedRules(r: RequestState, q: RequestState, k: nat, outcome: Outcome)
    requires k < |r.attempts| && (forall a :: a in r.attempts ==> AttemptRules(a)) && r.attempts[k].start.Some?
    requires DistinctKeys(r.attempts, AttemptId) && r.attempts[k].outcome.None?
    requires q == r.(attempts := EndIn(r.attempts, r.attempts[k].plan.id, outcome))
    ensures (forall a :: a in q.attempts ==> AttemptRules(a)) <==> outcome.Linked()
  {
    EndSplits(r.attempts, k, outcome);
    assert q.attempts[k] in q.attempts;
  }

  /** The result of the named decode is not yet an accepted result of any request. */
  predicate FreshResult(s: Inquiry, r: RequestState, decodeId: Id) {
    var d := FindBy(r.decodes, DecodeId, decodeId);
    d.Some? && d.value.Decoded? ==> FindBy(Flatten(s.requests, AcceptedResult), ResultId, d.value.result.id).None?
  }

  lemma AcceptReduces(s: Inquiry, i: nat, decodeId: Id)
    requires EffectRules(s) && i < |s.requests| && s.requests[i].accepted.None?
    requires FindBy(s.requests[i].decodes, DecodeId, decodeId).Some?
    requires FindBy(s.requests[i].decodes, DecodeId, decodeId).value.Decoded?
    ensures var q := s.requests[i].(accepted := Some(decodeId));
      CrossRules(s.requests[i := q]) && RequestRules(q) <==> FreshResult(s, s.requests[i], decodeId)
  {
    hide DistinctKeys, Captured, EffectRules, Flatten;
    var rs, r := s.requests, s.requests[i];
    var q := r.(accepted := Some(decodeId));
    var result := FindBy(r.decodes, DecodeId, decodeId).value.result;
    OwnRules(s, i);
    CrossOf(s);
    GrownDistinct(rs, i, q, Attempts, AttemptId);
    GrownDistinct(rs, i, q, Returns, ReturnId);
    GrownDistinct(rs, i, q, Decodes, DecodeId);
    CapturedKept(r, q);
    assert AcceptedResult(q) == [result] && AcceptedResult(r) == [];
    assert ResultId(result) == result.id;
    if FreshResult(s, r, decodeId) {
      assert [result][..0] == [];
      assert Grown(rs, AcceptedResult(r), AcceptedResult(q), AcceptedResult, ResultId);
      GrownDistinct(rs, i, q, AcceptedResult, ResultId);
    } else if CrossRules(rs[i := q]) {
      var h := HolderOf(rs, AcceptedResult, ResultId, result.id);
      var j :| 0 <= j < |rs| && rs[j] == h;
      var x := FindBy(Flatten(rs, AcceptedResult), ResultId, result.id).value;
      SecondResult(rs[i := q], i, j, result, x);
    }
  }

  lemma SecondResult(qs: seq<RequestState>, i: nat, j: nat, x: CanonicalResult, y: CanonicalResult)
    requires CrossRules(qs) && i < |qs| && j < |qs| && x in AcceptedResult(qs[i]) && y in AcceptedResult(qs[j])
    requires x.id == y.id
    ensures i == j
  {
    FlattenUnique(qs, AcceptedResult, ResultId, i, j, x, y);
  }

  lemma RecordRulesIgnoreRequests(s: Inquiry, t: Inquiry)
    requires t == s.(requests := t.requests, sequence := t.sequence)
    ensures RecordRules(t) <==> RecordRules(s)
  {
    hide DistinctKeys;
    forall p ensures PlanRules(t, p) <==> PlanRules(s, p) {}
  }

  /** What the reducer's aggregate check adds to the decider's: linked outcomes, which the
      record type already demands, and one owner for each accepted result identity. */
  predicate ReducerAdds(s: Inquiry, a: Action)
    requires a.Effect()
  {
    && (a.RecordOutcome? ==> a.outcome.Linked())
    && (a.AcceptResult? ==>
          var r := FindBy(s.requests, RequestId, a.requestId);
          r.Some? ==> FreshResult(s, r.value, a.decodeId))
  }

  /** A fresh decision on an existing request passes every step check of the reducer. */
  lemma FreshAdvances(s: Inquiry, c: Command)
    requires c.action.Effect() && !c.action.RequestEffect? && Judge(s, c.action).Fresh?
    ensures Target(s, c.action).Some? && Advance(s, Target(s, c.action).value, c).Some?
  {
    hide Flatten, Captured, FindBy;
  }

  lemma AdvanceReduces(s: Inquiry, i: nat, c: Command)
    requires Sound(s) && i < |s.requests| && c.action.Effect() && !c.action.RequestEffect? && Judge(s, c.action).Fresh?
    requires Target(s, c.action) == Some(s.requests[i]) && Advance(s, s.requests[i], c).Some?
    ensures var q := Advance(s, s.requests[i], c).value;
      CrossRules(s.requests[i := q]) && RequestRules(q) <==> ReducerAdds(s, c.action)
  {
    hide Lifecycle, Flatten, Captured, CrossRules, RequestRules, EffectRules, DistinctKeys, StartIn, EndIn;
    SoundRules(s);
    var r := s.requests[i];
    match c.action
    case PlanAttempt(p) => PlanAttemptReduces(s, i, p);
    case StartAttempt(id) =>
      forall x | x in r.attempts && x.plan.id == id ensures x.outcome.None? {
        var a := FindBy(r.attempts, AttemptId, id).value;
        OwnAttempts(s, i);
        OnlyOne(r.attempts, AttemptId, x, a);
      }
      StartReduces(s, i, id, Start(c.eventId, c.at));
    case RecordNoAttempt(d) => NoAttemptReduces(s, i, d);
    case RecordOutcome(_, o) =>
      var a := FindBy(r.attempts, AttemptId, o.attemptId).value;
      var k :| 0 <= k < |r.attempts| && r.attempts[k] == a;
      OutcomeReduces(s, i, k, o);
    case RecordDecode(_, d) => DecodeReduces(s, i, d);
    case AcceptResult(_, d) => AcceptReduces(s, i, d);
  }

  lemma OwnAttempts(s: Inquiry, i: nat)
    requires EffectRules(s) && i < |s.requests|
    ensures DistinctKeys(s.requests[i].attempts, AttemptId)
  {
    OwnRules(s, i);
  }

  lemma RequestReduces(s: Inquiry, q: Request)
    requires EffectRules(s) && FindBy(s.requests, RequestId, q.id).None? && FindBy(s.plans, PlanId, q.stepPlanId).Some?
    ensures EffectRules(s.(requests := s.requests + [RequestState(q, [], [], [], None)], sequence := s.sequence + 1))
  {
    hide Flatten, RequestRules, DistinctKeys, FindBy;
    var r := RequestState(q, [], [], [], None);
    AppendDistinct(s.requests, [r], RequestId);
    assert DistinctKeys([r], RequestId) by { OneDistinct(r, RequestId); }
    FlattenOneMore(s.requests, r, Attempts);
    FlattenOneMore(s.requests, r, Returns);
    FlattenOneMore(s.requests, r, Decodes);
    FlattenOneMore(s.requests, r, AcceptedResult);
    EmptyRequestRules(q);
  }

  lemma OneDistinct<T>(x: T, key: T -> Id)
    ensures DistinctKeys([x], key)
  {}

  lemma EmptyRequestRules(q: Request)
    ensures RequestRules(RequestState(q, [], [], [], None))
  {}

  lemma {:induction false} FlattenOneMore<T>(rs: seq<RequestState>, r: RequestState, part: RequestState -> seq<T>)
    ensures Flatten(rs + [r], part) == Flatten(rs, part) + part(r)
    ensures part(r) == [] ==> Flatten(rs + [r], part) == Flatten(rs, part)
  {
    if rs == [] {
      assert [r][1..] == [];
      assert [] + [r] == [r];
    } else {
      assert (rs + [r])[0] == rs[0] && (rs + [r])[1..] == rs[1..] + [r];
      FlattenOneMore(rs[1..], r, part);
    }
  }

  /** In a reachable aggregate the reducer accepts the event of a fresh effect decision exactly
      when the outcome is linked and an accepted result identity is not accepted elsewhere. */
  lemma FreshDecisionsReduce(events: seq<Event>, s: Inquiry, c: Command)
    requires Fold(Unstarted, events) == Some(Active(s))
    requires c.inquiryId == s.id && c.action.Effect() && Judge(s, c.action).Fresh?
    ensures Decide(Active(s), c) == Emits(Event(c, [], []))
    ensures Evolve(Active(s), Event(c, [], [])).Some? <==> ReducerAdds(s, c.action)
  {
    hide Fold, CrossRules, RequestRules, EffectRules, RecordRules, Advance, Target, Judge;
    LedgerSound(events, s);
    SoundRules(s);
    if c.action.RequestEffect? {
      FreshRequest(s, c.action.request);
      RequestReduces(s, c.action.request);
      RecordRulesIgnoreRequests(s, EffectStep(s, c).value);
    } else {
      FreshAdvances(s, c);
      var i, q := TargetAt(s, c);
      AdvanceKeepsRequest(s, s.requests[i], c);
      ReplaceEffectRules(s, i, q);
      AdvanceReduces(s, i, c);
      RecordRulesIgnoreRequests(s, WithRequest(s, q));
    }
  }

  lemma FreshRequest(s: Inquiry, q: Request)
    requires Judge(s, RequestEffect(q)).Fresh?
    ensures FindBy(s.requests, RequestId, q.id).None? && FindBy(s.plans, PlanId, q.stepPlanId).Some?
  {}

  // ------------------------------------------------------------ the decider emits what the reducer accepts

  lemma KeysApart<T>(a: seq<T>, b: seq<T>, x: T, y: T, key: T -> Id)
    requires DistinctKeys(a + [x] + b, key) && y in a + b
    ensures key(y) != key(x)
  {
    var all := a + [x] + b;
    assert all[|a|] == x;
    var k :| 0 <= k < |a + b| && (a + b)[k] == y;
    if k < |a| { assert all[k] == y; } else { assert all[k+1] == y; }
  }

  /** A captured return identity is refused a second time by the aggregate rules. */
  lemma RepeatedReturnRefused(s: Inquiry, i: nat, k: nat, outcome: Outcome)
    requires EffectRules(s) && i < |s.requests| && k < |s.requests[i].attempts|
    requires s.requests[i].attempts[k].outcome.None?
    requires outcome.Returned? && FindBy(Flatten(s.requests, Returns), ReturnId, outcome.external.id).Some?
    ensures var r := s.requests[i]; var q := r.(attempts := EndIn(r.attempts, r.attempts[k].plan.id, outcome));
      !(CrossRules(s.requests[i := q]) && RequestRules(q))
  {
    hide EffectRules, EndIn, Captured, Flatten, FindBy;
    var rs, r := s.requests, s.requests[i];
    var q := r.(attempts := EndIn(r.attempts, r.attempts[k].plan.id, outcome));
    OwnRules(s, i);
    EndSplits(r.attempts, k, outcome);
    var h := HolderOf(rs, Returns, ReturnId, outcome.external.id);
    var y := FindBy(Flatten(rs, Returns), ReturnId, outcome.external.id).value;
    var j :| 0 <= j < |rs| && rs[j] == h;
    var front, back := ReturnsIn(r.attempts[..k]), ReturnsIn(r.attempts[k+1..]);
    assert outcome.external in front + [outcome.external] + back;
    if j == i {
      if RequestRules(q) { KeysApart(front, back, outcome.external, y, ReturnId); }
    } else if CrossRules(rs[i := q]) {
      OldKeys(rs[i := q], Returns, ReturnId, i, j, outcome.external, y);
    }
  }

  /** The plan a request names is ready. */
  predicate NamesReadyPlan(s: Inquiry, a: Action) {
    a.RequestEffect? ==>
      var p := FindBy(s.plans, PlanId, a.request.stepPlanId);
      p.Some? && p.value.selection.Some?
  }

  lemma AdvancedIsFresh(s: Inquiry, i: nat, c: Command)
    requires Sound(s) && i < |s.requests| && c.action.Effect() && !c.action.RequestEffect?
    requires Target(s, c.action) == Some(s.requests[i]) && Advance(s, s.requests[i], c).Some?
    requires CrossRules(s.requests[i := Advance(s, s.requests[i], c).value])
    requires RequestRules(Advance(s, s.requests[i], c).value)
    ensures Judge(s, c.action).Fresh?
  {
    hide Lifecycle, Flatten, CrossRules, RequestRules, EffectRules, StartIn, EndIn, Captured;
    SoundRules(s);
    var r := s.requests[i];
    if c.action.StartAttempt? {
      var a := FindBy(r.attempts, AttemptId, c.action.attemptId).value;
      AttemptRulesOf(s, r, a);
    } else if c.action.RecordOutcome? {
      var o := c.action.outcome;
      var a := FindBy(r.attempts, AttemptId, o.attemptId).value;
      var k :| 0 <= k < |r.attempts| && r.attempts[k] == a;
      if o.Returned? && FindBy(Flatten(s.requests, Returns), ReturnId, o.external.id).Some? {
        RepeatedReturnRefused(s, i, k, o);
      }
    }
  }

  lemma OwnedPlanIsExact(s: Inquiry, p: StepPlan)
    requires RecordRules(s) && p in s.plans && p.selection.Some?
    ensures OwnsExactly(s, p.selection.value)
  {
    assert PlanRules(s, p);
  }

  /** Conversely, an effect event the reducer accepts is one the decider would emit, except that
      the reducer also accepts a request whose plan is recorded but not ready. */
  lemma ReducedDecisionsAreFresh(events: seq<Event>, s: Inquiry, c: Command)
    requires Fold(Unstarted, events) == Some(Active(s)) && c.action.Effect()
    requires Evolve(Active(s), Event(c, [], [])).Some?
    ensures Judge(s, c.action).Fresh? <==> NamesReadyPlan(s, c.action)
  {
    hide Fold, CrossRules, RequestRules, EffectRules, Advance, Target, OwnsExactly;
    LedgerSound(events, s);
    SoundRules(s);
    if c.action.RequestEffect? {
      var plan := FindBy(s.plans, PlanId, c.action.request.stepPlanId).value;
      if plan.selection.Some? { OwnedPlanIsExact(s, plan); }
    } else {
      var i, q := TargetAt(s, c);
      AdvanceKeepsRequest(s, s.requests[i], c);
      ReplaceEffectRules(s, i, q);
      AdvancedIsFresh(s, i, c);
    }
  }
}
