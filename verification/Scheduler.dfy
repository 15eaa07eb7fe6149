/** Deterministic bounded scheduling of obligations. */
module Scheduler {
  import opened Sequences
  import opened InquiryModel

  datatype Entry = Entry(obligation: Obligation, key: AttemptKey, creation: nat, depth: nat)

  datatype PlanStatus = Ready | AllSatisfied | UnknownUnderBinding
  datatype Reason =
    | StepBudgetExhausted | InsufficientEventBudget | NoOpenObligation | UnresolvedNonopenObligation
    | DependenciesOrAttemptsExhausted | DeterministicPriority

  datatype Plan = Plan(status: PlanStatus, selected: Option<(Id, AttemptKey)>, reason: Reason, remaining: nat)

  /** The bounds of a scheduler run; positivity is what the program demands. */
  datatype Limits = Limits(stepBudget: int, readyCost: int, maxAttempts: int)

  predicate Positive(l: Limits) { l.stepBudget >= 1 && l.readyCost >= 1 && l.maxAttempts >= 1 }

  // ------------------------------------------------------------ deduplication

  predicate CreatedBefore(a: Entry, b: Entry) {
    a.creation < b.creation || (a.creation == b.creation && Before(a.obligation.id, b.obligation.id))
  }

  /** The first entry of each fingerprint not yet seen. */
  function FirstOfEach(sorted: seq<Entry>, seen: set<Fingerprint>): seq<Entry> {
    if sorted == [] then []
    else
      var f := FingerprintOf(sorted[0].obligation);
      if f in seen then FirstOfEach(sorted[1..], seen) else [sorted[0]] + FirstOfEach(sorted[1..], seen + {f})
  }

  function Deduplicated(entries: seq<Entry>): seq<Entry> {
    FirstOfEach(SortBy(entries, CreatedBefore), {})
  }

  /** The program's dictionary loop; the values come back in insertion order. */
  method DeduplicateObligations(entries: seq<Entry>) returns (kept: seq<Entry>)
    ensures kept == Deduplicated(entries)
  {
    hide SortBy, FingerprintOf;
    var sorted := SortBy(entries, CreatedBefore);
    var byFingerprint: map<Fingerprint, Entry> := map[];
    kept := [];
    assert byFingerprint.Keys == {};
    for k := 0 to |sorted|
      invariant kept + FirstOfEach(sorted[k..], byFingerprint.Keys) == FirstOfEach(sorted, {})
    {
      ghost var rest := sorted[k+1..];
      assert sorted[k..][0] == sorted[k] && sorted[k..][1..] == rest;
      var f := FingerprintOf(sorted[k].obligation);
      if f !in byFingerprint {
        ghost var seen := byFingerprint.Keys;
        ghost var more := FirstOfEach(rest, seen + {f});
        assert kept + ([sorted[k]] + more) == (kept + [sorted[k]]) + more;
        byFingerprint := byFingerprint[f := sorted[k]];
        assert byFingerprint.Keys == seen + {f};
        kept := kept + [sorted[k]];
      }
    }
  }

  // ------------------------------------------------------------ the priority order

  const SAFETY_KINDS: set<Kind> := {LocalizeConflict, DischargeOpenDependency}

  function Safety(k: Kind): nat { if k in SAFETY_KINDS then 0 else 1 }

  /** Larger coordinates first; where one list ends, the shorter comes first. */
  predicate PriorityBefore(p: seq<int>, q: seq<int>) {
    p == [] || (q != [] && (p[0] > q[0] || (p[0] == q[0] && PriorityBefore(p[1..], q[1..]))))
  }

  /** The program's key order: safety, priority, depth, creation, identity. */
  predicate KeyBefore(a: Entry, b: Entry) {
    var x, y := Safety(a.obligation.kind), Safety(b.obligation.kind);
    x < y || (x == y && (
      if a.obligation.priority != b.obligation.priority then
        PriorityBefore(a.obligation.priority, b.obligation.priority)
      else a.depth < b.depth || (a.depth == b.depth && CreatedBefore(a, b))))
  }

  /** The first entry of least key. */
  function Least(s: seq<Entry>): (r: Entry)
    requires s != []
    ensures r in s
  {
    if |s| == 1 then s[0]
    else
      assert s == [s[0]] + s[1..];
      var rest := Least(s[1..]);
      if KeyBefore(s[0], rest) then s[0] else rest
  }

  // ------------------------------------------------------------ planning

  function Attempts(counts: map<AttemptKey, nat>, key: AttemptKey): nat { if key in counts then counts[key] else 0 }

  predicate Eligible(e: Entry, completed: set<Id>, counts: map<AttemptKey, nat>, maxAttempts: int) {
    && e.obligation.status.Open?
    && (forall p :: p in e.obligation.parents ==> p in completed)
    && Attempts(counts, e.key) < maxAttempts
  }

  function OpenOf(s: seq<Entry>): seq<Entry> {
    if s == [] then [] else (if s[0].obligation.status.Open? then [s[0]] else []) + OpenOf(s[1..])
  }

  function EligibleOf(s: seq<Entry>, completed: set<Id>, counts: map<AttemptKey, nat>, maxAttempts: int): seq<Entry> {
    if s == [] then []
    else
      var rest := EligibleOf(s[1..], completed, counts, maxAttempts);
      if Eligible(s[0], completed, counts, maxAttempts) then [s[0]] + rest else rest
  }

  /** `None` is the program's ValueError on its bounds. */
  function PlanNext(entries: seq<Entry>, completed: set<Id>, counts: map<AttemptKey, nat>, used: int,
    limits: Limits): Option<Plan> {
    if used < 0 || !Positive(limits) then None
    else
      var remaining := if limits.stepBudget > used then limits.stepBudget - used else 0;
      if remaining == 0 then Some(Plan(UnknownUnderBinding, None, StepBudgetExhausted, 0))
      else
        var kept := Deduplicated(entries);
        var open := OpenOf(kept);
        if open == [] then
          if exists e :: e in kept && !e.obligation.status.Satisfied?
          then Some(Plan(UnknownUnderBinding, None, UnresolvedNonopenObligation, remaining))
          else Some(Plan(AllSatisfied, None, NoOpenObligation, remaining))
        else
          var ready := EligibleOf(open, completed, counts, limits.maxAttempts);
          if ready == [] then Some(Plan(UnknownUnderBinding, None, DependenciesOrAttemptsExhausted, remaining))
          else if remaining < limits.readyCost then
            Some(Plan(UnknownUnderBinding, None, InsufficientEventBudget, remaining))
          else
            var e := Least(ready);
            Some(Plan(Ready, Some((e.obligation.id, e.key)), DeterministicPriority, remaining - limits.readyCost))
  }

  // ------------------------------------------------------------ orders

  lemma CreatedTotal(a: Entry, b: Entry)
    ensures CreatedBefore(a, b) || CreatedBefore(b, a)
    ensures CreatedBefore(a, b) && CreatedBefore(b, a) ==>
        a.creation == b.creation && a.obligation.id == b.obligation.id
  {
    BeforeIsTotal(a.obligation.id, b.obligation.id);
  }

  lemma CreatedTransitive(a: Entry, b: Entry, c: Entry)
    requires CreatedBefore(a, b) && CreatedBefore(b, c)
    ensures CreatedBefore(a, c)
  {
    if a.creation == b.creation == c.creation { BeforeTransitive(a.obligation.id, b.obligation.id, c.obligation.id); }
  }

  lemma {:induction false} PriorityTotal(p: seq<int>, q: seq<int>)
    ensures PriorityBefore(p, q) || PriorityBefore(q, p)
    ensures PriorityBefore(p, q) && PriorityBefore(q, p) ==> p == q
    decreases |p|
  {
    if p != [] && q != [] && p[0] == q[0] {
      PriorityTotal(p[1..], q[1..]);
      assert p == [p[0]] + p[1..] && q == [q[0]] + q[1..];
    }
  }

  lemma {:induction false} PriorityTransitive(p: seq<int>, q: seq<int>, r: seq<int>)
    requires PriorityBefore(p, q) && PriorityBefore(q, r)
    ensures PriorityBefore(p, r)
    decreases |p|
  {
    if p != [] && p[0] == q[0] && q[0] == r[0] { PriorityTransitive(p[1..], q[1..], r[1..]); }
  }

  lemma KeyTotal(a: Entry, b: Entry)
    ensures KeyBefore(a, b) || KeyBefore(b, a)
    ensures KeyBefore(a, b) && KeyBefore(b, a) ==> a.creation == b.creation && a.obligation.id == b.obligation.id
  {
    PriorityTotal(a.obligation.priority, b.obligation.priority);
    CreatedTotal(a, b);
  }

  lemma KeyTransitive(a: Entry, b: Entry, c: Entry)
    requires KeyBefore(a, b) && KeyBefore(b, c)
    ensures KeyBefore(a, c)
  {
    var p, q, r := a.obligation.priority, b.obligation.priority, c.obligation.priority;
    if Safety(a.obligation.kind) == Safety(b.obligation.kind) == Safety(c.obligation.kind) {
      if p != q && q != r {
        PriorityTransitive(p, q, r);
        PriorityTotal(p, q);
      } else if p == q && q == r && a.depth == b.depth == c.depth {
        CreatedTransitive(a, b, c);
      }
    }
  }

  lemma {:induction false} LeastIsLeast(s: seq<Entry>, e: Entry)
    requires s != [] && e in s
    ensures KeyBefore(Least(s), e)
  {
    hide KeyBefore;
    KeyTotal(e, e);
    if |s| > 1 {
      var rest := Least(s[1..]);
      assert s == [s[0]] + s[1..];
      KeyTotal(s[0], rest);
      KeyTotal(s[0], s[0]);
      if e in s[1..] {
        LeastIsLeast(s[1..], e);
        if KeyBefore(s[0], rest) { KeyTransitive(s[0], rest, e); }
      }
    }
  }

  // ------------------------------------------------------------ main results

  /** (creation, identity) pairs are distinct. */
  predicate DistinctStamps(s: seq<Entry>) {
    forall i, j :: 0 <= i < j < |s| ==> s[i].creation != s[j].creation || s[i].obligation.id != s[j].obligation.id
  }

  lemma StampPins(s: seq<Entry>, a: Entry, b: Entry)
    requires DistinctStamps(s) && a in s && b in s && a.creation == b.creation && a.obligation.id == b.obligation.id
    ensures a == b
  {
    var i :| 0 <= i < |s| && s[i] == a;
    var j :| 0 <= j < |s| && s[j] == b;
  }

  lemma CreatedPreorders(s: seq<Entry>)
    ensures Preorders(CreatedBefore, s)
    ensures DistinctStamps(s) ==> Antisymmetric(CreatedBefore, s)
  {
    forall x, y | x in s && y in s ensures CreatedBefore(x, y) || CreatedBefore(y, x) { CreatedTotal(x, y); }
    forall x, y, z | x in s && y in s && z in s && CreatedBefore(x, y) && CreatedBefore(y, z)
      ensures CreatedBefore(x, z)
    {
      CreatedTransitive(x, y, z);
    }
    if DistinctStamps(s) {
      forall x, y | x in s && y in s && CreatedBefore(x, y) && CreatedBefore(y, x) ensures x == y {
        CreatedTotal(x, y);
        StampPins(s, x, y);
      }
    }
  }

  /** The earliest entry of its fingerprint. */
  ghost predicate Earliest(s: seq<Entry>, e: Entry) {
    e in s && forall x :: x in s && FingerprintOf(x.obligation) == FingerprintOf(e.obligation) ==> CreatedBefore(e, x)
  }

  lemma {:induction false} FirstOfEachHas(sorted: seq<Entry>, seen: set<Fingerprint>, e: Entry)
    requires Sorted(sorted, CreatedBefore) && DistinctStamps(sorted)
    ensures e in FirstOfEach(sorted, seen) <==> FingerprintOf(e.obligation) !in seen && Earliest(sorted, e)
  {
    hide FingerprintOf, CreatedBefore;
    if sorted != [] {
      var head, rest := sorted[0], sorted[1..];
      var f := FingerprintOf(head.obligation);
      assert sorted == [head] + rest;
      FirstOfEachHas(rest, if f in seen then seen else seen + {f}, e);
      CreatedTotal(head, head);
      forall x | x in rest ensures CreatedBefore(head, x) && (CreatedBefore(x, head) ==> x == head) {
        var i :| 0 <= i < |rest| && rest[i] == x;
        assert sorted[i+1] == x;
        CreatedTotal(head, x);
        if CreatedBefore(x, head) { StampPins(sorted, head, x); }
      }
      assert head !in rest by { HeadOnce(sorted); }
      assert Earliest(sorted, e) <==>
        e in sorted && (e == head || (FingerprintOf(e.obligation) != f && Earliest(rest, e)));
    }
  }

  lemma HeadOnce(s: seq<Entry>)
    requires s != [] && DistinctStamps(s)
    ensures s[0] !in s[1..]
  {
    forall i | 0 <= i < |s[1..]| ensures s[1..][i] != s[0] {
      assert s[i+1] == s[1..][i];
    }
  }

  lemma DistinctStampsPermute(a: seq<Entry>, b: seq<Entry>)
    requires multiset(a) == multiset(b) && DistinctStamps(a)
    ensures DistinctStamps(b)
  {
    forall i, j | 0 <= i < j < |a| ensures a[i] != a[j] {}
    DistinctMultiset(a, b);
    MultisetMembers(a, b);
    forall i, j | 0 <= i < j < |b| ensures b[i].creation != b[j].creation || b[i].obligation.id != b[j].obligation.id {
      assert b[i] in b && b[j] in b && b[i] != b[j];
      if b[i].creation == b[j].creation && b[i].obligation.id == b[j].obligation.id { StampPins(a, b[i], b[j]); }
    }
  }

  /** Deduplication keeps exactly the earliest entry of every fingerprint. */
  lemma DeduplicationKeepsEarliest(entries: seq<Entry>, e: Entry)
    requires DistinctStamps(entries)
    ensures e in Deduplicated(entries) <==> Earliest(entries, e)
  {
    hide SortBy, FingerprintOf, CreatedBefore;
    var sorted := SortBy(entries, CreatedBefore);
    CreatedPreorders(entries);
    SortSorts(entries, CreatedBefore);
    SortPermutes(entries, CreatedBefore);
    DistinctStampsPermute(entries, sorted);
    FirstOfEachHas(sorted, {}, e);
    forall x ensures x in sorted <==> x in entries {}
  }

  lemma {:induction false} EligibleHas(s: seq<Entry>, completed: set<Id>, counts: map<AttemptKey, nat>,
    maxAttempts: int, e: Entry)
    ensures e in EligibleOf(OpenOf(s), completed, counts, maxAttempts)
        <==> e in s && Eligible(e, completed, counts, maxAttempts)
  {
    if s != [] {
      var rest := s[1..];
      assert s == [s[0]] + rest;
      EligibleHas(rest, completed, counts, maxAttempts, e);
      if s[0].obligation.status.Open? {
        assert OpenOf(s) == [s[0]] + OpenOf(rest);
        assert OpenOf(s)[1..] == OpenOf(rest);
      } else {
        assert OpenOf(s) == OpenOf(rest);
      }
    }
  }

  /** Deduplicated entries the scheduler may choose. */
  predicate Choosable(entries: seq<Entry>, completed: set<Id>, counts: map<AttemptKey, nat>, limits: Limits, e: Entry) {
    e in Deduplicated(entries) && Eligible(e, completed, counts, limits.maxAttempts)
  }

  /** For every list of entries: a plan is READY exactly when the budget covers the cost and some
      deduplicated open entry has its parents completed and attempts left; it then selects such an
      entry of least key and leaves the rest of the budget. */
  lemma ReadyExactlyWhen(entries: seq<Entry>, completed: set<Id>, counts: map<AttemptKey, nat>, used: int,
    limits: Limits)
    requires used >= 0 && Positive(limits)
    ensures var plan := PlanNext(entries, completed, counts, used, limits).value;
      && (plan.status.Ready? <==>
            used + limits.readyCost <= limits.stepBudget
            && exists e :: Choosable(entries, completed, counts, limits, e))
      && (plan.selected.Some? <==> plan.status.Ready?)
      && (plan.status.Ready? ==>
            plan.remaining == limits.stepBudget - used - limits.readyCost
            && exists e :: Choosable(entries, completed, counts, limits, e)
                 && plan.selected == Some((e.obligation.id, e.key))
                 && forall x :: Choosable(entries, completed, counts, limits, x) ==> KeyBefore(e, x))
  {
    hide Deduplicated, Eligible, KeyBefore, EligibleOf, OpenOf, Least;
    var kept := Deduplicated(entries);
    var ready := EligibleOf(OpenOf(kept), completed, counts, limits.maxAttempts);
    forall e ensures e in ready <==> Choosable(entries, completed, counts, limits, e) {
      EligibleHas(kept, completed, counts, limits.maxAttempts, e);
    }
    NoneOpenNoneReady(kept, completed, counts, limits.maxAttempts);
    if ready != [] {
      assert ready[0] in ready;
      var e := Least(ready);
      assert e in ready by { LeastIn(ready); }
      forall x | Choosable(entries, completed, counts, limits, x) ensures KeyBefore(e, x) {
        LeastIsLeast(ready, x);
      }
    }
  }

  /** When (creation, identity) pairs are distinct, the choosable entries are the eligible earliest
      ones of their fingerprints and no two of them tie, so the entry of least key is unique. */
  lemma ChoiceIsUnique(entries: seq<Entry>, completed: set<Id>, counts: map<AttemptKey, nat>, limits: Limits, e: Entry,
    x: Entry)
    requires DistinctStamps(entries)
    ensures Choosable(entries, completed, counts, limits, e) <==>
              Earliest(entries, e) && Eligible(e, completed, counts, limits.maxAttempts)
    ensures (Choosable(entries, completed, counts, limits, e) && Choosable(entries, completed, counts, limits, x)
             && KeyBefore(e, x) && KeyBefore(x, e)) ==>
              e == x
  {
    hide Deduplicated, Eligible, KeyBefore, Earliest;
    DeduplicationKeepsEarliest(entries, e);
    DeduplicationKeepsEarliest(entries, x);
    KeyTotal(e, x);
    EarliestMember(entries, e);
    EarliestMember(entries, x);
    if Choosable(entries, completed, counts, limits, e) && Choosable(entries, completed, counts, limits, x)
       && KeyBefore(e, x) && KeyBefore(x, e)
    {
      StampPins(entries, e, x);
    }
  }

  lemma {:induction false} OpenOfHas(s: seq<Entry>, e: Entry)
    ensures e in OpenOf(s) <==> e in s && e.obligation.status.Open?
  {
    if s != [] {
      assert s == [s[0]] + s[1..];
      OpenOfHas(s[1..], e);
    }
  }

  /** A plan is SATISFIED exactly when budget remains and every deduplicated entry is satisfied. */
  lemma SatisfiedExactlyWhen(entries: seq<Entry>, completed: set<Id>, counts: map<AttemptKey, nat>, used: int,
    limits: Limits)
    requires used >= 0 && Positive(limits)
    ensures PlanNext(entries, completed, counts, used, limits).value.status.AllSatisfied? <==>
              used < limits.stepBudget && forall e :: e in Deduplicated(entries) ==> e.obligation.status.Satisfied?
  {
    hide Deduplicated, Least, EligibleOf, OpenOf;
    var kept := Deduplicated(entries);
    var open := OpenOf(kept);
    if open != [] {
      assert open[0] in open;
      OpenOfHas(kept, open[0]);
    }
    forall e | e in kept && e.obligation.status.Open? ensures open != [] { OpenOfHas(kept, e); }
  }

  lemma LeastIn(s: seq<Entry>)
    requires s != []
    ensures Least(s) in s
  {}

  lemma EarliestMember(s: seq<Entry>, e: Entry)
    ensures Earliest(s, e) ==> e in s
  {}

  lemma NoneOpenNoneReady(kept: seq<Entry>, completed: set<Id>, counts: map<AttemptKey, nat>, maxAttempts: int)
    ensures OpenOf(kept) == [] ==> EligibleOf(OpenOf(kept), completed, counts, maxAttempts) == []
  {}

  /** The plan is the same for every order of the entries. */
  lemma PlanIgnoresOrder(a: seq<Entry>, b: seq<Entry>, completed: set<Id>, counts: map<AttemptKey, nat>, used: int,
    limits: Limits)
    requires multiset(a) == multiset(b) && DistinctStamps(a)
    ensures PlanNext(a, completed, counts, used, limits) == PlanNext(b, completed, counts, used, limits)
  {
    CreatedPreorders(a);
    SortOrderFree(a, b, CreatedBefore);
    assert Deduplicated(a) == Deduplicated(b);
  }

  // ------------------------------------------------------------ runs

  /** What one scheduling turn sees. */
  datatype Turn = Turn(entries: seq<Entry>, completed: set<Id>)

  datatype Tally = Tally(ready: nat, used: int, counts: map<AttemptKey, nat>)

  /** A run charges each READY plan its cost and one attempt of its key. */
  function Play(turns: seq<Turn>, used: int, counts: map<AttemptKey, nat>, limits: Limits): Tally
    decreases |turns|
  {
    if turns == [] then Tally(0, used, counts)
    else
      var plan := PlanNext(turns[0].entries, turns[0].completed, counts, used, limits);
      if plan.Some? && plan.value.status.Ready? && plan.value.selected.Some? then
        var key := plan.value.selected.value.1;
        var rest := Play(turns[1..], used + limits.readyCost, counts[key := Attempts(counts, key) + 1], limits);
        rest.(ready := rest.ready + 1)
      else Play(turns[1..], used, counts, limits)
  }

  /** How many READY plans of the run chose a key. */
  function Chosen(turns: seq<Turn>, used: int, counts: map<AttemptKey, nat>, limits: Limits, key: AttemptKey): nat
    decreases |turns|
  {
    if turns == [] then 0
    else
      var plan := PlanNext(turns[0].entries, turns[0].completed, counts, used, limits);
      if plan.Some? && plan.value.status.Ready? && plan.value.selected.Some? then
        var k := plan.value.selected.value.1;
        (if k == key then 1 else 0)
        + Chosen(turns[1..], used + limits.readyCost, counts[k := Attempts(counts, k) + 1], limits, key)
      else Chosen(turns[1..], used, counts, limits, key)
  }

  lemma ReadyIsAffordable(entries: seq<Entry>, completed: set<Id>, counts: map<AttemptKey, nat>, used: int,
    limits: Limits)
    requires var plan := PlanNext(entries, completed, counts, used, limits); plan.Some? && plan.value.status.Ready?
    ensures var plan := PlanNext(entries, completed, counts, used, limits).value;
      used >= 0 && Positive(limits) && used + limits.readyCost <= limits.stepBudget
      && plan.selected.Some? && Attempts(counts, plan.selected.value.1) < limits.maxAttempts
  {
    hide Deduplicated, KeyBefore, OpenOf;
    var kept := Deduplicated(entries);
    var ready := EligibleOf(OpenOf(kept), completed, counts, limits.maxAttempts);
    EligibleHas(kept, completed, counts, limits.maxAttempts, Least(ready));
  }

  /** From the start of a budget, any run has at most budget/cost READY plans, and at most
      `maxAttempts` for any key beyond those already counted. */
  lemma {:induction false} RunsAreBounded(turns: seq<Turn>, used: int, counts: map<AttemptKey, nat>, limits: Limits,
    key: AttemptKey)
    requires 0 <= used && Positive(limits) && Attempts(counts, key) <= limits.maxAttempts
    ensures var run := Play(turns, used, counts, limits);
      && run.used == used + run.ready * limits.readyCost
      && (run.ready > 0 ==> run.used <= limits.stepBudget)
      && Attempts(run.counts, key) == Attempts(counts, key) + Chosen(turns, used, counts, limits, key)
      && Attempts(run.counts, key) <= limits.maxAttempts
    decreases |turns|
  {
    hide PlanNext;
    if turns != [] {
      var plan := PlanNext(turns[0].entries, turns[0].completed, counts, used, limits);
      if plan.Some? && plan.value.status.Ready? && plan.value.selected.Some? {
        ReadyIsAffordable(turns[0].entries, turns[0].completed, counts, used, limits);
        var k := plan.value.selected.value.1;
        var more := counts[k := Attempts(counts, k) + 1];
        RunsAreBounded(turns[1..], used + limits.readyCost, more, limits, key);
        OneMore(Play(turns[1..], used + limits.readyCost, more, limits).ready, limits.readyCost);
      } else {
        RunsAreBounded(turns[1..], used, counts, limits, key);
      }
    }
  }

  lemma OneMore(n: nat, c: int)
    ensures (n + 1) * c == n * c + c
  {}

  lemma QuotientBound(n: int, c: int, b: int)
    requires c >= 1 && n >= 0 && n * c <= b
    ensures n <= b / c
  {
    if n > b / c { Monotone(b / c + 1, n, c); }
  }

  lemma Monotone(a: int, b: int, c: int)
    requires a <= b && c >= 0
    ensures a * c <= b * c
  {}

  /** The two bounds from the start: budget over cost in all, `maxAttempts` for each key. */
  lemma ReadyPlansAreBounded(turns: seq<Turn>, limits: Limits, key: AttemptKey)
    requires Positive(limits)
    ensures Play(turns, 0, map[], limits).ready <= limits.stepBudget / limits.readyCost
    ensures Chosen(turns, 0, map[], limits, key) <= limits.maxAttempts
  {
    hide PlanNext, Play, Chosen;
    RunsAreBounded(turns, 0, map[], limits, key);
    var n := Play(turns, 0, map[], limits).ready;
    QuotientBound(n, limits.readyCost, limits.stepBudget);
  }
}
