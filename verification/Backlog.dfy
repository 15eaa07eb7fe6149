/** Reconciling a backlog with findings, and applying the resulting effects to its items. */
module Backlog {
  import opened Sequences

  type Id = int
  type Fingerprint = int

  /** `text` stands for title, protected consequence and source. */
  datatype Item = Item(
    id: Id, fingerprint: Fingerprint, text: Id, rank: int, blocked: bool, closed: bool, recurrenceOf: Option<Id>)

  datatype Evidence = CheckedOpen | CheckedBlocked | CheckedClosable | Stale | Unknown | Contradicted

  datatype Finding = Finding(
    id: Id, fingerprint: Fingerprint, text: Id, evidence: Evidence, priority: int, recurrenceOf: Option<Id>)

  datatype Kind = Create | Dedupe | Rank | Block | Close

  datatype Effect = Effect(
    kind: Kind, findingId: Id, target: Id, fingerprint: Fingerprint, text: Id, recurrenceOf: Option<Id>,
    rank: Option<int>)

  /** The item identities derived from a fingerprint, and from a fingerprint and a finding. */
  datatype Naming = Naming(first: Fingerprint -> Id, again: (Fingerprint, Id) -> Id)

  datatype Error = Unauthorized | Inconsistent
  datatype Applied<+T> = Ok(value: T) | Err(error: Error)

  const APPLICABLE: set<Kind> := {Create, Dedupe, Rank, Block}

  predicate Checked(f: Finding) { f.evidence.CheckedOpen? || f.evidence.CheckedBlocked? || f.evidence.CheckedClosable? }

  // ------------------------------------------------------------ reconcile

  predicate FindingBefore(a: Finding, b: Finding) {
    a.priority > b.priority || (a.priority == b.priority && a.id <= b.id)
  }

  /** Last item of each fingerprint among the open, or among the closed, items. */
  function ByFingerprint(items: seq<Item>, closed: bool): map<Fingerprint, Id> {
    if items == [] then map[]
    else
      var last := items[|items|-1];
      var before := ByFingerprint(items[..|items|-1], closed);
      if last.closed == closed then before[last.fingerprint := last.id] else before
  }

  function TargetOf(existing: map<Fingerprint, Id>, closed: map<Fingerprint, Id>, f: Finding, naming: Naming): Id {
    if f.fingerprint in existing then existing[f.fingerprint]
    else if f.recurrenceOf.Some? || f.fingerprint in closed then naming.again(f.fingerprint, f.id)
    else naming.first(f.fingerprint)
  }

  function Recurrence(existing: map<Fingerprint, Id>, closed: map<Fingerprint, Id>, f: Finding): Option<Id> {
    if f.fingerprint !in existing && f.recurrenceOf.None? && f.fingerprint in closed then Some(closed[f.fingerprint])
    else f.recurrenceOf
  }

  function MakeEffect(kind: Kind, f: Finding, target: Id, recurrenceOf: Option<Id>, rank: Option<int>): Effect {
    Effect(kind, f.id, target, f.fingerprint, f.text, recurrenceOf, rank)
  }

  /** The effects of one checked finding. */
  function EffectsOf(existing: map<Fingerprint, Id>, closed: map<Fingerprint, Id>, f: Finding,
    naming: Naming): seq<Effect> {
    var target := TargetOf(existing, closed, f, naming);
    [ if f.fingerprint in existing then MakeEffect(Dedupe, f, target, f.recurrenceOf, None)
      else MakeEffect(Create, f, target, Recurrence(existing, closed, f), None),
      MakeEffect(Rank, f, target, f.recurrenceOf, Some(f.priority)) ]
    + if f.evidence.CheckedBlocked? then [MakeEffect(Block, f, target, f.recurrenceOf, None)]
      else if f.evidence.CheckedClosable? then [MakeEffect(Close, f, target, f.recurrenceOf, None)]
      else []
  }

  function Noted(existing: map<Fingerprint, Id>, f: Finding, target: Id): map<Fingerprint, Id> {
    if f.fingerprint in existing then existing else existing[f.fingerprint := target]
  }

  function ReconcileFrom(existing: map<Fingerprint, Id>, closed: map<Fingerprint, Id>, fs: seq<Finding>,
    naming: Naming): seq<Effect>
    decreases |fs|
  {
    if fs == [] then []
    else if !Checked(fs[0]) then ReconcileFrom(existing, closed, fs[1..], naming)
    else
      EffectsOf(existing, closed, fs[0], naming)
      + ReconcileFrom(Noted(existing, fs[0], TargetOf(existing, closed, fs[0], naming)), closed, fs[1..], naming)
  }

  function Trace(items: seq<Item>, findings: seq<Finding>, naming: Naming): seq<Effect> {
    ReconcileFrom(ByFingerprint(items, false), ByFingerprint(items, true), SortBy(findings, FindingBefore), naming)
  }

  /** The program's dictionaries of open and closed items, filled in item order. */
  method IndexItems(items: seq<Item>, closed: bool) returns (index: map<Fingerprint, Id>)
    ensures index == ByFingerprint(items, closed)
  {
    index := map[];
    for k := 0 to |items|
      invariant index == ByFingerprint(items[..k], closed)
    {
      assert items[..k+1][..k] == items[..k];
      if items[k].closed == closed { index := index[items[k].fingerprint := items[k].id]; }
    }
    assert items[..|items|] == items;
  }

  method Reconcile(items: seq<Item>, findings: seq<Finding>, naming: Naming) returns (effects: seq<Effect>)
    ensures effects == Trace(items, findings, naming)
  {
    hide EffectsOf, TargetOf, SortBy, Noted;
    var existing := IndexItems(items, false);
    var closed := IndexItems(items, true);
    ghost var start := existing;
    var sorted := SortBy(findings, FindingBefore);
    effects := [];
    for k := 0 to |sorted|
      invariant effects + ReconcileFrom(existing, closed, sorted[k..], naming)
          == ReconcileFrom(start, closed, sorted, naming)
    {
      ghost var rest := sorted[k+1..];
      assert sorted[k..][0] == sorted[k] && sorted[k..][1..] == rest;
      if Checked(sorted[k]) {
        var target := TargetOf(existing, closed, sorted[k], naming);
        var more := EffectsOf(existing, closed, sorted[k], naming);
        existing := Noted(existing, sorted[k], target);
        ghost var tail := ReconcileFrom(existing, closed, rest, naming);
        assert effects + (more + tail) == (effects + more) + tail;
        effects := effects + more;
      }
    }
  }

  // ------------------------------------------------------------ apply

  predicate DistinctIds(items: seq<Item>) { forall i, j :: 0 <= i < j < |items| ==> items[i].id != items[j].id }

  function ById(items: seq<Item>): map<Id, Item> {
    if items == [] then map[] else ById(items[..|items|-1])[items[|items|-1].id := items[|items|-1]]
  }

  function ApplyOne(m: map<Id, Item>, e: Effect, allowed: set<Kind>): Applied<map<Id, Item>> {
    if e.kind !in allowed then Err(Unauthorized)
    else if e.target !in m then
      if e.kind.Create? then Ok(m[e.target := Item(e.target, e.fingerprint, e.text, 0, false, false, e.recurrenceOf)])
      else Err(Inconsistent)
    else if m[e.target].fingerprint != e.fingerprint then Err(Inconsistent)
    else
      match e.kind
      case Rank => Ok(m[e.target := m[e.target].(rank := if e.rank.Some? then e.rank.value else 0)])
      case Block => Ok(m[e.target := m[e.target].(blocked := true)])
      case _ => Ok(m)
  }

  function ApplyAll(m: map<Id, Item>, effects: seq<Effect>, allowed: set<Kind>): Applied<map<Id, Item>>
    decreases |effects|
  {
    if effects == [] then Ok(m)
    else
      var next := ApplyOne(m, effects[0], allowed);
      if next.Err? then next else ApplyAll(next.value, effects[1..], allowed)
  }

  predicate RankBefore(a: Item, b: Item) { a.rank > b.rank || (a.rank == b.rank && a.id <= b.id) }

  /** The projection handed back: every item once, by falling rank and then identity. */
  ghost predicate Lists(items: seq<Item>, m: map<Id, Item>) {
    && Sorted(items, RankBefore) && DistinctIds(items)
    && (forall x :: x in items ==> x.id in m && m[x.id] == x)
    && (forall id :: id in m ==> m[id] in items && m[id].id == id)
  }

  /** The program's update loop over its dictionary; `order` is the dictionary's key order. */
  method ApplyEffects(items: seq<Item>, effects: seq<Effect>, allowed: set<Kind>) returns (r: Applied<seq<Item>>)
    ensures ApplyAll(ById(items), effects, allowed).Err? ==> r == Err(ApplyAll(ById(items), effects, allowed).error)
    ensures ApplyAll(ById(items), effects, allowed).Ok? ==>
        r.Ok? && Lists(r.value, ApplyAll(ById(items), effects, allowed).value)
  {
    hide SortBy;
    var byId, order := IndexById(items);
    for k := 0 to |effects|
      invariant ApplyAll(byId, effects[k..], allowed) == ApplyAll(ById(items), effects, allowed)
      invariant Keyed(byId, order)
    {
      assert effects[k..][0] == effects[k] && effects[k..][1..] == effects[k+1..];
      var next := ApplyOne(byId, effects[k], allowed);
      if next.Err? { return Err(next.error); }
      ApplyOneKeys(byId, effects[k], allowed);
      KeyAdded(byId, order, effects[k].target, next.value);
      if effects[k].target !in byId { order := order + [effects[k].target]; }
      byId := next.value;
    }
    assert effects[|effects|..] == [];
    var values := seq(|order|, i requires 0 <= i < |order| && order[i] in byId => byId[order[i]]);
    SortListing(byId, order, values);
    return Ok(SortBy(values, RankBefore));
  }

  ghost predicate Keyed(m: map<Id, Item>, order: seq<Id>) {
    && Distinct(order) && (forall i :: 0 <= i < |order| ==> order[i] in m)
    && (forall id :: id in m ==> m[id].id == id && exists i :: 0 <= i < |order| && order[i] == id)
  }

  lemma KeyAdded(m: map<Id, Item>, order: seq<Id>, id: Id, n: map<Id, Item>)
    requires Keyed(m, order) && n.Keys == m.Keys + {id} && forall k :: k in n ==> n[k].id == k
    ensures Keyed(n, if id in m then order else order + [id])
  {
    var after := if id in m then order else order + [id];
    forall k | k in n ensures exists i :: 0 <= i < |after| && after[i] == k {
      if k in m {
        var i :| 0 <= i < |order| && order[i] == k;
        assert after[i] == k;
      } else {
        assert after[|order|] == k;
      }
    }
    forall i | 0 <= i < |after| ensures after[i] in n {
      assert i < |order| ==> after[i] == order[i];
    }
  }

  method IndexById(items: seq<Item>) returns (m: map<Id, Item>, order: seq<Id>)
    ensures m == ById(items) && Keyed(m, order)
  {
    m, order := map[], [];
    for k := 0 to |items|
      invariant m == ById(items[..k]) && Keyed(m, order)
    {
      assert items[..k+1][..k] == items[..k];
      KeyAdded(m, order, items[k].id, m[items[k].id := items[k]]);
      if items[k].id !in m { order := order + [items[k].id]; }
      m := m[items[k].id := items[k]];
    }
    assert items[..|items|] == items;
  }

  /** A successful step keeps every key and adds at most its target. */
  lemma ApplyOneKeys(m: map<Id, Item>, e: Effect, allowed: set<Kind>)
    requires ApplyOne(m, e, allowed).Ok? && forall id :: id in m ==> m[id].id == id
    ensures var n := ApplyOne(m, e, allowed).value;
      n.Keys == m.Keys + {e.target} && forall id :: id in n ==> n[id].id == id
  {}

  lemma SortListing(m: map<Id, Item>, order: seq<Id>, values: seq<Item>)
    requires Keyed(m, order) && |values| == |order|
    requires forall i :: 0 <= i < |order| ==> order[i] in m && values[i] == m[order[i]]
    ensures Lists(SortBy(values, RankBefore), m)
  {
    hide SortBy;
    SortSorts(values, RankBefore);
    ValuesOnce(m, order, values);
    Rearranged(values, SortBy(values, RankBefore), m) by { SortPermutes(values, RankBefore); }
  }

  /** The items of a map in some order. */
  ghost predicate Holds(items: seq<Item>, m: map<Id, Item>) {
    && Distinct(items)
    && (forall x :: x in items ==> x.id in m && m[x.id] == x)
    && (forall id :: id in m ==> m[id] in items && m[id].id == id)
  }

  lemma ValuesOnce(m: map<Id, Item>, order: seq<Id>, values: seq<Item>)
    requires Keyed(m, order) && |values| == |order|
    requires forall i :: 0 <= i < |order| ==> order[i] in m && values[i] == m[order[i]]
    ensures Holds(values, m)
  {
    forall i, j | 0 <= i < j < |values| ensures values[i] != values[j] {
      assert order[i] != order[j];
    }
    forall id | id in m ensures m[id] in values {
      var i :| 0 <= i < |order| && order[i] == id;
      assert values[i] == m[id];
    }
    forall x | x in values ensures x.id in m && m[x.id] == x {
      var i :| 0 <= i < |values| && values[i] == x;
      var id: Id := order[i];
      assert id in m && m[id].id == id;
    }
  }

  lemma Rearranged(a: seq<Item>, b: seq<Item>, m: map<Id, Item>)
    requires Holds(a, m) && multiset(a) == multiset(b)
    ensures Holds(b, m) && DistinctIds(b)
  {
    DistinctMultiset(a, b);
    MultisetMembers(a, b);
    forall i, j | 0 <= i < j < |b| ensures b[i].id != b[j].id {
      assert b[i] in b && b[j] in b && b[i] != b[j];
    }
  }

  /** At most one sequence lists a map. */
  lemma ListingUnique(a: seq<Item>, b: seq<Item>, m: map<Id, Item>)
    requires Lists(a, m) && Lists(b, m)
    ensures a == b
  {
    forall x ensures x in Elements(a) <==> x in Elements(b) {
      if x in a { assert m[x.id] in b; }
      if x in b { assert m[x.id] in a; }
    }
    SameMembersPermute(a, b);
    SortedUnique(a, b, RankBefore);
  }

  lemma {:induction false} ByIdHas(items: seq<Item>)
    requires DistinctIds(items)
    ensures forall x :: x in items ==> x.id in ById(items) && ById(items)[x.id] == x
    ensures forall id :: id in ById(items) ==> ById(items)[id] in items && ById(items)[id].id == id
  {
    if items != [] {
      var front, last := items[..|items|-1], items[|items|-1];
      assert items == front + [last];
      ByIdHas(front);
      forall x | x in front ensures x.id != last.id {
        var i :| 0 <= i < |front| && front[i] == x;
        assert items[i] == x;
      }
    }
  }

  lemma {:induction false} ByIdKeys(items: seq<Item>)
    ensures forall id :: id in ById(items) ==> ById(items)[id].id == id && ById(items)[id] in items
  {
    if items != [] {
      var front := items[..|items|-1];
      ByIdKeys(front);
      assert items == front + [items[|items|-1]];
    }
  }

  /** Indexing a listing gives back the map it lists. */
  lemma ListedMap(items: seq<Item>, m: map<Id, Item>)
    requires Lists(items, m)
    ensures ById(items) == m
  {
    ByIdHas(items);
    forall id ensures id in m <==> id in ById(items) {
      if id in m { assert m[id] in items; }
    }
    forall id | id in m ensures m[id] == ById(items)[id] { assert m[id] in items; }
    assert ById(items).Keys == m.Keys;
  }

  // ------------------------------------------------------------ concatenation and idempotence

  lemma {:induction false} ApplySplits(m: map<Id, Item>, a: seq<Effect>, b: seq<Effect>, allowed: set<Kind>)
    ensures ApplyAll(m, a + b, allowed)
         == (var mid := ApplyAll(m, a, allowed); if mid.Err? then mid else ApplyAll(mid.value, b, allowed))
    decreases |a|
  {
    hide ApplyOne;
    if a == [] {
      assert a + b == b;
    } else {
      assert (a + b)[0] == a[0] && (a + b)[1..] == a[1..] + b;
      var next := ApplyOne(m, a[0], allowed);
      if next.Ok? { ApplySplits(next.value, a[1..], b, allowed); }
    }
  }

  /** What `ApplyEffects` returns. */
  ghost predicate Result(items: seq<Item>, effects: seq<Effect>, allowed: set<Kind>, r: Applied<seq<Item>>) {
    var m := ApplyAll(ById(items), effects, allowed);
    if m.Err? then r == Err(m.error) else r.Ok? && Lists(r.value, m.value)
  }

  /** Applying two effect lists one after the other, through the sorted projection in between,
      gives exactly what applying their concatenation gives, exceptions included. */
  lemma ApplyingSplitsOverConcatenation(items: seq<Item>, a: seq<Effect>, b: seq<Effect>, allowed: set<Kind>,
                                        first: Applied<seq<Item>>, second: Applied<seq<Item>>,
                                        whole: Applied<seq<Item>>)
    requires Result(items, a, allowed, first) && Result(items, a + b, allowed, whole)
    requires first.Ok? ==> Result(first.value, b, allowed, second)
    ensures whole == if first.Ok? then second else first
  {
    hide ApplyAll;
    ApplySplits(ById(items), a, b, allowed);
    if first.Ok? {
      var mid := ApplyAll(ById(items), a, allowed).value;
      ListedMap(first.value, mid);
      if second.Ok? { ListingUnique(whole.value, second.value, ApplyAll(mid, b, allowed).value); }
    }
  }

  /** The rank the effects leave on a target, when any effect ranks it. */
  function LastRank(effects: seq<Effect>, id: Id): Option<int> {
    if effects == [] then None
    else
      var last := effects[|effects|-1];
      if last.kind.Rank? && last.target == id then Some(if last.rank.Some? then last.rank.value else 0)
      else LastRank(effects[..|effects|-1], id)
  }

  function Ranked(item: Item, effects: seq<Effect>): Item {
    var r := LastRank(effects, item.id);
    if r.Some? then item.(rank := r.value) else item
  }

  /** Every effect is allowed and finds its own item, already blocked where it blocks. */
  predicate Absorbs(m: map<Id, Item>, effects: seq<Effect>, allowed: set<Kind>) {
    forall e :: e in effects ==>
      && e.kind in allowed && e.target in m && m[e.target].fingerprint == e.fingerprint
      && (e.kind.Block? ==> m[e.target].blocked)
  }

  lemma ApplyLast(m: map<Id, Item>, effects: seq<Effect>, allowed: set<Kind>)
    requires effects != []
    ensures ApplyAll(m, effects, allowed)
         == (var mid := ApplyAll(m, effects[..|effects|-1], allowed);
             if mid.Err? then mid else ApplyOne(mid.value, effects[|effects|-1], allowed))
  {
    hide ApplyOne;
    var front, last := effects[..|effects|-1], effects[|effects|-1];
    assert effects == front + [last];
    ApplySplits(m, front, [last], allowed);
    var mid := ApplyAll(m, front, allowed);
    if mid.Ok? {
      var next := ApplyOne(mid.value, last, allowed);
      assert [last][1..] == [];
      if next.Ok? { assert ApplyAll(next.value, [], allowed) == next; }
    }
  }

  /** On a map that absorbs them, effects only set ranks. */
  lemma {:induction false} AbsorbedOnlyRanks(m: map<Id, Item>, effects: seq<Effect>, allowed: set<Kind>)
    requires Absorbs(m, effects, allowed) && forall id :: id in m ==> m[id].id == id
    ensures var r := ApplyAll(m, effects, allowed);
      r.Ok? && r.value.Keys == m.Keys && forall id :: id in m ==> r.value[id] == Ranked(m[id], effects)
    decreases |effects|
  {
    if effects != [] {
      var front, last := effects[..|effects|-1], effects[|effects|-1];
      assert effects == front + [last];
      AbsorbedOnlyRanks(m, front, allowed);
      ApplyLast(m, effects, allowed);
    }
  }

  /** A successful application leaves a map that absorbs its effects at their final ranks. */
  lemma {:induction false} AppliedIsAbsorbed(m: map<Id, Item>, effects: seq<Effect>, allowed: set<Kind>)
    requires ApplyAll(m, effects, allowed).Ok? && forall id :: id in m ==> m[id].id == id
    ensures var n := ApplyAll(m, effects, allowed).value;
      && Absorbs(n, effects, allowed) && (forall id :: id in n ==> n[id].id == id && Ranked(n[id], effects) == n[id])
      && m.Keys <= n.Keys
      && (forall id :: id in m ==> n[id].fingerprint == m[id].fingerprint && n[id].closed == m[id].closed)
    decreases |effects|
  {
    if effects != [] {
      var front, last := effects[..|effects|-1], effects[|effects|-1];
      assert effects == front + [last];
      ApplyLast(m, effects, allowed);
      AppliedIsAbsorbed(m, front, allowed);
      ApplyOneAbsorbs(ApplyAll(m, front, allowed).value, front, last, allowed);
    }
  }

  lemma ApplyOneAbsorbs(n: map<Id, Item>, front: seq<Effect>, e: Effect, allowed: set<Kind>)
    requires Absorbs(n, front, allowed) && ApplyOne(n, e, allowed).Ok?
    requires forall id :: id in n ==> n[id].id == id && Ranked(n[id], front) == n[id]
    ensures var k := ApplyOne(n, e, allowed).value;
      && Absorbs(k, front + [e], allowed)
          && (forall id :: id in k ==> k[id].id == id && Ranked(k[id], front + [e]) == k[id])
      && n.Keys <= k.Keys
      && (forall id :: id in n ==> k[id].fingerprint == n[id].fingerprint && k[id].closed == n[id].closed)
  {
    var k := ApplyOne(n, e, allowed).value;
    assert (front + [e])[..|front|] == front;
    if e.target !in n { Unranked(front, e.target, n, allowed); }
  }

  lemma {:induction false} Unranked(effects: seq<Effect>, id: Id, n: map<Id, Item>, allowed: set<Kind>)
    requires Absorbs(n, effects, allowed) && id !in n
    ensures LastRank(effects, id).None?
  {
    if effects != [] {
      assert effects[|effects|-1] in effects;
      Unranked(effects[..|effects|-1], id, n, allowed);
    }
  }

  lemma AbsorbedIsFixed(n: map<Id, Item>, effects: seq<Effect>, allowed: set<Kind>)
    requires Absorbs(n, effects, allowed) && forall id :: id in n ==> n[id].id == id && Ranked(n[id], effects) == n[id]
    ensures ApplyAll(n, effects, allowed) == Ok(n)
  {
    AbsorbedOnlyRanks(n, effects, allowed);
    var r := ApplyAll(n, effects, allowed).value;
    forall id | id in n ensures r[id] == n[id] {}
    assert r == n;
  }

  /** Applying the same effects again changes no item. */
  lemma ApplyingIsIdempotent(items: seq<Item>, effects: seq<Effect>, allowed: set<Kind>,
                             once: seq<Item>, twice: Applied<seq<Item>>)
    requires Result(items, effects, allowed, Ok(once)) && Result(once, effects, allowed, twice)
    ensures twice == Ok(once)
  {
    hide ApplyAll, Absorbs, Ranked;
    ByIdKeys(items);
    var n := ApplyAll(ById(items), effects, allowed).value;
    AppliedIsAbsorbed(ById(items), effects, allowed);
    ListedMap(once, n);
    AbsorbedIsFixed(n, effects, allowed);
    ListingUnique(once, twice.value, n);
  }

  // ------------------------------------------------------------ when reconciling may be applied

  /** The effects the bounded policy lets through; closing stays a proposal. */
  function Allowed(effects: seq<Effect>): seq<Effect>
    decreases |effects|
  {
    if effects == [] then []
    else (if effects[0].kind in APPLICABLE then [effects[0]] else []) + Allowed(effects[1..])
  }

  lemma {:induction false} AllowedSplits(a: seq<Effect>, b: seq<Effect>)
    ensures Allowed(a + b) == Allowed(a) + Allowed(b)
    decreases |a|
  {
    if a == [] {
      assert a + b == b;
    } else {
      assert (a + b)[0] == a[0] && (a + b)[1..] == a[1..] + b;
      AllowedSplits(a[1..], b);
    }
  }

  /** Targets by fingerprint after the whole loop. */
  function Targets(existing: map<Fingerprint, Id>, closed: map<Fingerprint, Id>, fs: seq<Finding>,
    naming: Naming): map<Fingerprint, Id>
    decreases |fs|
  {
    if fs == [] then existing
    else if !Checked(fs[0]) then Targets(existing, closed, fs[1..], naming)
    else Targets(Noted(existing, fs[0], TargetOf(existing, closed, fs[0], naming)), closed, fs[1..], naming)
  }

  lemma {:induction false} TargetsGrow(existing: map<Fingerprint, Id>, closed: map<Fingerprint, Id>, fs: seq<Finding>,
    naming: Naming)
    ensures forall p :: p in existing ==>
        p in Targets(existing, closed, fs, naming) && Targets(existing, closed, fs, naming)[p] == existing[p]
    decreases |fs|
  {
    hide TargetOf;
    if fs != [] {
      var noted := Noted(existing, fs[0], TargetOf(existing, closed, fs[0], naming));
      TargetsGrow(if Checked(fs[0]) then noted else existing, closed, fs[1..], naming);
    }
  }

  /** No derived identity names an item of another fingerprint, and no two fingerprints derive one identity. */
  predicate Harmonious(m: map<Id, Item>, existing: map<Fingerprint, Id>, all: map<Fingerprint, Id>) {
    && (forall p :: p in all && p !in existing && all[p] in m ==> m[all[p]].fingerprint == p)
    && (forall p, q :: p in all && q in all && p !in existing && q !in existing && all[p] == all[q] ==> p == q)
  }

  /** Every noted target is an item of its fingerprint. */
  predicate Tracks(m: map<Id, Item>, existing: map<Fingerprint, Id>) {
    forall p :: p in existing ==> existing[p] in m && m[existing[p]].fingerprint == p
  }

  lemma ApplyTwo(m: map<Id, Item>, a: Effect, b: Effect, allowed: set<Kind>)
    ensures ApplyAll(m, [a, b], allowed)
         == (var n := ApplyOne(m, a, allowed); if n.Err? then n else ApplyOne(n.value, b, allowed))
  {
    hide ApplyOne;
    assert [a, b] == [a] + [b];
    ApplySplits(m, [a], [b], allowed);
    ApplySingle(m, a, allowed);
    var n := ApplyOne(m, a, allowed);
    if n.Ok? { ApplySingle(n.value, b, allowed); }
  }

  lemma ApplySingle(m: map<Id, Item>, a: Effect, allowed: set<Kind>)
    ensures ApplyAll(m, [a], allowed) == ApplyOne(m, a, allowed)
  {
    assert [a][1..] == [];
    var n := ApplyOne(m, a, allowed);
    if n.Ok? { assert ApplyAll(n.value, [], allowed) == n; }
  }

  /** One finding: it is applied unless its target already belongs to another fingerprint. */
  lemma OneFinding(m: map<Id, Item>, existing: map<Fingerprint, Id>, closed: map<Fingerprint, Id>, f: Finding,
    naming: Naming)
    requires Tracks(m, existing) && Checked(f)
    ensures var t := TargetOf(existing, closed, f, naming);
      var r := ApplyAll(m, Allowed(EffectsOf(existing, closed, f, naming)), APPLICABLE);
      && (r.Ok? <==> (t in m ==> m[t].fingerprint == f.fingerprint))
      && (r.Ok? ==> r.value.Keys == m.Keys + {t} && r.value[t].fingerprint == f.fingerprint
                    && forall id :: id in m ==> r.value[id].fingerprint == m[id].fingerprint)
      && (r.Err? ==> r.error.Inconsistent?)
  {
    hide TargetOf, Recurrence;
    var t := TargetOf(existing, closed, f, naming);
    if f.fingerprint in existing { KnownTarget(existing, closed, f, naming); }
    var all := EffectsOf(existing, closed, f, naming);
    var two := [all[0], all[1]];
    var rest := all[2..];
    assert all == two + rest;
    AllowedSplits(two, rest);
    AllowedTwo(all[0], all[1]);
    ApplySplits(m, two, Allowed(rest), APPLICABLE);
    ApplyTwo(m, all[0], all[1], APPLICABLE);
    if rest != [] {
      AllowedOne(rest[0]);
      assert rest == [rest[0]];
      var mid := ApplyAll(m, two, APPLICABLE);
      if mid.Ok? { ApplySingle(mid.value, rest[0], APPLICABLE); }
    }
  }

  lemma KnownTarget(existing: map<Fingerprint, Id>, closed: map<Fingerprint, Id>, f: Finding, naming: Naming)
    requires f.fingerprint in existing
    ensures TargetOf(existing, closed, f, naming) == existing[f.fingerprint]
  {}

  lemma AllowedOne(a: Effect)
    ensures Allowed([a]) == if a.kind in APPLICABLE then [a] else []
  {
    assert [a][1..] == [];
  }

  lemma AllowedTwo(a: Effect, b: Effect)
    requires a.kind in APPLICABLE && b.kind in APPLICABLE
    ensures Allowed([a, b]) == [a, b]
  {
    assert [a, b] == [a] + [b];
    AllowedSplits([a], [b]);
    AllowedOne(a);
    AllowedOne(b);
  }

  lemma {:induction false} RaisesOnlyOnCollision(m: map<Id, Item>, existing: map<Fingerprint, Id>,
    closed: map<Fingerprint, Id>, fs: seq<Finding>, naming: Naming)
    requires Tracks(m, existing)
    ensures var r := ApplyAll(m, Allowed(ReconcileFrom(existing, closed, fs, naming)), APPLICABLE);
      && (r.Ok? <==> Harmonious(m, existing, Targets(existing, closed, fs, naming)))
      && (r.Err? ==> r.error.Inconsistent?)
    decreases |fs|
  {
    hide TargetOf, EffectsOf, ApplyOne, Harmonious;
    if fs == [] {
      EmptyHarmony(m, existing);
    } else if !Checked(fs[0]) {
      RaisesOnlyOnCollision(m, existing, closed, fs[1..], naming);
    } else {
      var f := fs[0];
      var t := TargetOf(existing, closed, f, naming);
      var noted := Noted(existing, f, t);
      var head, tail := EffectsOf(existing, closed, f, naming), ReconcileFrom(noted, closed, fs[1..], naming);
      AllowedSplits(head, tail);
      ApplySplits(m, Allowed(head), Allowed(tail), APPLICABLE);
      OneFinding(m, existing, closed, f, naming);
      KnownOrNoted(existing, closed, f, naming);
      TargetsGrow(noted, closed, fs[1..], naming);
      var all := Targets(noted, closed, fs[1..], naming);
      var r := ApplyAll(m, Allowed(head), APPLICABLE);
      if r.Ok? {
        RaisesOnlyOnCollision(r.value, noted, closed, fs[1..], naming);
        HarmonyStep(m, r.value, existing, noted, f, t, all);
      } else {
        DiscordNow(m, existing, f, t, all);
      }
    }
  }

  lemma EmptyHarmony(m: map<Id, Item>, existing: map<Fingerprint, Id>)
    ensures Harmonious(m, existing, existing)
  {}

  lemma KnownOrNoted(existing: map<Fingerprint, Id>, closed: map<Fingerprint, Id>, f: Finding, naming: Naming)
    ensures var t := TargetOf(existing, closed, f, naming);
      Noted(existing, f, t).Keys == existing.Keys + {f.fingerprint} && Noted(existing, f, t)[f.fingerprint] == t
  {}

  lemma HarmonyStep(m: map<Id, Item>, n: map<Id, Item>, existing: map<Fingerprint, Id>, noted: map<Fingerprint, Id>,
                    f: Finding, t: Id, all: map<Fingerprint, Id>)
    requires Tracks(m, existing) && noted == Noted(existing, f, t) && noted[f.fingerprint] == t
    requires n.Keys == m.Keys + {t} && n[t].fingerprint == f.fingerprint
    requires forall id :: id in m ==> n[id].fingerprint == m[id].fingerprint
    requires forall p :: p in noted ==> p in all && all[p] == noted[p]
    ensures Harmonious(n, noted, all) <==> Harmonious(m, existing, all)
  {
    if Harmonious(n, noted, all) {
      forall p | p in all && p !in existing && all[p] in m ensures m[all[p]].fingerprint == p {
        assert p == f.fingerprint || p !in noted;
        var id: Id := all[p];
        assert id in m && n[id].fingerprint == m[id].fingerprint;
      }
      forall p, q | p in all && q in all && p !in existing && q !in existing && all[p] == all[q] ensures p == q {
        OneOwner(n, noted, all, f.fingerprint, t, p, q);
      }
    }
    if Harmonious(m, existing, all) {
      forall p | p in all && p !in noted && all[p] in n ensures n[all[p]].fingerprint == p {
        assert p !in existing && p != f.fingerprint;
        var id: Id := all[p];
        assert f.fingerprint in all && all[f.fingerprint] == t;
        assert id in m ==> n[id].fingerprint == m[id].fingerprint == p;
      }
    }
  }

  lemma OneOwner(n: map<Id, Item>, noted: map<Fingerprint, Id>, all: map<Fingerprint, Id>, fp: Fingerprint, t: Id,
    p: Fingerprint, q: Fingerprint)
    requires Harmonious(n, noted, all) && fp in noted && t in n && n[t].fingerprint == fp && fp in all && all[fp] == t
    requires p in all && q in all && all[p] == all[q] && (p == fp || p !in noted) && (q == fp || q !in noted)
    ensures p == q
  {}

  lemma DiscordNow(m: map<Id, Item>, existing: map<Fingerprint, Id>, f: Finding, t: Id, all: map<Fingerprint, Id>)
    requires Tracks(m, existing) && t in m && m[t].fingerprint != f.fingerprint
    requires f.fingerprint in all && all[f.fingerprint] == t
    requires (f.fingerprint in existing ==> existing[f.fingerprint] == t)
    ensures !Harmonious(m, existing, all)
  {}

  predicate OneOpenPerFingerprint(items: seq<Item>) {
    forall x, y :: x in items && y in items && !x.closed && !y.closed && x.fingerprint == y.fingerprint ==> x == y
  }

  lemma {:induction false} IndexedItem(items: seq<Item>, closed: bool)
    ensures forall p :: p in ByFingerprint(items, closed) ==>
              exists x :: x in items && x.closed == closed && x.fingerprint == p
                && x.id == ByFingerprint(items, closed)[p]
    ensures forall x :: x in items && x.closed == closed ==> x.fingerprint in ByFingerprint(items, closed)
  {
    if items != [] {
      var front, last := items[..|items|-1], items[|items|-1];
      assert items == front + [last];
      IndexedItem(front, closed);
      forall p | p in ByFingerprint(items, closed)
        ensures exists x ::
          x in items && x.closed == closed && x.fingerprint == p && x.id == ByFingerprint(items, closed)[p]
      {
        if last.closed == closed && last.fingerprint == p {
          assert last in items;
        } else {
          assert p in ByFingerprint(front, closed);
          var x :| x in front && x.closed == closed && x.fingerprint == p && x.id == ByFingerprint(front, closed)[p];
          assert x in items;
        }
      }
    }
  }

  lemma OpenTracked(items: seq<Item>, closed: bool)
    requires DistinctIds(items)
    ensures Tracks(ById(items), ByFingerprint(items, closed))
  {
    IndexedItem(items, closed);
    ByIdHas(items);
  }

  /** Applying the policy-allowed effects of a reconciliation raises exactly when a derived
      identity names an item of another fingerprint or two fingerprints derive one identity. */
  lemma ReconcilingRaisesIff(items: seq<Item>, findings: seq<Finding>, naming: Naming, r: Applied<seq<Item>>)
    requires DistinctIds(items) && Result(items, Allowed(Trace(items, findings, naming)), APPLICABLE, r)
    ensures var existing := ByFingerprint(items, false);
      r.Ok? <==> Harmonious(ById(items), existing,
          Targets(existing, ByFingerprint(items, true), SortBy(findings, FindingBefore), naming))
    ensures r.Err? ==> r.error.Inconsistent?
  {
    hide Harmonious, SortBy, ApplyAll, ReconcileFrom, Targets;
    OpenTracked(items, false);
    RaisesOnlyOnCollision(
      ById(items), ByFingerprint(items, false), ByFingerprint(items, true), SortBy(findings, FindingBefore), naming);
  }

  // ------------------------------------------------------------ the fixpoint

  /** The same work on the same item; a creation may be repeated as a deduplication. */
  predicate SameWork(a: Effect, b: Effect) {
    && b.target == a.target && b.fingerprint == a.fingerprint && b.rank == a.rank
    && (b.kind == a.kind || (a.kind.Create? && b.kind.Dedupe?))
  }

  predicate SameWorks(a: seq<Effect>, b: seq<Effect>) {
    |a| == |b| && forall i :: 0 <= i < |a| ==> SameWork(a[i], b[i])
  }

  lemma SameWorksJoin(a: seq<Effect>, b: seq<Effect>, c: seq<Effect>, d: seq<Effect>)
    requires SameWorks(a, b) && SameWorks(c, d)
    ensures SameWorks(a + c, b + d)
  {
    hide SameWork;
    forall i | 0 <= i < |a + c| ensures SameWork((a + c)[i], (b + d)[i]) {
      if i >= |a| { assert SameWork(c[i - |a|], d[i - |a|]); }
    }
  }

  lemma {:induction false} AllowedSameWorks(a: seq<Effect>, b: seq<Effect>)
    requires SameWorks(a, b)
    ensures SameWorks(Allowed(a), Allowed(b))
    decreases |a|
  {
    if a != [] {
      assert SameWork(a[0], b[0]);
      AllowedSameWorks(a[1..], b[1..]);
      SameWorksJoin(
        if a[0].kind in APPLICABLE then [a[0]] else [], if b[0].kind in APPLICABLE then [b[0]] else [],
        Allowed(a[1..]), Allowed(b[1..]));
    }
  }

  lemma {:induction false} SameLastRank(a: seq<Effect>, b: seq<Effect>, id: Id)
    requires SameWorks(a, b)
    ensures LastRank(a, id) == LastRank(b, id)
    decreases |a|
  {
    if a != [] {
      assert SameWork(a[|a|-1], b[|b|-1]);
      SameLastRank(a[..|a|-1], b[..|b|-1], id);
    }
  }

  lemma SameWorksFixed(n: map<Id, Item>, a: seq<Effect>, b: seq<Effect>)
    requires SameWorks(a, b) && Absorbs(n, a, APPLICABLE)
    requires forall id :: id in n ==> n[id].id == id && Ranked(n[id], a) == n[id]
    ensures ApplyAll(n, b, APPLICABLE) == Ok(n)
  {
    forall e | e in b
      ensures e.kind in APPLICABLE && e.target in n && n[e.target].fingerprint == e.fingerprint
      ensures (e.kind.Block? ==> n[e.target].blocked)
    {
      var i :| 0 <= i < |b| && b[i] == e;
      assert SameWork(a[i], b[i]) && a[i] in a;
    }
    forall id | id in n ensures Ranked(n[id], b) == n[id] { SameLastRank(a, b, id); }
    AbsorbedIsFixed(n, b, APPLICABLE);
  }

  lemma OneFindingSameWorks(ex: map<Fingerprint, Id>, cl: map<Fingerprint, Id>, ex': map<Fingerprint, Id>,
    cl': map<Fingerprint, Id>,
                            f: Finding, naming: Naming)
    requires Checked(f) && cl.Keys == cl'.Keys && (f.fingerprint in ex ==> f.fingerprint in ex')
    requires f.fingerprint in ex' ==> ex'[f.fingerprint] == TargetOf(ex, cl, f, naming)
    ensures TargetOf(ex', cl', f, naming) == TargetOf(ex, cl, f, naming)
    ensures SameWorks(EffectsOf(ex, cl, f, naming), EffectsOf(ex', cl', f, naming))
  {}

  /** Reconciling again from the items the first pass left does the same work. */
  lemma {:induction false} ReconcilesAlike(ex: map<Fingerprint, Id>, cl: map<Fingerprint, Id>,
    ex': map<Fingerprint, Id>, cl': map<Fingerprint, Id>,
                                           fs: seq<Finding>, naming: Naming)
    requires cl.Keys == cl'.Keys && ex.Keys <= ex'.Keys
    requires forall p :: p in ex' && p in Targets(ex, cl, fs, naming) ==> ex'[p] == Targets(ex, cl, fs, naming)[p]
    ensures SameWorks(ReconcileFrom(ex, cl, fs, naming), ReconcileFrom(ex', cl', fs, naming))
    decreases |fs|
  {
    hide TargetOf, EffectsOf, SameWorks;
    if fs == [] {
      NoWork();
    } else if !Checked(fs[0]) {
      ReconcilesAlike(ex, cl, ex', cl', fs[1..], naming);
    } else {
      var f := fs[0];
      var t := TargetOf(ex, cl, f, naming);
      KnownOrNoted(ex, cl, f, naming);
      TargetsGrow(Noted(ex, f, t), cl, fs[1..], naming);
      OneFindingSameWorks(ex, cl, ex', cl', f, naming);
      KnownOrNoted(ex', cl', f, naming);
      ReconcilesAlike(Noted(ex, f, t), cl, Noted(ex', f, t), cl', fs[1..], naming);
      SameWorksJoin(
        EffectsOf(ex, cl, f, naming), EffectsOf(ex', cl', f, naming),
        ReconcileFrom(Noted(ex, f, t), cl, fs[1..], naming), ReconcileFrom(Noted(ex', f, t), cl', fs[1..], naming));
    }
  }

  lemma NoWork()
    ensures SameWorks([], [])
  {}

  /** Each effect names the target its fingerprint ends with. */
  lemma {:induction false} EffectsNameTargets(ex: map<Fingerprint, Id>, cl: map<Fingerprint, Id>, fs: seq<Finding>,
    naming: Naming, e: Effect)
    requires e in ReconcileFrom(ex, cl, fs, naming)
    ensures e.fingerprint in Targets(ex, cl, fs, naming) && Targets(ex, cl, fs, naming)[e.fingerprint] == e.target
    decreases |fs|
  {
    hide TargetOf, Recurrence;
    if !Checked(fs[0]) {
      EffectsNameTargets(ex, cl, fs[1..], naming, e);
    } else {
      var t := TargetOf(ex, cl, fs[0], naming);
      var noted := Noted(ex, fs[0], t);
      KnownOrNoted(ex, cl, fs[0], naming);
      TargetsGrow(noted, cl, fs[1..], naming);
      if e !in EffectsOf(ex, cl, fs[0], naming) { EffectsNameTargets(noted, cl, fs[1..], naming, e); }
    }
  }

  lemma {:induction false} AllowedHas(effects: seq<Effect>, e: Effect)
    requires e in Allowed(effects)
    ensures e in effects
    decreases |effects|
  {
    if e !in [effects[0]] { AllowedHas(effects[1..], e); }
  }

  /** Items the effects brought in are open and come from an effect that names them. */
  lemma {:induction false} NewItemsAreCreated(m: map<Id, Item>, effects: seq<Effect>, allowed: set<Kind>, id: Id)
    returns (e: Effect)
    requires ApplyAll(m, effects, allowed).Ok? && id in ApplyAll(m, effects, allowed).value && id !in m
    ensures e in effects && e.target == id
    ensures !ApplyAll(m, effects, allowed).value[id].closed
    ensures ApplyAll(m, effects, allowed).value[id].fingerprint == e.fingerprint
    decreases |effects|
  {
    var front, last := effects[..|effects|-1], effects[|effects|-1];
    assert effects == front + [last];
    ApplyLast(m, effects, allowed);
    var mid := ApplyAll(m, front, allowed).value;
    if id in mid {
      e := NewItemsAreCreated(m, front, allowed, id);
    } else {
      e := last;
    }
  }

  /** An open item after the first pass is the target its fingerprint ends with. */
  lemma OpenIsTarget(items: seq<Item>, findings: seq<Finding>, naming: Naming, id: Id)
    requires DistinctIds(items) && OneOpenPerFingerprint(items)
    requires ApplyAll(ById(items), Allowed(Trace(items, findings, naming)), APPLICABLE).Ok?
    requires id in ApplyAll(ById(items), Allowed(Trace(items, findings, naming)), APPLICABLE).value
    ensures var n := ApplyAll(ById(items), Allowed(Trace(items, findings, naming)), APPLICABLE).value;
      var all := Targets(
        ByFingerprint(items, false), ByFingerprint(items, true), SortBy(findings, FindingBefore), naming);
      !n[id].closed ==> n[id].fingerprint in all && all[n[id].fingerprint] == id
  {
    hide ApplyAll, ReconcileFrom, SortBy, Targets, ById, ByFingerprint, Absorbs, Ranked;
    var m, effects := ById(items), Allowed(Trace(items, findings, naming));
    var n := ApplyAll(m, effects, APPLICABLE).value;
    var ex, cl, fs := ByFingerprint(items, false), ByFingerprint(items, true), SortBy(findings, FindingBefore);
    ByIdHas(items);
    AppliedIsAbsorbed(m, effects, APPLICABLE);
    if id in m {
      if !n[id].closed {
        IndexedItem(items, false);
        TargetsGrow(ex, cl, fs, naming);
        assert m[id] in items;
      }
    } else {
      var e := NewItemsAreCreated(m, effects, APPLICABLE, id);
      AllowedHas(Trace(items, findings, naming), e);
      EffectsNameTargets(ex, cl, fs, naming, e);
    }
  }

  lemma SameClosedFingerprints(items: seq<Item>, effects: seq<Effect>, next: seq<Item>)
    requires DistinctIds(items) && Result(items, effects, APPLICABLE, Ok(next))
    ensures ByFingerprint(next, true).Keys == ByFingerprint(items, true).Keys
    ensures ByFingerprint(items, false).Keys <= ByFingerprint(next, false).Keys
  {
    hide ApplyAll, ById, ByFingerprint, Absorbs, Ranked;
    var m := ById(items);
    var n := ApplyAll(m, effects, APPLICABLE).value;
    ByIdHas(items);
    AppliedIsAbsorbed(m, effects, APPLICABLE);
    IndexedItem(items, true);
    IndexedItem(next, true);
    IndexedItem(items, false);
    IndexedItem(next, false);
    forall x | x in items
      ensures n[x.id] in next && n[x.id].fingerprint == x.fingerprint && n[x.id].closed == x.closed
    {
      assert x.id in m;
    }
    forall p | p in ByFingerprint(next, true) ensures p in ByFingerprint(items, true) {
      var y :| y in next && y.closed && y.fingerprint == p;
      if y.id !in m { var e := NewItemsAreCreated(m, effects, APPLICABLE, y.id); }
      assert m[y.id] in items;
    }
    forall p | p in ByFingerprint(items, true) ensures p in ByFingerprint(next, true) {
      var x :| x in items && x.closed && x.fingerprint == p;
      assert n[x.id] in next;
    }
    forall p | p in ByFingerprint(items, false) ensures p in ByFingerprint(next, false) {
      var x :| x in items && !x.closed && x.fingerprint == p;
      assert n[x.id] in next;
    }
  }

  /** When applying the allowed effects of a reconciliation succeeds, at most one open item per
      fingerprint remains, and reconciling and applying the same findings again changes nothing. */
  lemma ReconcilingReachesAFixpoint(items: seq<Item>, findings: seq<Finding>, naming: Naming, next: seq<Item>,
    again: Applied<seq<Item>>)
    requires DistinctIds(items) && OneOpenPerFingerprint(items)
    requires Result(items, Allowed(Trace(items, findings, naming)), APPLICABLE, Ok(next))
    requires Result(next, Allowed(Trace(next, findings, naming)), APPLICABLE, again)
    ensures DistinctIds(next) && OneOpenPerFingerprint(next) && again == Ok(next)
  {
    hide ApplyAll, ReconcileFrom, SortBy, Targets, ById, ByFingerprint, Absorbs, Ranked, SameWorks;
    var m, effects := ById(items), Allowed(Trace(items, findings, naming));
    var n := ApplyAll(m, effects, APPLICABLE).value;
    var ex, cl, fs := ByFingerprint(items, false), ByFingerprint(items, true), SortBy(findings, FindingBefore);
    var all := Targets(ex, cl, fs, naming);
    forall y | y in next && !y.closed ensures y.fingerprint in all && all[y.fingerprint] == y.id {
      OpenIsTarget(items, findings, naming, y.id);
    }
    SameClosedFingerprints(items, effects, next);
    IndexedItem(next, false);
    var ex' := ByFingerprint(next, false);
    forall p | p in ex' && p in all ensures ex'[p] == all[p] {
      var y :| y in next && !y.closed && y.fingerprint == p && y.id == ex'[p];
    }
    ReconcilesAlike(ex, cl, ex', ByFingerprint(next, true), fs, naming);
    AllowedSameWorks(Trace(items, findings, naming), Trace(next, findings, naming));
    ListedMap(next, n);
    ByIdKeys(items);
    AppliedIsAbsorbed(m, effects, APPLICABLE);
    SameWorksFixed(n, effects, Allowed(Trace(next, findings, naming)));
    ListingUnique(next, again.value, n);
  }
}
