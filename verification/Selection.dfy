/** Permutation-stable selection of a project's successor frontier under a strict partial order
    with missing costs. */
module Selection {
  import opened Sequences

  type Id = int

  /** An estimated cost may be missing on an axis. */
  type Costs = map<Id, Option<int>>

  datatype Candidate = Candidate(
    id: Id, anchor: Id, limitation: Id, preserved: set<Id>, gains: set<Id>, costs: Costs,
    discriminator: Option<Id>, reversible: bool, rest: Id)

  datatype Frontier = Frontier(
    id: Id, anchor: Id, limitation: Id, candidates: seq<Id>, nondominated: seq<Id>,
    incomparable: seq<(Id, Id)>, selected: Option<Id>)

  datatype Error = NoCandidates | MixedAnchors | RepeatedIdentity
  datatype Derived = Success(frontier: Frontier) | Failure(error: Error)

  // ------------------------------------------------------------ the order

  predicate FullyPriced(costs: Costs) { forall axis :: axis in costs ==> costs[axis].Some? }

  predicate NoDearer(a: Costs, b: Costs)
    requires FullyPriced(a) && FullyPriced(b) && a.Keys == b.Keys
  {
    forall axis :: axis in a ==> a[axis].value <= b[axis].value
  }

  predicate CheaperSomewhere(a: Costs, b: Costs)
    requires FullyPriced(a) && FullyPriced(b) && a.Keys == b.Keys
  {
    exists axis :: axis in a && a[axis].value < b[axis].value
  }

  predicate CandidateDominates(left: Candidate, right: Candidate) {
    && left.anchor == right.anchor && left.limitation == right.limitation
    && left.costs.Keys == right.costs.Keys && FullyPriced(left.costs) && FullyPriced(right.costs)
    && left.preserved >= right.preserved && left.gains >= right.gains && NoDearer(left.costs, right.costs)
    && (left.preserved > right.preserved || left.gains > right.gains || CheaperSomewhere(left.costs, right.costs))
  }

  /** Domination is a strict partial order, missing costs included. */
  lemma DominationIsStrictOrder(a: Candidate, b: Candidate, c: Candidate)
    ensures !CandidateDominates(a, a)
    ensures CandidateDominates(a, b) ==> !CandidateDominates(b, a)
    ensures CandidateDominates(a, b) && CandidateDominates(b, c) ==> CandidateDominates(a, c)
  {
    if CandidateDominates(a, b) && CandidateDominates(b, c) {
      if CheaperSomewhere(a.costs, b.costs) {
        var axis :| axis in a.costs && a.costs[axis].value < b.costs[axis].value;
        assert b.costs[axis].value <= c.costs[axis].value;
      } else if CheaperSomewhere(b.costs, c.costs) {
        var axis :| axis in b.costs && b.costs[axis].value < c.costs[axis].value;
        assert axis in a.costs && a.costs[axis].value <= b.costs[axis].value;
      }
    }
  }

  /** Hence any chain of dominations can be cut short, and none returns to its start. */
  lemma {:induction false} DominationHasNoCycle(chain: seq<Candidate>)
    requires |chain| >= 2 && forall i :: 0 <= i < |chain| - 1 ==> CandidateDominates(chain[i], chain[i+1])
    ensures CandidateDominates(chain[0], chain[|chain|-1]) && chain[0] != chain[|chain|-1]
  {
    hide CandidateDominates;
    var front := chain[..|chain|-1];
    var a, b, c := chain[0], front[|front|-1], chain[|chain|-1];
    assert CandidateDominates(b, c);
    if |front| >= 2 {
      DominationHasNoCycle(front);
      DominationIsStrictOrder(a, b, c);
    }
    DominationIsStrictOrder(a, c, c);
  }

  // ------------------------------------------------------------ derivation

  function Keep<T(!new)>(s: seq<T>, p: T -> bool): (r: seq<T>)
    ensures forall x :: x in r <==> x in s && p(x)
  {
    if s == [] then []
    else
      assert s == [s[0]] + s[1..];
      if p(s[0]) then [s[0]] + Keep(s[1..], p) else Keep(s[1..], p)
  }

  function Ids(s: seq<Candidate>): seq<Id> { seq(|s|, i requires 0 <= i < |s| => s[i].id) }

  predicate ById(a: Candidate, b: Candidate) { a.id <= b.id }

  function Ordered(candidates: seq<Candidate>): seq<Candidate> { SortBy(candidates, ById) }

  predicate DistinctIds(s: seq<Candidate>) { forall i, j :: 0 <= i < j < |s| ==> s[i].id != s[j].id }

  predicate OneQuestion(s: seq<Candidate>) {
    forall a, b :: a in s && b in s ==> a.anchor == b.anchor && a.limitation == b.limitation
  }

  predicate Beaten(ordered: seq<Candidate>, item: Candidate) {
    exists other :: other in ordered && other.id != item.id && CandidateDominates(other, item)
  }

  function Nondominated(ordered: seq<Candidate>): seq<Candidate> {
    Keep(ordered, (item: Candidate) => !Beaten(ordered, item))
  }

  predicate Incomparable(a: Candidate, b: Candidate) {
    !CandidateDominates(a, b) && !CandidateDominates(b, a)
  }

  /** The pairs one member forms with the members after it. */
  function PairsWith(left: Candidate, rest: seq<Candidate>): seq<(Id, Id)> {
    if rest == [] then []
    else (if Incomparable(left, rest[0]) then [(left.id, rest[0].id)] else []) + PairsWith(left, rest[1..])
  }

  function IncomparablePairs(members: seq<Candidate>): seq<(Id, Id)> {
    if members == [] then [] else PairsWith(members[0], members[1..]) + IncomparablePairs(members[1..])
  }

  predicate Selectable(c: Candidate) { c.reversible && c.discriminator.Some? }

  /** Every selectable member is fully priced over one set of axes. */
  predicate Comparable(selectable: seq<Candidate>) {
    && selectable != []
    && (forall c :: c in selectable ==> FullyPriced(c.costs))
    && (forall a, b :: a in selectable && b in selectable ==> a.costs.Keys == b.costs.Keys)
  }

  predicate CheapestOf(selectable: seq<Candidate>, item: Candidate)
    requires Comparable(selectable) && item in selectable
  {
    forall other :: other in selectable ==> NoDearer(item.costs, other.costs)
  }

  /** Members no dearer than any selectable member on any axis, in order. */
  function Cheapest(selectable: seq<Candidate>, from: seq<Candidate>): (r: seq<Candidate>)
    requires Comparable(selectable) && forall c :: c in from ==> c in selectable
    ensures forall c :: c in r <==> c in from && CheapestOf(selectable, c)
  {
    if from == [] then []
    else
      assert from == [from[0]] + from[1..];
      if CheapestOf(selectable, from[0]) then [from[0]] + Cheapest(selectable, from[1..])
      else Cheapest(selectable, from[1..])
  }

  /** The first member with the least identity. */
  function LeastById(s: seq<Candidate>): (r: Candidate)
    requires s != []
    ensures r in s && forall c :: c in s ==> r.id <= c.id
  {
    if |s| == 1 then s[0]
    else
      assert s == [s[0]] + s[1..];
      var rest := LeastById(s[1..]);
      if s[0].id <= rest.id then s[0] else rest
  }

  function Select(members: seq<Candidate>): Option<Id> {
    var selectable := Keep(members, Selectable);
    if !Comparable(selectable) then None
    else
      var cheapest := Cheapest(selectable, selectable);
      if cheapest == [] then None else Some(LeastById(cheapest).id)
  }

  function FrontierOf(frontierId: Id, candidates: seq<Candidate>): Derived {
    var ordered := Ordered(candidates);
    if ordered == [] then Failure(NoCandidates)
    else if exists item ::
      item in ordered && (item.anchor != ordered[0].anchor || item.limitation != ordered[0].limitation)
    then Failure(MixedAnchors)
    else if !DistinctIds(ordered) then Failure(RepeatedIdentity)
    else
      var members := Nondominated(ordered);
      Success(Frontier(
        frontierId, ordered[0].anchor, ordered[0].limitation, Ids(ordered), Ids(members),
        IncomparablePairs(members), Select(members)))
  }

  /** The inner loop: the pairs of one member with the members after it. */
  method CollectPairsWith(left: Candidate, rest: seq<Candidate>) returns (pairs: seq<(Id, Id)>)
    ensures pairs == PairsWith(left, rest)
  {
    hide CandidateDominates, Incomparable;
    pairs := [];
    for j := 0 to |rest|
      invariant pairs + PairsWith(left, rest[j..]) == PairsWith(left, rest)
    {
      ghost var later := rest[j+1..];
      assert rest[j..][0] == rest[j] && rest[j..][1..] == later;
      ghost var more := PairsWith(left, later);
      if Incomparable(left, rest[j]) {
        assert pairs + ([(left.id, rest[j].id)] + more) == (pairs + [(left.id, rest[j].id)]) + more;
        pairs := pairs + [(left.id, rest[j].id)];
      }
    }
  }

  /** The outer loop over the nondominated members. */
  method CollectPairs(members: seq<Candidate>) returns (incomparable: seq<(Id, Id)>)
    ensures incomparable == IncomparablePairs(members)
  {
    hide PairsWith;
    incomparable := [];
    for index := 0 to |members|
      invariant incomparable + IncomparablePairs(members[index..]) == IncomparablePairs(members)
    {
      ghost var later := members[index+1..];
      assert members[index..][0] == members[index] && members[index..][1..] == later;
      var pairs := CollectPairsWith(members[index], members[index+1..]);
      assert incomparable + (pairs + IncomparablePairs(later)) == (incomparable + pairs) + IncomparablePairs(later);
      incomparable := incomparable + pairs;
    }
  }

  /** The program: sort, reject, filter, pair up and select. */
  method DeriveCapabilityFrontier(frontierId: Id, candidates: seq<Candidate>) returns (r: Derived)
    ensures r == FrontierOf(frontierId, candidates)
  {
    hide CandidateDominates, SortBy, Select, Beaten, IncomparablePairs;
    var ordered := SortBy(candidates, ById);
    if ordered == [] { return Failure(NoCandidates); }
    if exists item ::
      item in ordered && (item.anchor != ordered[0].anchor || item.limitation != ordered[0].limitation) {
      return Failure(MixedAnchors);
    }
    if !DistinctIds(ordered) { return Failure(RepeatedIdentity); }
    var members := Nondominated(ordered);
    var incomparable := CollectPairs(members);
    return Success(Frontier(
      frontierId, ordered[0].anchor, ordered[0].limitation, Ids(ordered), Ids(members), incomparable, Select(members)));
  }

  // ------------------------------------------------------------ the frontier

  lemma OrderedMembers(s: seq<Candidate>)
    ensures forall c :: c in Ordered(s) <==> c in s
    ensures |Ordered(s)| == |s|
  {
    SortPermutes(s, ById);
  }

  lemma SameId(s: seq<Candidate>, a: Candidate, b: Candidate)
    requires DistinctIds(s) && a in s && b in s && a.id == b.id
    ensures a == b
  {
    var i :| 0 <= i < |s| && s[i] == a;
    var j :| 0 <= j < |s| && s[j] == b;
  }

  /** Those that dominate an item; each step up the order leaves strictly fewer. */
  function Above(s: seq<Candidate>, item: Candidate): set<Candidate> {
    set c | c in s && CandidateDominates(c, item)
  }

  /** Every candidate is a member or is dominated by a member. */
  lemma {:induction false} DominatedByAMember(s: seq<Candidate>, item: Candidate) returns (m: Candidate)
    requires DistinctIds(s) && item in s
    ensures m in Nondominated(s)
    ensures m == item || CandidateDominates(m, item)
    ensures item in Nondominated(s) ==> m == item
    decreases |Above(s, item)|
  {
    hide CandidateDominates;
    if !Beaten(s, item) {
      m := item;
    } else {
      var other :| other in s && other.id != item.id && CandidateDominates(other, item);
      DominationIsStrictOrder(other, other, other);
      forall c | c in Above(s, other) ensures c in Above(s, item) { DominationIsStrictOrder(c, other, item); }
      assert other in Above(s, item) && other !in Above(s, other);
      FewerAbove(Above(s, other), Above(s, item), other);
      m := DominatedByAMember(s, other);
      DominationIsStrictOrder(m, other, item);
    }
  }

  lemma FewerAbove(a: set<Candidate>, b: set<Candidate>, x: Candidate)
    requires a <= b && x in b && x !in a
    ensures |a| < |b|
  {
    SubsetCardinality(a, b - {x});
  }

  /** Two members of the frontier never dominate one another. */
  lemma MembersIncomparable(s: seq<Candidate>, a: Candidate, b: Candidate)
    requires DistinctIds(s) && a in Nondominated(s) && b in Nondominated(s)
    ensures Incomparable(a, b)
  {
    hide CandidateDominates;
    DominationIsStrictOrder(a, a, a);
    if a.id == b.id { SameId(s, a, b); }
    assert !Beaten(s, a) && !Beaten(s, b);
  }

  /** The pairs of one member with all later ones, no test applied. */
  function AllPairsWith(left: Candidate, rest: seq<Candidate>): seq<(Id, Id)> {
    seq(|rest|, i requires 0 <= i < |rest| => (left.id, rest[i].id))
  }

  function AllPairs(members: seq<Candidate>): seq<(Id, Id)> {
    if members == [] then [] else AllPairsWith(members[0], members[1..]) + AllPairs(members[1..])
  }

  lemma {:induction false} PairsWithAll(left: Candidate, rest: seq<Candidate>)
    requires forall c :: c in rest ==> Incomparable(left, c)
    ensures PairsWith(left, rest) == AllPairsWith(left, rest)
  {
    hide CandidateDominates, Incomparable;
    if rest != [] {
      assert rest == [rest[0]] + rest[1..];
      PairsWithAll(left, rest[1..]);
    }
  }

  lemma {:induction false} PairsAreAll(members: seq<Candidate>)
    requires forall a, b :: a in members && b in members ==> Incomparable(a, b)
    ensures IncomparablePairs(members) == AllPairs(members)
  {
    hide Incomparable;
    if members != [] {
      assert members == [members[0]] + members[1..];
      PairsWithAll(members[0], members[1..]);
      PairsAreAll(members[1..]);
    }
  }

  /** A successful derivation: the members are exactly the candidates nobody else dominates, there
      is at least one, every other candidate is dominated by one of them, and the incomparable
      pairs are every pair of members in order. */
  lemma FrontierIsExact(frontierId: Id, candidates: seq<Candidate>, c: Candidate)
    requires FrontierOf(frontierId, candidates).Success? && c in candidates
    ensures var members := Nondominated(Ordered(candidates)); var f := FrontierOf(frontierId, candidates).frontier;
      && f.nondominated == Ids(members) && members != []
      && (c in members <==> forall d :: d in candidates ==> !CandidateDominates(d, c))
      && (c in members || exists m :: m in members && CandidateDominates(m, c))
      && f.incomparable == AllPairs(members)
  {
    hide CandidateDominates, Select, SortBy;
    var ordered := Ordered(candidates);
    OrderedMembers(candidates);
    var members := Nondominated(ordered);
    var m := DominatedByAMember(ordered, c);
    forall a, b | a in members && b in members ensures Incomparable(a, b) { MembersIncomparable(ordered, a, b); }
    PairsAreAll(members);
    forall d | d in candidates && CandidateDominates(d, c) ensures c !in members {
      DominationIsStrictOrder(c, c, c);
      if d.id == c.id { SameId(ordered, c, d); }
      assert Beaten(ordered, c);
    }
  }

  // ------------------------------------------------------------ the selection

  /** No dearer than any selectable member on any axis. */
  ghost predicate NoDearerThanAll(members: seq<Candidate>, c: Candidate) {
    forall d :: d in members && Selectable(d) ==>
      d.costs.Keys == c.costs.Keys && FullyPriced(c.costs) && FullyPriced(d.costs) && NoDearer(c.costs, d.costs)
  }

  /** What it means to be the selected discriminator. */
  ghost predicate LeastDiscriminator(members: seq<Candidate>, c: Candidate) {
    && c in members && Selectable(c) && NoDearerThanAll(members, c)
    && (forall d :: d in members && Selectable(d) && NoDearerThanAll(members, d) ==> c.id <= d.id)
  }

  /** A selectable member that no selectable member beats on any axis is selected, the one of
      least identity; nothing is selected exactly when there is none. */
  lemma SelectionIsExact(members: seq<Candidate>, id: Id)
    requires DistinctIds(members)
    ensures Select(members) == Some(id) <==> exists c :: LeastDiscriminator(members, c) && c.id == id
  {
    var selectable := Keep(members, Selectable);
    if Select(members) == Some(id) {
      var c := LeastById(Cheapest(selectable, selectable));
      assert CheapestOf(selectable, c);
      forall d | d in members && Selectable(d) && NoDearerThanAll(members, d) ensures c.id <= d.id {
        assert d in selectable && CheapestOf(selectable, d);
      }
      assert LeastDiscriminator(members, c);
    }
    if c :| LeastDiscriminator(members, c) && c.id == id {
      LeastIsSelected(members, c);
    }
  }

  lemma LeastIsSelected(members: seq<Candidate>, c: Candidate)
    requires DistinctIds(members) && LeastDiscriminator(members, c)
    ensures Select(members) == Some(c.id)
  {
    var selectable := Keep(members, Selectable);
    assert c in selectable;
    assert Comparable(selectable) && CheapestOf(selectable, c);
    var cheapest := Cheapest(selectable, selectable);
    assert c in cheapest;
    var d := LeastById(cheapest);
    assert d in selectable && CheapestOf(selectable, d) && d.id <= c.id;
    assert NoDearerThanAll(members, d);
  }

  lemma {:induction false} KeepDistinctIds(s: seq<Candidate>, p: Candidate -> bool)
    requires DistinctIds(s)
    ensures DistinctIds(Keep(s, p))
  {
    if s != [] {
      KeepDistinctIds(s[1..], p);
      forall c | c in s[1..] ensures c.id != s[0].id {
        var i :| 0 <= i < |s[1..]| && s[1..][i] == c;
        assert s[i+1] == c;
      }
    }
  }

  /** The selected discriminator of a derived frontier costs no more than any selectable member
      on any axis; without such a member nothing is selected. */
  lemma FrontierSelection(frontierId: Id, candidates: seq<Candidate>, id: Id)
    requires FrontierOf(frontierId, candidates).Success?
    ensures FrontierOf(frontierId, candidates).frontier.selected == Some(id)
        <==> exists c :: LeastDiscriminator(Nondominated(Ordered(candidates)), c) && c.id == id
  {
    hide LeastDiscriminator, Select, SortBy, Keep;
    var ordered := Ordered(candidates);
    KeepDistinctIds(ordered, (item: Candidate) => !Beaten(ordered, item));
    SelectionIsExact(Nondominated(ordered), id);
  }

  // ------------------------------------------------------------ input order

  lemma DistinctIdsAntisymmetric(s: seq<Candidate>)
    requires DistinctIds(s)
    ensures Antisymmetric(ById, s) && Preorders(ById, s)
  {
    forall x, y | x in s && y in s && ById(x, y) && ById(y, x) ensures x == y { SameId(s, x, y); }
  }

  lemma DistinctIdsByMembers(s: seq<Candidate>)
    ensures DistinctIds(s) <==> Distinct(s) && forall x, y :: x in s && y in s && x.id == y.id ==> x == y
  {
    if DistinctIds(s) {
      forall x, y | x in s && y in s && x.id == y.id ensures x == y { SameId(s, x, y); }
    }
    if Distinct(s) && forall x, y :: x in s && y in s && x.id == y.id ==> x == y {
      forall i, j | 0 <= i < j < |s| ensures s[i].id != s[j].id {
        assert s[i] in s && s[j] in s;
      }
    }
  }

  lemma DistinctIdsPermute(a: seq<Candidate>, b: seq<Candidate>)
    requires multiset(a) == multiset(b)
    ensures DistinctIds(a) <==> DistinctIds(b)
  {
    DistinctIdsByMembers(a);
    DistinctIdsByMembers(b);
    MultisetMembers(a, b);
    if Distinct(a) { DistinctMultiset(a, b); }
    if Distinct(b) { DistinctMultiset(b, a); }
  }

  /** The same result, errors included, for every order of the input. */
  lemma FrontierIgnoresOrder(frontierId: Id, a: seq<Candidate>, b: seq<Candidate>)
    requires multiset(a) == multiset(b)
    ensures FrontierOf(frontierId, a) == FrontierOf(frontierId, b)
  {
    hide SortBy, Nondominated, Select, IncomparablePairs;
    MultisetMembers(a, b);
    SortPermutes(a, ById);
    SortPermutes(b, ById);
    OrderedMembers(a);
    OrderedMembers(b);
    DistinctIdsPermute(a, Ordered(a));
    DistinctIdsPermute(b, Ordered(b));
    DistinctIdsPermute(a, b);
    if a != [] {
      MixedIsUnordered(Ordered(a));
      MixedIsUnordered(Ordered(b));
      assert OneQuestion(Ordered(a)) <==> OneQuestion(Ordered(b));
      if DistinctIds(a) {
        DistinctIdsAntisymmetric(a);
        SortOrderFree(a, b, ById);
      }
    }
  }

  lemma MixedIsUnordered(s: seq<Candidate>)
    requires s != []
    ensures OneQuestion(s) <==>
            !exists item :: item in s && (item.anchor != s[0].anchor || item.limitation != s[0].limitation)
  {
    assert s[0] in s;
  }
}
