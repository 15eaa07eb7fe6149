/** Derivation of the nondominated successful-observation frontier of one recovery branch. */
module RecoveryFrontier {
  import opened Sequences
  import opened CostArithmetic

  datatype Branch = Baseline | Retained

  /** Everything a comparison must hold fixed; `rest` stands for the pins other than the budget. */
  datatype Pins = Pins(budget: CostVector, rest: Id)

  /** `rest` stands for the measured fields the frontier never looks at. */
  datatype Observation = Observation(
    id: Id, branch: Branch, pins: Pins, costs: CostVector, competenceEstablished: bool, rest: Id)

  datatype Frontier = Frontier(branch: Branch, pins: Pins, sourceIds: seq<Id>, points: seq<Point>)

  datatype Error = ConflictingIdentity | WrongBranch | WrongPins | WrongAxes
  datatype Derived = Success(frontier: Frontier) | Failure(error: Error)

  function IdOrder(): (Id, Id) -> bool { (a: Id, b: Id) => a <= b }

  predicate Ascending(ids: seq<Id>) {
    forall i, j :: 0 <= i < j < |ids| ==> ids[i] < ids[j]
  }

  // ------------------------------------------------------------ deduplication

  ghost predicate OneContentPerId(s: seq<Observation>) {
    forall x, y :: x in s && y in s && x.id == y.id ==> x == y
  }

  ghost predicate SameObservations(a: seq<Observation>, b: seq<Observation>) {
    forall x :: x in a <==> x in b
  }

  predicate AscendingById(s: seq<Observation>) {
    forall i, j :: 0 <= i < j < |s| ==> s[i].id < s[j].id
  }

  /** The dictionary loop, with its insertion order kept as `order`; `None` is a conflict. */
  method DeduplicateObservations(observations: seq<Observation>) returns (r: Option<seq<Observation>>)
    ensures r.Some? <==> OneContentPerId(observations)
    ensures r.Some? ==> AscendingById(r.value) && SameObservations(r.value, observations)
  {
    hide SortBy;
    var byId: map<Id, Observation> := map[];
    var order: seq<Id> := [];
    for k := 0 to |observations|
      invariant forall i :: 0 <= i < k ==> observations[i].id in byId && byId[observations[i].id] == observations[i]
      invariant forall id :: id in byId ==> byId[id].id == id && byId[id] in observations[..k]
      invariant Distinct(order) && forall id :: id in order <==> id in byId
    {
      var observation := observations[k];
      if observation.id in byId && byId[observation.id] != observation {
        assert observation in observations && byId[observation.id] in observations;
        return None;
      }
      if observation.id !in byId { order := order + [observation.id]; }
      byId := byId[observation.id := observation];
    }
    forall x, y | x in observations && y in observations && x.id == y.id ensures x == y {
      var i :| 0 <= i < |observations| && observations[i] == x;
      var j :| 0 <= j < |observations| && observations[j] == y;
    }
    var sorted := SortBy(order, IdOrder());
    SortIds(order);
    var out := seq(|sorted|, i requires 0 <= i < |sorted| && sorted[i] in byId => byId[sorted[i]]);
    forall x | x in observations ensures x in out {
      assert x.id in sorted;
      var i :| 0 <= i < |sorted| && sorted[i] == x.id;
      assert out[i] == x;
    }
    return Some(out);
  }

  lemma SortIds(ids: seq<Id>)
    requires Distinct(ids)
    ensures Ascending(SortBy(ids, IdOrder()))
    ensures |SortBy(ids, IdOrder())| == |ids|
    ensures forall i :: 0 <= i < |ids| ==> SortBy(ids, IdOrder())[i] in ids
    ensures forall id :: id in ids ==> id in SortBy(ids, IdOrder())
  {
    var t := SortBy(ids, IdOrder());
    SortSorts(ids, IdOrder());
    SortPermutes(ids, IdOrder());
    DistinctMultiset(ids, t);
    MultisetMembers(ids, t);
    forall i | 0 <= i < |t| ensures t[i] in ids { assert t[i] in t; }
  }

  // ------------------------------------------------------------ what a frontier is

  ghost predicate Successful(s: seq<Observation>, p: Point) {
    exists o :: o in s && o.competenceEstablished && p == Point(o.id, o.costs)
  }

  /** Successful, beaten by no successful observation, and the least identity of its cost. */
  ghost predicate FrontierPoint(s: seq<Observation>, p: Point) {
    Successful(s, p)
    && forall q :: Successful(s, q) ==>
         !StrictlyBetter(q.costs, p.costs) && (q.costs == p.costs ==> p.observationId <= q.observationId)
  }

  predicate StrictlyOrdered(points: seq<Point>) {
    forall i, j :: 0 <= i < j < |points| ==> ComparePoints(points[i], points[j]) < 0
  }

  /** The input errors that stop a derivation; they depend only on which observations occur. */
  ghost predicate Admissible(branch: Branch, pins: Pins, s: seq<Observation>) {
    OneContentPerId(s)
    && forall o :: o in s ==> o.branch == branch && o.pins == pins && SameAxes(o.costs, pins.budget)
  }

  ghost predicate FrontierOf(branch: Branch, pins: Pins, s: seq<Observation>, f: Frontier) {
    && f.branch == branch && f.pins == pins
    && Ascending(f.sourceIds)
    && (forall id :: id in f.sourceIds <==> exists o :: o in s && o.id == id)
    && StrictlyOrdered(f.points)
    && (forall p :: p in f.points <==> FrontierPoint(s, p))
  }

  ghost predicate WellFormed(s: seq<Observation>) {
    forall o :: o in s ==> o.costs.Valid()
  }

  // ------------------------------------------------------------ derivation

  function SuccessfulPoints(s: seq<Observation>): seq<Point> {
    if s == [] then []
    else
      var last := s[|s|-1];
      SuccessfulPoints(s[..|s|-1]) + if last.competenceEstablished then [Point(last.id, last.costs)] else []
  }

  lemma {:induction false} SuccessfulPointsExact(s: seq<Observation>)
    requires AscendingById(s)
    ensures forall p :: p in SuccessfulPoints(s) <==> Successful(s, p)
    ensures forall i, j :: 0 <= i < j < |SuccessfulPoints(s)| ==>
              SuccessfulPoints(s)[i].observationId < SuccessfulPoints(s)[j].observationId
  {
    if s != [] {
      var front, last := s[..|s|-1], s[|s|-1];
      SuccessfulPointsExact(front);
      assert s == front + [last];
      forall p ensures Successful(s, p)
        <==> Successful(front, p) || (last.competenceEstablished && p == Point(last.id, last.costs)) {
        if Successful(front, p) {
          var o :| o in front && o.competenceEstablished && p == Point(o.id, o.costs);
          assert o in s;
        }
      }
      var t := SuccessfulPoints(front);
      forall i | 0 <= i < |t| ensures t[i].observationId < last.id {
        assert t[i] in t && Successful(front, t[i]);
        var o :| o in front && o.competenceEstablished && t[i] == Point(o.id, o.costs);
        var k :| 0 <= k < |front| && front[k] == o;
        assert s[k] == o;
      }
    }
  }

  ghost predicate EqualIn(points: seq<Point>, p: Point) {
    exists q :: q in points && q.costs == p.costs && q.observationId <= p.observationId
  }

  ghost predicate DrawnFrom(points: seq<Point>, unique: seq<Point>) {
    forall p :: p in unique ==> p in points
  }

  /** `p` has the least identity among the points of its cost. */
  ghost predicate LeastOfCost(points: seq<Point>, p: Point) {
    forall q :: q in points && q.costs == p.costs ==> p.observationId <= q.observationId
  }

  /** `unique` keeps one point per cost vector of `points`, the one of least identity. */
  ghost predicate Uniques(points: seq<Point>, unique: seq<Point>) {
    && Distinct(unique)
    && DrawnFrom(points, unique)
    && (forall p :: p in unique ==> LeastOfCost(points, p))
    && (forall p :: p in points ==> EqualIn(unique, p))
  }

  /** The `unique_points` loop over points of ascending identity. */
  method KeepUnique(points: seq<Point>, ghost axes: seq<CostAxis>) returns (unique: seq<Point>)
    requires OnAxes(points, axes)
    requires forall i, j :: 0 <= i < j < |points| ==> points[i].observationId < points[j].observationId
    ensures Uniques(points, unique)
  {
    unique := [];
    for k := 0 to |points|
      invariant Uniques(points[..k], unique)
    {
      var point := points[k];
      assert points[..k+1] == points[..k] + [point];
      EarlierPoints(points, k);
      EqualMeansSameCosts(points, unique, point, axes);
      if exists q :: q in unique && CompareCostVectors(point.costs, q.costs) == Some(Equal) {
        ghost var q :| q in unique && CompareCostVectors(point.costs, q.costs) == Some(Equal);
        SkipRepeated(points[..k], unique, point, q);
      } else {
        KeepNew(points[..k], unique, point);
        unique := unique + [point];
      }
    }
    assert points[..|points|] == points;
  }

  lemma EarlierPoints(points: seq<Point>, k: nat)
    requires k < |points|
    requires forall i, j :: 0 <= i < j < |points| ==> points[i].observationId < points[j].observationId
    ensures AllBefore(points[..k], points[k]) && forall q :: q in points[..k] ==> q in points
  {}

  lemma EqualMeansSameCosts(points: seq<Point>, unique: seq<Point>, point: Point, axes: seq<CostAxis>)
    requires OnAxes(points, axes) && point in points && forall q :: q in unique ==> q in points
    ensures forall q :: q in unique ==>
              (CompareCostVectors(point.costs, q.costs) == Some(Equal) <==> point.costs == q.costs)
  {
    forall q | q in unique
      ensures CompareCostVectors(point.costs, q.costs) == Some(Equal) <==> point.costs == q.costs
    {
      assert q in points;
      ParetoIsPartialOrder(point.costs, q.costs, q.costs);
    }
  }

  ghost predicate AllBefore(points: seq<Point>, point: Point) {
    forall p :: p in points ==> p.observationId < point.observationId
  }

  lemma StaysLeast(points: seq<Point>, point: Point, p: Point)
    requires LeastOfCost(points, p) && AllBefore(points, point) && p in points
    ensures LeastOfCost(points + [point], p)
  {}

  lemma SkipRepeated(points: seq<Point>, unique: seq<Point>, point: Point, q: Point)
    requires Uniques(points, unique) && AllBefore(points, point)
    requires q in unique && q.costs == point.costs
    ensures Uniques(points + [point], unique)
  {
    forall p | p in unique ensures LeastOfCost(points + [point], p) && p in points + [point] {
      StaysLeast(points, point, p);
    }
    assert q in points && EqualIn(unique, point);
  }

  lemma KeepNew(points: seq<Point>, unique: seq<Point>, point: Point)
    requires Uniques(points, unique) && AllBefore(points, point)
    requires forall q :: q in unique ==> q.costs != point.costs
    ensures Uniques(points + [point], unique + [point])
  {
    NewCosts(points, unique, point);
    forall p | p in unique + [point] ensures LeastOfCost(points + [point], p) && p in points + [point] {
      if p in unique { StaysLeast(points, point, p); }
    }
    assert point !in unique;
    DistinctAppend(unique, point);
    KeepNewCovers(points, unique, point);
  }

  lemma NewCosts(points: seq<Point>, unique: seq<Point>, point: Point)
    requires forall p :: p in points ==> EqualIn(unique, p)
    requires forall q :: q in unique ==> q.costs != point.costs
    ensures forall q :: q in points ==> q.costs != point.costs
  {}

  lemma KeepNewCovers(points: seq<Point>, unique: seq<Point>, point: Point)
    requires forall p :: p in points ==> EqualIn(unique, p)
    ensures forall p :: p in points + [point] ==> EqualIn(unique + [point], p)
  {
    forall p | p in points + [point] ensures EqualIn(unique + [point], p) {
      if p in points {
        var q :| q in unique && q.costs == p.costs && q.observationId <= p.observationId;
        assert q in unique + [point];
      } else {
        assert point in unique + [point];
      }
    }
  }

  predicate Dominated(p: Point, points: seq<Point>) {
    exists q :: q in points && q.observationId != p.observationId
                && CompareCostVectors(q.costs, p.costs) == Some(LeftStrictlyBetter)
  }

  function Undominated(candidates: seq<Point>, points: seq<Point>): (r: seq<Point>)
    ensures forall p :: p in r <==> p in candidates && !Dominated(p, points)
    ensures Distinct(candidates) ==> Distinct(r)
  {
    if candidates == [] then []
    else
      var rest := Undominated(candidates[1..], points);
      assert candidates == [candidates[0]] + candidates[1..];
      if Dominated(candidates[0], points) then rest else [candidates[0]] + rest
  }

  method DeriveRecoveryFrontier(branch: Branch, pins: Pins, observations: seq<Observation>) returns (r: Derived)
    requires WellFormed(observations)
    ensures r.Success? <==> Admissible(branch, pins, observations)
    ensures r.Failure? && r.error.ConflictingIdentity? <==> !OneContentPerId(observations)
    ensures r.Success? ==> FrontierOf(branch, pins, observations, r.frontier)
  {
    var deduplicated := DeduplicateObservations(observations);
    if deduplicated.None? { return Failure(ConflictingIdentity); }
    var s := deduplicated.value;
    for k := 0 to |s|
      invariant forall i :: 0 <= i < k ==>
          s[i].branch == branch && s[i].pins == pins && SameAxes(s[i].costs, pins.budget)
    {
      assert s[k] in s;
      if s[k].branch != branch { return Failure(WrongBranch); }
      if s[k].pins != pins { return Failure(WrongPins); }
      if !SameAxes(s[k].costs, pins.budget) { return Failure(WrongAxes); }
    }
    forall o | o in observations
      ensures o.branch == branch && o.pins == pins && SameAxes(o.costs, pins.budget)
    {
      assert o in s;
    }
    var successful := SuccessfulPoints(s);
    SuccessfulPointsExact(s);
    ghost var axes := pins.budget.AxisSignature();
    SuccessfulSame(s, observations);
    forall p | p in successful ensures p.costs.Valid() && p.costs.AxisSignature() == axes {
      assert Successful(observations, p);
    }
    var unique := KeepUnique(successful, axes);
    var frontier := Undominated(unique, unique);
    var points := SortBy(frontier, PointOrder());
    UndominatedIsFrontier(observations, successful, unique, axes);
    SortPoints(frontier, axes);
    r := Success(Frontier(branch, pins, seq(|s|, i requires 0 <= i < |s| => s[i].id), points));
    SourceIds(s, observations, r.frontier.sourceIds);
  }

  lemma SourceIds(s: seq<Observation>, observations: seq<Observation>, ids: seq<Id>)
    requires AscendingById(s) && SameObservations(s, observations)
    requires |ids| == |s| && forall i :: 0 <= i < |s| ==> ids[i] == s[i].id
    ensures Ascending(ids)
    ensures forall id :: id in ids <==> exists o :: o in observations && o.id == id
  {
    forall id | id in ids ensures exists o :: o in observations && o.id == id {
      var i :| 0 <= i < |ids| && ids[i] == id;
      assert s[i] in s && s[i] in observations;
    }
    forall o | o in observations ensures o.id in ids {
      assert o in s;
      var i :| 0 <= i < |s| && s[i] == o;
      assert ids[i] == o.id;
    }
  }

  lemma SuccessfulSame(a: seq<Observation>, b: seq<Observation>)
    requires SameObservations(a, b)
    ensures forall p :: Successful(a, p) <==> Successful(b, p)
  {
    forall p ensures Successful(a, p) <==> Successful(b, p) {
      if Successful(a, p) {
        var o :| o in a && o.competenceEstablished && p == Point(o.id, o.costs);
        assert o in b;
      }
      if Successful(b, p) {
        var o :| o in b && o.competenceEstablished && p == Point(o.id, o.costs);
        assert o in a;
      }
    }
  }

  /** Filtering the unique points by mutual dominance leaves exactly the frontier points. */
  lemma UndominatedIsFrontier(s: seq<Observation>, points: seq<Point>, unique: seq<Point>, axes: seq<CostAxis>)
    requires OnAxes(points, axes)
    requires forall p :: p in points <==> Successful(s, p)
    requires Uniques(points, unique) && OneContentPerId(s)
    ensures forall p :: p in Undominated(unique, unique) <==> FrontierPoint(s, p)
    ensures OnAxes(Undominated(unique, unique), axes)
  {
    forall p ensures p in Undominated(unique, unique) <==> FrontierPoint(s, p) {
      if p in points {
        forall q | q in points
          ensures CompareCostVectors(q.costs, p.costs) == Some(LeftStrictlyBetter) <==> StrictlyBetter(q.costs, p.costs)
        {
          RelationMeans(q.costs, p.costs);
        }
        if FrontierPoint(s, p) {
          var q :| q in unique && q.costs == p.costs && q.observationId <= p.observationId;
          SuccessfulById(s, p, q);
          assert p in unique;
        }
        if p in unique && !Dominated(p, unique) {
          forall q | Successful(s, q) ensures !StrictlyBetter(q.costs, p.costs) {
            var u :| u in unique && u.costs == q.costs && u.observationId <= q.observationId;
            SuccessfulById(s, p, u);
          }
        }
      }
    }
  }

  lemma SuccessfulById(s: seq<Observation>, p: Point, q: Point)
    requires OneContentPerId(s) && Successful(s, p) && Successful(s, q)
    ensures p.observationId == q.observationId ==> p == q
  {}

  lemma SortPoints(points: seq<Point>, axes: seq<CostAxis>)
    requires Distinct(points) && OnAxes(points, axes)
    ensures StrictlyOrdered(SortBy(points, PointOrder()))
    ensures forall p :: p in SortBy(points, PointOrder()) <==> p in points
  {
    var t := SortBy(points, PointOrder());
    PointOrderTotal(points, axes);
    SortSorts(points, PointOrder());
    SortPermutes(points, PointOrder());
    DistinctMultiset(points, t);
    MultisetMembers(points, t);
    forall i, j | 0 <= i < j < |t| ensures ComparePoints(t[i], t[j]) < 0 {
      assert PointOrder()(t[i], t[j]);
      assert t[i] in t && t[j] in t;
      assert t[i] != t[j];
      assert !PointOrder()(t[j], t[i]);
      LexicographicFlips(t[i].costs.coordinates, t[j].costs.coordinates);
    }
  }

  // ------------------------------------------------------------ properties of every frontier

  /** No frontier point equals or beats another. */
  lemma FrontierIsAntichain(branch: Branch, pins: Pins, s: seq<Observation>, f: Frontier, i: nat, j: nat)
    requires WellFormed(s) && Admissible(branch, pins, s) && FrontierOf(branch, pins, s, f)
    requires i < |f.points| && j < |f.points| && i != j
    ensures CompareCostVectors(f.points[i].costs, f.points[j].costs) == Some(Incomparable)
  {
    var p, q := f.points[i], f.points[j];
    assert p in f.points && q in f.points;
    assert FrontierPoint(s, p) && FrontierPoint(s, q);
    assert SameAxes(p.costs, q.costs);
    RelationMeans(p.costs, q.costs);
    if NoWorse(p.costs, q.costs) && NoWorse(q.costs, p.costs) {
      MutualNoWorse(p.costs, q.costs);
      LexicographicFlips(p.costs.coordinates, q.costs.coordinates);
    }
  }

  ghost function BetterThan(points: seq<Point>, p: Point): set<Point> {
    set q | q in points && StrictlyBetter(q.costs, p.costs)
  }

  /** Below every point of a list lies one that no other point of the list strictly beats. */
  lemma {:induction false} MinimalBelow(points: seq<Point>, axes: seq<CostAxis>, p: Point) returns (m: Point)
    requires OnAxes(points, axes) && p in points
    ensures m in points && NoWorse(m.costs, p.costs)
    ensures forall q :: q in points ==> !StrictlyBetter(q.costs, m.costs)
    decreases |BetterThan(points, p)|
  {
    ParetoIsPartialOrder(p.costs, p.costs, p.costs);
    if BetterThan(points, p) == {} {
      m := p;
      forall q | q in points ensures !StrictlyBetter(q.costs, m.costs) {
        assert q !in BetterThan(points, p);
      }
    } else {
      var q :| q in BetterThan(points, p);
      forall x | x in BetterThan(points, q) ensures x in BetterThan(points, p) {
        NoWorseTransitive(x.costs, q.costs, p.costs);
      }
      assert q !in BetterThan(points, q);
      SubsetCardinality(BetterThan(points, q), BetterThan(points, p) - {q});
      m := MinimalBelow(points, axes, q);
      NoWorseTransitive(m.costs, q.costs, p.costs);
    }
  }

  /** Among points of one cost vector there is one of least identity. */
  lemma {:induction false} LeastIdentity(points: seq<Point>, p: Point) returns (m: Point)
    requires p in points
    ensures m in points && m.costs == p.costs
    ensures forall q :: q in points && q.costs == p.costs ==> m.observationId <= q.observationId
  {
    if points[0] == p && (p !in points[1..]) && forall q :: q in points[1..] ==> q.costs != p.costs {
      m := p;
      assert points == [points[0]] + points[1..];
    } else if exists q :: q in points[1..] && q.costs == p.costs {
      var q :| q in points[1..] && q.costs == p.costs;
      var t := LeastIdentity(points[1..], q);
      assert points == [points[0]] + points[1..];
      m := if points[0].costs == p.costs && points[0].observationId < t.observationId then points[0] else t;
    } else {
      m := p;
      assert points == [points[0]] + points[1..];
    }
  }

  /** Every successful observation is equalled or beaten by some frontier point. */
  lemma FrontierCovers(branch: Branch, pins: Pins, s: seq<Observation>, f: Frontier, o: Observation)
    returns (p: Point)
    requires WellFormed(s) && Admissible(branch, pins, s) && FrontierOf(branch, pins, s, f)
    requires o in s && o.competenceEstablished
    ensures p in f.points && NoWorse(p.costs, o.costs)
  {
    var points := seq(|s|, i requires 0 <= i < |s| => Point(s[i].id, s[i].costs));
    var successes := ListSuccesses(s);
    var start := Point(o.id, o.costs);
    assert Successful(s, start);
    var axes := pins.budget.AxisSignature();
    forall q | q in successes ensures q.costs.Valid() && q.costs.AxisSignature() == axes {
      assert Successful(s, q);
    }
    var m := MinimalBelow(successes, axes, start);
    p := LeastIdentity(successes, m);
    assert FrontierPoint(s, p);
  }

  lemma {:induction false} ListSuccesses(s: seq<Observation>) returns (points: seq<Point>)
    ensures forall p :: p in points <==> Successful(s, p)
  {
    if s == [] {
      points := [];
    } else {
      var rest := ListSuccesses(s[1..]);
      assert s == [s[0]] + s[1..];
      var first := Point(s[0].id, s[0].costs);
      points := if s[0].competenceEstablished then [first] + rest else rest;
      forall p ensures Successful(s, p) <==> (s[0].competenceEstablished && p == first) || Successful(s[1..], p) {
        if Successful(s[1..], p) {
          var o :| o in s[1..] && o.competenceEstablished && p == Point(o.id, o.costs);
          assert o in s;
        }
        if s[0].competenceEstablished && p == first { assert s[0] in s; }
      }
    }
  }

  /** The frontier depends only on which observations occur: not on their order, nor on how
      often each is repeated. */
  lemma FrontierIgnoresOrder(branch: Branch, pins: Pins, a: seq<Observation>, b: seq<Observation>, f: Frontier,
    g: Frontier)
    requires WellFormed(a) && SameObservations(a, b) && Admissible(branch, pins, a)
    requires FrontierOf(branch, pins, a, f) && FrontierOf(branch, pins, b, g)
    ensures Admissible(branch, pins, b) && f == g
  {
    SuccessfulSame(a, b);
    forall p ensures FrontierPoint(a, p) <==> FrontierPoint(b, p) {}
    forall p | p in f.points ensures p.costs.Valid() && p.costs.AxisSignature() == pins.budget.AxisSignature() {
      assert FrontierPoint(a, p);
    }
    SameStrictOrder(f.points, g.points, pins.budget.AxisSignature());
    forall id ensures id in f.sourceIds <==> id in g.sourceIds {}
    SameAscending(f.sourceIds, g.sourceIds);
  }

  lemma SameStrictOrder(a: seq<Point>, b: seq<Point>, axes: seq<CostAxis>)
    requires StrictlyOrdered(a) && StrictlyOrdered(b) && OnAxes(a, axes)
    requires forall p :: p in a <==> p in b
    ensures a == b
  {
    SelfOrder(a);
    SelfOrder(b);
    PointOrderTotal(a, axes);
    assert Elements(a) == Elements(b);
    SameMembersPermute(a, b);
    SortedUnique(a, b, PointOrder());
  }

  lemma SelfOrder(a: seq<Point>)
    requires StrictlyOrdered(a)
    ensures Distinct(a) && Sorted(a, PointOrder())
  {
    forall i, j | 0 <= i < j < |a| ensures a[i] != a[j] && PointOrder()(a[i], a[j]) {
      LexicographicFlips(a[i].costs.coordinates, a[j].costs.coordinates);
    }
  }

  lemma AscendingIsSorted(a: seq<Id>)
    requires Ascending(a)
    ensures Distinct(a) && Sorted(a, IdOrder())
  {
    forall i, j | 0 <= i < j < |a| ensures IdOrder()(a[i], a[j]) {}
  }

  lemma SameAscending(a: seq<Id>, b: seq<Id>)
    requires Ascending(a) && Ascending(b) && forall x :: x in a <==> x in b
    ensures a == b
  {
    AscendingIsSorted(a);
    AscendingIsSorted(b);
    forall x | x in Elements(a) ensures x in Elements(b) { assert x in a; }
    forall x | x in Elements(b) ensures x in Elements(a) { assert x in b; }
    SameMembersPermute(a, b);
    SortedUnique(a, b, IdOrder());
  }
}
