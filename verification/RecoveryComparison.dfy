/** Comparison of two recovery frontiers: the builder, its declarative outcome, and the
    separately written fail-closed checker. */
module RecoveryComparison {
  import opened Sequences
  import opened CostArithmetic
  import opened RecoveryFrontier

  datatype Outcome = StrictAdvantage | NoAdvantage | FrontiersIncomparable
  datatype Coverage = Coverage(baselineId: Id, retainedId: Id, strict: bool)
  datatype Evaluation = Evaluation(outcome: Outcome, coverage: seq<Coverage>)

  datatype Comparison = Comparison(
    baseline: Frontier, retained: Frontier, outcome: Outcome, coverage: seq<Coverage>, provisional: bool)

  // ------------------------------------------------------------ canonical frontiers

  function PointIds(points: seq<Point>): seq<Id> {
    seq(|points|, i requires 0 <= i < |points| => points[i].observationId)
  }

  /** What any frontier record already satisfies. */
  predicate WellFormedFrontier(f: Frontier) {
    && (forall p :: p in f.points ==> p.costs.Valid())
    && Distinct(PointIds(f.points))
    && forall p :: p in f.points ==> p.observationId in f.sourceIds
  }

  predicate PairwiseIncomparable(points: seq<Point>) {
    forall i, j :: 0 <= i < j < |points| ==>
      CompareCostVectors(points[i].costs, points[j].costs) == Some(Incomparable)
  }

  predicate OnPinnedAxes(f: Frontier) {
    forall p :: p in f.points ==> SameAxes(p.costs, f.pins.budget)
  }

  /** On the pinned axes, in strict canonical order, and an antichain. */
  predicate Canonical(f: Frontier) {
    OnPinnedAxes(f) && StrictlyOrdered(f.points) && PairwiseIncomparable(f.points)
  }

  /** For incomparable points, being a fixed point of the sort is being strictly ordered. */
  lemma CanonicalOrder(f: Frontier)
    requires WellFormedFrontier(f) && OnPinnedAxes(f) && PairwiseIncomparable(f.points)
    ensures SortBy(f.points, PointOrder()) == f.points <==> StrictlyOrdered(f.points)
  {
    SortedMeansOrdered(f);
    if Sorted(f.points, PointOrder()) {
      forall i, j | 0 <= i < j < |f.points| ensures ComparePoints(f.points[i], f.points[j]) < 0 {
        var p, q := f.points[i], f.points[j];
        assert PointOrder()(p, q);
        assert PointIds(f.points)[i] != PointIds(f.points)[j];
        if ComparePoints(p, q) == 0 {
          LexicographicFlips(p.costs.coordinates, q.costs.coordinates);
        }
      }
    }
  }

  lemma SortedMeansOrdered(f: Frontier)
    requires WellFormedFrontier(f) && OnPinnedAxes(f)
    ensures SortBy(f.points, PointOrder()) == f.points <==> Sorted(f.points, PointOrder())
    ensures StrictlyOrdered(f.points) ==> Sorted(f.points, PointOrder())
  {
    PointOrderTotal(f.points, f.pins.budget.AxisSignature());
    SortFixed(f.points, PointOrder());
    if StrictlyOrdered(f.points) { SelfOrder(f.points); }
  }

  method CheckRecoveryFrontier(f: Frontier) returns (ok: bool)
    requires WellFormedFrontier(f)
    ensures ok <==> Canonical(f)
  {
    hide CompareCostVectors, NoWorse, SortBy, ComparePoints;
    if exists p :: p in f.points && !SameAxes(p.costs, f.pins.budget) { return false; }
    SortedMeansOrdered(f);
    if SortBy(f.points, PointOrder()) != f.points { return false; }
    for i := 0 to |f.points|
      invariant forall a, b :: 0 <= a < i && a < b < |f.points| ==>
                  CompareCostVectors(f.points[a].costs, f.points[b].costs) == Some(Incomparable)
    {
      for j := i + 1 to |f.points|
        invariant forall b :: i < b < j ==>
            CompareCostVectors(f.points[i].costs, f.points[b].costs) == Some(Incomparable)
      {
        if CompareCostVectors(f.points[i].costs, f.points[j].costs) != Some(Incomparable) { return false; }
      }
    }
    CanonicalOrder(f);
    return true;
  }

  // ------------------------------------------------------------ the outcome, declaratively

  /** Position of the first retained point that equals or beats `b`, or the length if none. */
  function FirstCover(retained: seq<Point>, b: Point): (k: nat)
    ensures k <= |retained|
    ensures forall j :: 0 <= j < k ==> !NoWorse(retained[j].costs, b.costs)
    ensures k < |retained| ==> NoWorse(retained[k].costs, b.costs)
  {
    if retained == [] then 0
    else if NoWorse(retained[0].costs, b.costs) then 0
    else 1 + FirstCover(retained[1..], b)
  }

  /** An incomparable retained point is met before any covering one. */
  predicate MeetsIncomparable(retained: seq<Point>, b: Point) {
    exists j :: 0 <= j < FirstCover(retained, b) && !NoWorse(b.costs, retained[j].costs)
  }

  /** What one row finds against `b`: its first covering point with the strict flag. */
  function RowCoverage(rs: seq<Point>, b: Point): seq<Coverage> {
    var k := FirstCover(rs, b);
    if k == |rs| then []
    else [Coverage(b.observationId, rs[k].observationId, StrictlyBetter(rs[k].costs, b.costs))]
  }

  function CoverageOf(baseline: seq<Point>, retained: seq<Point>): seq<Coverage> {
    if baseline == [] then []
    else
      CoverageOf(baseline[..|baseline|-1], retained) + RowCoverage(retained, baseline[|baseline|-1])
  }

  function OutcomeOf(baseline: seq<Point>, retained: seq<Point>): Evaluation {
    var coverage := CoverageOf(baseline, retained);
    if baseline != [] && |coverage| == |baseline| && exists c :: c in coverage && c.strict then
      Evaluation(StrictAdvantage, coverage)
    else if exists b :: b in baseline && MeetsIncomparable(retained, b) then
      Evaluation(FrontiersIncomparable, [])
    else
      Evaluation(NoAdvantage, [])
  }

  predicate Comparable(baseline: Frontier, retained: Frontier) {
    && baseline.branch == Baseline && retained.branch == Retained
    && baseline.pins == retained.pins
    && Canonical(baseline) && Canonical(retained)
  }

  /** `None` is a compatibility error. */
  function Evaluated(baseline: Frontier, retained: Frontier): Option<Evaluation> {
    if Comparable(baseline, retained) then Some(OutcomeOf(baseline.points, retained.points)) else None
  }

  // ------------------------------------------------------------ the builder

  lemma RowOnAxes(baseline: Frontier, retained: Frontier, i: nat)
    requires OnPinnedAxes(baseline) && OnPinnedAxes(retained) && baseline.pins == retained.pins
    requires i < |baseline.points|
    ensures forall r :: r in retained.points ==> SameAxes(r.costs, baseline.points[i].costs)
  {
    assert baseline.points[i] in baseline.points;
  }

  lemma {:induction false} FirstCoverIs(retained: seq<Point>, b: Point, k: nat)
    requires k <= |retained| && forall j :: 0 <= j < k ==> !NoWorse(retained[j].costs, b.costs)
    requires k < |retained| ==> NoWorse(retained[k].costs, b.costs)
    ensures FirstCover(retained, b) == k
  {}

  /** The row-by-row scan state over a prefix of the baseline. */
  ghost predicate Scanned(bs: seq<Point>, rs: seq<Point>, i: nat, coverage: seq<Coverage>, incomparable: bool)
    requires i <= |bs|
  {
    && coverage == CoverageOf(bs[..i], rs)
    && (incomparable <==> exists b :: b in bs[..i] && MeetsIncomparable(rs, b))
  }

  lemma ScanStep(bs: seq<Point>, rs: seq<Point>, i: nat, coverage: seq<Coverage>, incomparable: bool)
    requires i < |bs| && Scanned(bs, rs, i, coverage, incomparable)
    ensures Scanned(bs, rs, i + 1, coverage + RowCoverage(rs, bs[i]), incomparable || MeetsIncomparable(rs, bs[i]))
  {
    assert bs[..i+1] == bs[..i] + [bs[i]];
    assert bs[..i+1][..i] == bs[..i];
  }

  /** The inner loop of the builder. */
  method ScanRow(rs: seq<Point>, b: Point) returns (covering: Option<(Point, bool)>, incomparable: bool)
    requires forall r :: r in rs ==> SameAxes(r.costs, b.costs)
    ensures covering.None? <==> FirstCover(rs, b) == |rs|
    ensures covering.Some? ==>
        covering.value == (rs[FirstCover(rs, b)], StrictlyBetter(rs[FirstCover(rs, b)].costs, b.costs))
    ensures incomparable <==> MeetsIncomparable(rs, b)
  {
    incomparable := false;
    for j := 0 to |rs|
      invariant forall a :: 0 <= a < j ==> !NoWorse(rs[a].costs, b.costs)
      invariant incomparable <==> exists a :: 0 <= a < j && !NoWorse(b.costs, rs[a].costs)
    {
      assert rs[j] in rs;
      RelationMeans(rs[j].costs, b.costs);
      var relation := CompareCostVectors(rs[j].costs, b.costs).value;
      if relation.Incomparable? { incomparable := true; }
      if relation.LeftStrictlyBetter? || relation.Equal? {
        FirstCoverIs(rs, b, j);
        return Some((rs[j], relation.LeftStrictlyBetter?)), incomparable;
      }
    }
    FirstCoverIs(rs, b, |rs|);
    return None, incomparable;
  }

  method EvaluateFrontiers(baseline: Frontier, retained: Frontier) returns (r: Option<Evaluation>)
    requires WellFormedFrontier(baseline) && WellFormedFrontier(retained)
    ensures r == Evaluated(baseline, retained)
  {
    hide NoWorse, StrictlyBetter, CompareCostVectors;
    if baseline.branch != Baseline || retained.branch != Retained || baseline.pins != retained.pins { return None; }
    var baselineOk := CheckRecoveryFrontier(baseline);
    if !baselineOk { return None; }
    var retainedOk := CheckRecoveryFrontier(retained);
    if !retainedOk { return None; }
    var coverage: seq<Coverage> := [];
    var observedIncomparability := false;
    var bs, rs := baseline.points, retained.points;
    for i := 0 to |bs|
      invariant Scanned(bs, rs, i, coverage, observedIncomparability)
    {
      RowOnAxes(baseline, retained, i);
      var covering, incomparable := ScanRow(rs, bs[i]);
      ScanStep(bs, rs, i, coverage, observedIncomparability);
      if covering.Some? {
        coverage := coverage + [Coverage(bs[i].observationId, covering.value.0.observationId, covering.value.1)];
      }
      observedIncomparability := observedIncomparability || incomparable;
    }
    assert bs[..|bs|] == bs;
    var complete := bs != [] && |coverage| == |bs|;
    if complete && exists c :: c in coverage && c.strict { return Some(Evaluation(StrictAdvantage, coverage)); }
    if observedIncomparability { return Some(Evaluation(FrontiersIncomparable, [])); }
    return Some(Evaluation(NoAdvantage, []));
  }

  /** The record's own shape rules, which construction enforces. */
  predicate WellShaped(c: Comparison) {
    && c.baseline.branch == Baseline && c.retained.branch == Retained
    && (forall i, j :: 0 <= i < j < |c.coverage| ==> c.coverage[i].baselineId != c.coverage[j].baselineId)
    && (forall x :: x in c.coverage ==>
        x.baselineId in PointIds(c.baseline.points) && x.retainedId in PointIds(c.retained.points))
  }

  lemma {:induction false} CoverageShape(baseline: seq<Point>, retained: seq<Point>)
    requires Distinct(PointIds(baseline))
    ensures forall x :: x in CoverageOf(baseline, retained) ==>
              x.baselineId in PointIds(baseline) && x.retainedId in PointIds(retained)
    ensures forall i, j :: 0 <= i < j < |CoverageOf(baseline, retained)| ==>
              CoverageOf(baseline, retained)[i].baselineId != CoverageOf(baseline, retained)[j].baselineId
  {
    if baseline != [] {
      var front, b := baseline[..|baseline|-1], baseline[|baseline|-1];
      assert PointIds(baseline) == PointIds(front) + [b.observationId];
      forall i | 0 <= i < |front| ensures PointIds(front)[i] != b.observationId {
        assert PointIds(baseline)[i] != PointIds(baseline)[|front|];
      }
      forall i, j | 0 <= i < j < |front| ensures PointIds(front)[i] != PointIds(front)[j] {
        assert PointIds(baseline)[i] != PointIds(baseline)[j];
      }
      CoverageShape(front, retained);
      var k := FirstCover(retained, b);
      if k < |retained| { assert PointIds(retained)[k] == retained[k].observationId; }
      var rest := CoverageOf(front, retained);
      forall i | 0 <= i < |rest| ensures rest[i].baselineId != b.observationId {
        assert rest[i] in rest;
      }
    }
  }

  // ------------------------------------------------------------ what the outcome means

  ghost predicate Covers(retained: seq<Point>, b: Point) {
    exists r :: r in retained && NoWorse(r.costs, b.costs)
  }

  ghost predicate StrictlyCovers(retained: seq<Point>, b: Point) {
    exists r :: r in retained && StrictlyBetter(r.costs, b.costs)
  }

  ghost predicate Advantage(baseline: seq<Point>, retained: seq<Point>) {
    && baseline != []
    && (forall b :: b in baseline ==> Covers(retained, b))
    && exists b :: b in baseline && StrictlyCovers(retained, b)
  }

  ghost predicate AntichainOnAxes(points: seq<Point>, axes: seq<CostAxis>) {
    OnAxes(points, axes) && PairwiseIncomparable(points)
  }

  /** In an antichain no member equals or beats another. */
  lemma AntichainMember(points: seq<Point>, axes: seq<CostAxis>, p: Point, q: Point)
    requires AntichainOnAxes(points, axes) && p in points && q in points && NoWorse(p.costs, q.costs)
    ensures p == q
  {
    var i :| 0 <= i < |points| && points[i] == p;
    var j :| 0 <= j < |points| && points[j] == q;
    RelationMeans(p.costs, q.costs);
    RelationMeans(q.costs, p.costs);
  }

  /** Whether a point is covered strictly does not depend on which covering point is met first. */
  lemma StrictFlagIgnoresOrder(retained: seq<Point>, axes: seq<CostAxis>, b: Point, r: Point, other: Point)
    requires AntichainOnAxes(retained, axes) && b.costs.Valid()
    requires r in retained && other in retained && NoWorse(r.costs, b.costs) && NoWorse(other.costs, b.costs)
    ensures StrictlyBetter(r.costs, b.costs) <==> StrictlyBetter(other.costs, b.costs)
  {
    EqualCoverIsOnly(retained, axes, b, r, other);
    EqualCoverIsOnly(retained, axes, b, other, r);
  }

  /** A retained point equal in cost to `b` is the only one covering it. */
  lemma EqualCoverIsOnly(retained: seq<Point>, axes: seq<CostAxis>, b: Point, r: Point, other: Point)
    requires AntichainOnAxes(retained, axes) && b.costs.Valid()
    requires r in retained && other in retained && NoWorse(r.costs, b.costs) && NoWorse(other.costs, b.costs)
    ensures NoWorse(b.costs, r.costs) ==> other == r
  {
    if NoWorse(b.costs, r.costs) {
      NoWorseTransitive(other.costs, b.costs, r.costs);
      AntichainMember(retained, axes, other, r);
    }
  }

  lemma {:induction false} CoverageCounts(baseline: seq<Point>, retained: seq<Point>)
    ensures |CoverageOf(baseline, retained)| <= |baseline|
    ensures |CoverageOf(baseline, retained)| == |baseline| <==> forall b :: b in baseline ==> Covers(retained, b)
    ensures (exists c :: c in CoverageOf(baseline, retained) && c.strict) <==>
            exists b :: b in baseline && FirstCover(retained, b) < |retained|
                        && StrictlyBetter(retained[FirstCover(retained, b)].costs, b.costs)
  {
    hide NoWorse, StrictlyBetter;
    if baseline != [] {
      var front, b := baseline[..|baseline|-1], baseline[|baseline|-1];
      CoverageCounts(front, retained);
      assert baseline == front + [b];
      CoverIffFound(retained, b);
      var row := RowCoverage(retained, b);
      assert row != [] ==> row[0] in row;
      assert CoverageOf(baseline, retained) == CoverageOf(front, retained) + row;
    }
  }

  lemma CoverIffFound(retained: seq<Point>, b: Point)
    ensures FirstCover(retained, b) < |retained| <==> Covers(retained, b)
  {
    var k := FirstCover(retained, b);
    if k < |retained| { assert retained[k] in retained; }
    if Covers(retained, b) { CoverIsFound(retained, b); }
  }

  /** STRICT_ADVANTAGE is exactly: a nonempty baseline, every point equalled or beaten, and
      at least one strictly beaten. */
  lemma StrictAdvantageMeans(baseline: Frontier, retained: Frontier)
    requires WellFormedFrontier(baseline) && WellFormedFrontier(retained) && Comparable(baseline, retained)
    ensures Evaluated(baseline, retained).value.outcome == StrictAdvantage
        <==> Advantage(baseline.points, retained.points)
  {
    hide NoWorse, StrictlyBetter, CompareCostVectors;
    var bs, rs, axes := baseline.points, retained.points, baseline.pins.budget.AxisSignature();
    assert AntichainOnAxes(rs, axes) && OnAxes(bs, axes);
    StrictSomewhere(bs, rs, axes);
    CoverageCounts(bs, rs);
  }

  lemma StrictSomewhere(bs: seq<Point>, rs: seq<Point>, axes: seq<CostAxis>)
    requires AntichainOnAxes(rs, axes) && OnAxes(bs, axes)
    ensures (exists b :: b in bs && FirstCover(rs, b) < |rs| && StrictlyBetter(rs[FirstCover(rs, b)].costs, b.costs))
       <==> exists b :: b in bs && StrictlyCovers(rs, b)
  {
    hide NoWorse, CompareCostVectors;
    if b :| b in bs && StrictlyCovers(rs, b) {
      StrictIsCover(rs, b);
      FirstCoverDecidesStrict(rs, axes, b);
      assert exists x :: x in bs && FirstCover(rs, x) < |rs| && StrictlyBetter(rs[FirstCover(rs, x)].costs, x.costs);
    }
    if b :| b in bs && FirstCover(rs, b) < |rs| && StrictlyBetter(rs[FirstCover(rs, b)].costs, b.costs) {
      assert rs[FirstCover(rs, b)] in rs;
      assert StrictlyCovers(rs, b);
    }
  }

  lemma StrictIsCover(retained: seq<Point>, b: Point)
    requires StrictlyCovers(retained, b)
    ensures Covers(retained, b)
  {}

  lemma FirstCoverDecidesStrict(retained: seq<Point>, axes: seq<CostAxis>, b: Point)
    requires AntichainOnAxes(retained, axes) && b.costs.Valid() && Covers(retained, b)
    ensures FirstCover(retained, b) < |retained|
    ensures StrictlyCovers(retained, b) <==> StrictlyBetter(retained[FirstCover(retained, b)].costs, b.costs)
  {
    CoverIsFound(retained, b);
    var first := retained[FirstCover(retained, b)];
    assert first in retained;
    forall r | r in retained && StrictlyBetter(r.costs, b.costs) ensures StrictlyBetter(first.costs, b.costs) {
      StrictFlagIgnoresOrder(retained, axes, b, first, r);
    }
  }

  lemma CoverIsFound(retained: seq<Point>, b: Point)
    requires Covers(retained, b)
    ensures FirstCover(retained, b) < |retained|
  {
    var r :| r in retained && NoWorse(r.costs, b.costs);
    var i :| 0 <= i < |retained| && retained[i] == r;
  }

  /** The same two point sets cannot show a strict advantage in both directions. */
  lemma AdvantageIsOneWay(a: seq<Point>, b: seq<Point>, axes: seq<CostAxis>)
    requires AntichainOnAxes(a, axes) && AntichainOnAxes(b, axes)
    requires Advantage(a, b)
    ensures !Advantage(b, a)
  {
    var p :| p in a && StrictlyCovers(b, p);
    var q :| q in b && StrictlyBetter(q.costs, p.costs);
    if Covers(a, q) {
      var r :| r in a && NoWorse(r.costs, q.costs);
      NoWorseTransitive(r.costs, q.costs, p.costs);
      AntichainMember(a, axes, r, p);
    }
  }

  // ------------------------------------------------------------ the independent checker

  datatype Relation = RetainedBetter | CheckedEqual | BaselineBetter | CheckedIncomparable

  /** The checker's own arithmetic: two flags cleared in a loop. `None` is mismatched axes. */
  method VectorRelation(retained: CostVector, baseline: CostVector) returns (r: Option<Relation>)
    ensures r.Some? <==> SameAxes(retained, baseline)
    ensures r == Some(RetainedBetter) <==> CompareCostVectors(retained, baseline) == Some(LeftStrictlyBetter)
    ensures r == Some(CheckedEqual) <==> CompareCostVectors(retained, baseline) == Some(Equal)
    ensures r == Some(BaselineBetter) <==> CompareCostVectors(retained, baseline) == Some(RightStrictlyBetter)
    ensures r == Some(CheckedIncomparable) <==> CompareCostVectors(retained, baseline) == Some(Incomparable)
  {
    if !SameAxes(retained, baseline) { return None; }
    SameAxesPointwise(retained, baseline);
    RelationMeans(retained, baseline);
    var retainedNoWorse, baselineNoWorse := true, true;
    var rs, bs := retained.coordinates, baseline.coordinates;
    for i := 0 to |rs|
      invariant retainedNoWorse <==> forall k :: 0 <= k < i ==> Cross(rs[k], bs[k]) <= 0
      invariant baselineNoWorse <==> forall k :: 0 <= k < i ==> Cross(bs[k], rs[k]) <= 0
    {
      var retainedScaled := rs[i].numerator * bs[i].denominator;
      var baselineScaled := bs[i].numerator * rs[i].denominator;
      if retainedScaled > baselineScaled { retainedNoWorse := false; }
      if baselineScaled > retainedScaled { baselineNoWorse := false; }
    }
    return Some(if retainedNoWorse && baselineNoWorse then CheckedEqual
                else if retainedNoWorse then RetainedBetter
                else if baselineNoWorse then BaselineBetter
                else CheckedIncomparable);
  }

  /** The checker's own point order, by first differing scaled coordinate. */
  function CheckedOrder(l: seq<CostCoordinate>, r: seq<CostCoordinate>, leftId: Id, rightId: Id): int {
    if l == [] || r == [] then (if leftId > rightId then 1 else 0) - (if leftId < rightId then 1 else 0)
    else
      var leftScaled, rightScaled := l[0].numerator * r[0].denominator, r[0].numerator * l[0].denominator;
      if leftScaled != rightScaled then (if leftScaled < rightScaled then -1 else 1)
      else CheckedOrder(l[1..], r[1..], leftId, rightId)
  }

  function CheckedPointOrder(): (Point, Point) -> bool {
    (l: Point, r: Point) =>
      CheckedOrder(l.costs.coordinates, r.costs.coordinates, l.observationId, r.observationId) <= 0
  }

  lemma {:induction false} OrdersAgree(l: seq<CostCoordinate>, r: seq<CostCoordinate>, leftId: Id, rightId: Id)
    ensures CheckedOrder(l, r, leftId, rightId)
         == if CompareLexicographically(l, r) != 0 then CompareLexicographically(l, r) else CompareIds(leftId, rightId)
  {
    if l != [] && r != [] { OrdersAgree(l[1..], r[1..], leftId, rightId); }
  }

  lemma {:induction false} InsertAgrees(p: Point, s: seq<Point>)
    ensures Insert(p, s, CheckedPointOrder()) == Insert(p, s, PointOrder())
  {
    if s != [] {
      OrdersAgree(p.costs.coordinates, s[0].costs.coordinates, p.observationId, s[0].observationId);
      InsertAgrees(p, s[1..]);
    }
  }

  lemma {:induction false} SortsAgree(s: seq<Point>)
    ensures SortBy(s, CheckedPointOrder()) == SortBy(s, PointOrder())
  {
    if s != [] {
      SortsAgree(s[1..]);
      InsertAgrees(s[0], SortBy(s[1..], PointOrder()));
    }
  }

  method CheckFrontier(f: Frontier) returns (ok: bool)
    requires WellFormedFrontier(f)
    ensures ok <==> Canonical(f)
  {
    hide CompareCostVectors, NoWorse, SortBy, ComparePoints, Distinct;
    if exists p :: p in f.points && p.costs.AxisSignature() != f.pins.budget.AxisSignature() { return false; }
    SortedMeansOrdered(f);
    SortsAgree(f.points);
    if SortBy(f.points, CheckedPointOrder()) != f.points { return false; }
    for i := 0 to |f.points|
      invariant forall a, b :: 0 <= a < i && a < b < |f.points| ==>
                  CompareCostVectors(f.points[a].costs, f.points[b].costs) == Some(Incomparable)
    {
      for j := i + 1 to |f.points|
        invariant forall b :: i < b < j ==>
            CompareCostVectors(f.points[i].costs, f.points[b].costs) == Some(Incomparable)
      {
        var relation := VectorRelation(f.points[i].costs, f.points[j].costs);
        if relation != Some(CheckedIncomparable) { return false; }
      }
    }
    CanonicalOrder(f);
    return true;
  }

  /** One row of the checker's scan: the first witness against `b`, and whether an
      incomparable point was met before it. `None` is a mismatched axis. */
  method ScanRetained(retained: seq<Point>, b: Point) returns (r: Option<(Option<(Point, bool)>, bool)>)
    ensures r.Some? <== forall q :: q in retained ==> SameAxes(q.costs, b.costs)
    ensures r.Some? && (forall q :: q in retained ==> SameAxes(q.costs, b.costs)) ==>
              var (found, incomparable) := r.value;
              && (found.None? <==> FirstCover(retained, b) == |retained|)
              && (found.Some? ==>
                    var r := retained[FirstCover(retained, b)];
                    found.value == (r, StrictlyBetter(r.costs, b.costs)))
              && (incomparable <==> MeetsIncomparable(retained, b))
  {
    var incomparable := false;
    for j := 0 to |retained|
      invariant (forall q :: q in retained ==> SameAxes(q.costs, b.costs)) ==>
                  && (forall a :: 0 <= a < j ==> !NoWorse(retained[a].costs, b.costs))
                  && (incomparable <==> exists a :: 0 <= a < j && !NoWorse(b.costs, retained[a].costs))
    {
      assert retained[j] in retained;
      var relation := VectorRelation(retained[j].costs, b.costs);
      if relation.None? { return None; }
      RelationMeans(retained[j].costs, b.costs);
      if relation.value.CheckedIncomparable? { incomparable := true; }
      if relation.value.RetainedBetter? || relation.value.CheckedEqual? {
        if forall q :: q in retained ==> SameAxes(q.costs, b.costs) { FirstCoverIs(retained, b, j); }
        return Some((Some((retained[j], relation.value.RetainedBetter?)), incomparable));
      }
    }
    if forall q :: q in retained ==> SameAxes(q.costs, b.costs) { FirstCoverIs(retained, b, |retained|); }
    return Some((None, incomparable));
  }

  /** The second implementation's nested scan; `None` is a vector error. */
  method CollectCoverage(baseline: Frontier, retained: Frontier) returns (r: Option<(seq<Coverage>, bool)>)
    requires WellFormedFrontier(baseline) && WellFormedFrontier(retained) && Comparable(baseline, retained)
    ensures r.Some? && r.value.0 == CoverageOf(baseline.points, retained.points)
    ensures r.value.1 <==> exists b :: b in baseline.points && MeetsIncomparable(retained.points, b)
  {
    hide NoWorse, StrictlyBetter, CompareCostVectors, FirstCover, MeetsIncomparable, CoverageOf;
    var expected: seq<Coverage> := [];
    var sawIncomparable := false;
    var bs, rs := baseline.points, retained.points;
    ScanStarts(bs, rs);
    for i := 0 to |bs|
      invariant Scanned(bs, rs, i, expected, sawIncomparable)
    {
      RowOnAxes(baseline, retained, i);
      var row := ScanRetained(rs, bs[i]);
      if row.None? { return None; }
      ScanStep(bs, rs, i, expected, sawIncomparable);
      var (found, incomparable) := row.value;
      sawIncomparable := sawIncomparable || incomparable;
      if found.Some? {
        expected := expected + [Coverage(bs[i].observationId, found.value.0.observationId, found.value.1)];
      }
    }
    assert bs[..|bs|] == bs;
    return Some((expected, sawIncomparable));
  }

  lemma ScanStarts(bs: seq<Point>, rs: seq<Point>)
    ensures Scanned(bs, rs, 0, [], false)
  {}

  /** Accepts a comparison exactly when the builder, given the same frontiers, would produce
      that outcome and coverage without raising. */
  method CheckRecoveryComparison(c: Comparison) returns (ok: bool)
    requires WellFormedFrontier(c.baseline) && WellFormedFrontier(c.retained)
    ensures ok <==> Evaluated(c.baseline, c.retained) == Some(Evaluation(c.outcome, c.coverage)) && c.provisional
  {
    hide Canonical, CoverageOf, MeetsIncomparable, WellFormedFrontier;
    if c.baseline.branch != Baseline { return false; }
    if c.retained.branch != Retained { return false; }
    if c.baseline.pins != c.retained.pins { return false; }
    var baselineOk := CheckFrontier(c.baseline);
    if !baselineOk { return false; }
    var retainedOk := CheckFrontier(c.retained);
    if !retainedOk { return false; }
    var scanned := CollectCoverage(c.baseline, c.retained);
    if scanned.None? { return false; }
    var (expected, sawIncomparable) := scanned.value;
    var complete := c.baseline.points != [] && |expected| == |c.baseline.points|;
    var outcome := NoAdvantage;
    if complete && exists x :: x in expected && x.strict {
      outcome := StrictAdvantage;
    } else {
      if sawIncomparable { outcome := FrontiersIncomparable; }
      expected := [];
    }
    return c.outcome == outcome && c.coverage == expected && c.provisional;
  }

  // ------------------------------------------------------------ building a comparison

  /** The record's validator: its shape rules, then the second implementation. */
  method ConstructComparison(c: Comparison) returns (ok: bool)
    requires WellFormedFrontier(c.baseline) && WellFormedFrontier(c.retained)
    ensures ok <==>
              WellShaped(c) && c.provisional
              && Evaluated(c.baseline, c.retained) == Some(Evaluation(c.outcome, c.coverage))
  {
    hide WellShaped, Evaluated, WellFormedFrontier;
    if !WellShaped(c) { return false; }
    ok := CheckRecoveryComparison(c);
  }

  /** Whatever is evaluated has the record's shape, whichever outcome it is. */
  lemma EvaluatedIsWellShaped(baseline: Frontier, retained: Frontier)
    requires WellFormedFrontier(baseline) && WellFormedFrontier(retained) && Comparable(baseline, retained)
    ensures var e := Evaluated(baseline, retained).value;
      WellShaped(Comparison(baseline, retained, e.outcome, e.coverage, true))
  {
    hide CoverageOf, Canonical, MeetsIncomparable;
    CoverageShape(baseline.points, retained.points);
  }

  /** The builder evaluates and constructs; construction never refuses what it evaluated, so it
      fails exactly when the frontiers are not comparable. */
  method CompareRecoveryFrontiers(baseline: Frontier, retained: Frontier) returns (c: Option<Comparison>)
    requires WellFormedFrontier(baseline) && WellFormedFrontier(retained)
    ensures c.Some? <==> Comparable(baseline, retained)
    ensures c.Some? ==> Some(Evaluation(c.value.outcome, c.value.coverage)) == Evaluated(baseline, retained)
    ensures c.Some? ==> c.value.baseline == baseline && c.value.retained == retained && c.value.provisional
    ensures c.Some? ==> WellShaped(c.value)
  {
    hide WellShaped, WellFormedFrontier, OutcomeOf, Canonical;
    var e := EvaluateFrontiers(baseline, retained);
    if e.None? { return None; }
    EvaluatedIsWellShaped(baseline, retained);
    var built := Comparison(baseline, retained, e.value.outcome, e.value.coverage, true);
    var ok := ConstructComparison(built);
    if !ok { return None; }
    return Some(built);
  }

  /** Every comparison the builder returns passes the second implementation. */
  method BuiltComparisonIsAccepted(baseline: Frontier, retained: Frontier)
    returns (c: Option<Comparison>, accepted: bool)
    requires WellFormedFrontier(baseline) && WellFormedFrontier(retained)
    ensures c.Some? <==> Comparable(baseline, retained)
    ensures accepted <==> c.Some?
  {
    hide WellFormedFrontier, Comparable, Evaluated;
    c := CompareRecoveryFrontiers(baseline, retained);
    accepted := false;
    if c.Some? { accepted := CheckRecoveryComparison(c.value); }
  }

  // ------------------------------------------------------------ from observations to the outcome

  /** A derived frontier is well formed and canonical. */
  lemma DerivedIsCanonical(branch: Branch, pins: Pins, s: seq<Observation>, f: Frontier)
    requires WellFormed(s) && Admissible(branch, pins, s) && FrontierOf(branch, pins, s, f)
    ensures WellFormedFrontier(f) && Canonical(f)
  {
    hide CompareCostVectors, ComparePoints, NoWorse, StrictlyBetter;
    forall p | p in f.points
      ensures p.costs.Valid() && SameAxes(p.costs, pins.budget) && p.observationId in f.sourceIds
    {
      assert FrontierPoint(s, p);
    }
    forall i, j | 0 <= i < j < |f.points|
      ensures CompareCostVectors(f.points[i].costs, f.points[j].costs) == Some(Incomparable)
    {
      FrontierIsAntichain(branch, pins, s, f, i, j);
    }
    DistinctPointIds(branch, pins, s, f);
  }

  lemma DistinctPointIds(branch: Branch, pins: Pins, s: seq<Observation>, f: Frontier)
    requires Admissible(branch, pins, s) && FrontierOf(branch, pins, s, f)
    ensures Distinct(PointIds(f.points))
  {
    hide StrictlyBetter, CompareLexicographically;
    forall i, j | 0 <= i < j < |f.points| ensures f.points[i].observationId != f.points[j].observationId {
      var p, q := f.points[i], f.points[j];
      assert p in f.points && q in f.points;
      assert FrontierPoint(s, p) && FrontierPoint(s, q);
      assert ComparePoints(p, q) < 0;
      if p.observationId == q.observationId { SelfComparison(p); }
    }
  }

  lemma SelfComparison(p: Point)
    ensures ComparePoints(p, p) == 0
  {
    LexicographicFlips(p.costs.coordinates, p.costs.coordinates);
  }

  /** A successful observation of `s` costing no more than `o`. */
  ghost predicate Reached(s: seq<Observation>, o: Observation) {
    exists x :: x in s && x.competenceEstablished && NoWorse(x.costs, o.costs)
  }

  ghost predicate Bettered(s: seq<Observation>, o: Observation) {
    exists x :: x in s && x.competenceEstablished && StrictlyBetter(x.costs, o.costs)
  }

  /** The baseline succeeded, every success of it is reached by the retained branch, and one that
      no baseline success betters is bettered there. */
  ghost predicate RawAdvantage(baseline: seq<Observation>, retained: seq<Observation>) {
    && (exists o :: o in baseline && o.competenceEstablished)
    && (forall o :: o in baseline && o.competenceEstablished ==> Reached(retained, o))
    && exists o :: o in baseline && o.competenceEstablished && !Bettered(baseline, o) && Bettered(retained, o)
  }

  /** Frontier points stand for the successes of their branch. */
  lemma ReachedByPoints(branch: Branch, pins: Pins, s: seq<Observation>, f: Frontier, o: Observation)
    requires WellFormed(s) && Admissible(branch, pins, s) && FrontierOf(branch, pins, s, f)
    requires o.costs.Valid() && SameAxes(o.costs, pins.budget)
    ensures Reached(s, o) <==> Covers(f.points, Point(o.id, o.costs))
    ensures Bettered(s, o) <==> StrictlyCovers(f.points, Point(o.id, o.costs))
  {
    hide NoWorse, CompareCostVectors, ComparePoints, StrictlyOrdered, Ascending;
    forall x | x in s && x.competenceEstablished && NoWorse(x.costs, o.costs)
      ensures Covers(f.points, Point(o.id, o.costs))
      ensures StrictlyBetter(x.costs, o.costs) ==> StrictlyCovers(f.points, Point(o.id, o.costs))
    {
      var p := FrontierCovers(branch, pins, s, f, x);
      assert FrontierPoint(s, p);
      NoWorseTransitive(p.costs, x.costs, o.costs);
    }
    forall p | p in f.points && NoWorse(p.costs, o.costs)
      ensures Reached(s, o) && (StrictlyBetter(p.costs, o.costs) ==> Bettered(s, o))
    {
      assert FrontierPoint(s, p);
      var x :| x in s && x.competenceEstablished && p == Point(x.id, x.costs);
    }
  }

  lemma PointOf(branch: Branch, pins: Pins, s: seq<Observation>, f: Frontier, p: Point) returns (o: Observation)
    requires WellFormed(s) && Admissible(branch, pins, s) && FrontierOf(branch, pins, s, f) && p in f.points
    ensures o in s && o.competenceEstablished && p == Point(o.id, o.costs) && !Bettered(s, o)
  {
    hide NoWorse;
    assert FrontierPoint(s, p);
    o :| o in s && o.competenceEstablished && p == Point(o.id, o.costs);
    forall x | x in s && x.competenceEstablished ensures !StrictlyBetter(x.costs, o.costs) {
      assert Successful(s, Point(x.id, x.costs));
    }
  }

  lemma AdvantageOfPoints(pins: Pins, a: seq<Observation>, f: Frontier, b: seq<Observation>, g: Frontier)
    requires WellFormed(a) && Admissible(Baseline, pins, a) && FrontierOf(Baseline, pins, a, f)
    requires WellFormed(b) && Admissible(Retained, pins, b) && FrontierOf(Retained, pins, b, g)
    requires Advantage(f.points, g.points)
    ensures RawAdvantage(a, b)
  {
    hide NoWorse, StrictlyBetter, FrontierOf, Covers, StrictlyCovers;
    forall o | o in a && o.competenceEstablished ensures Reached(b, o) {
      var p := FrontierCovers(Baseline, pins, a, f, o);
      var x := PointOf(Baseline, pins, a, f, p);
      ReachedByPoints(Retained, pins, b, g, x);
      assert Covers(g.points, p);
      var y :| y in b && y.competenceEstablished && NoWorse(y.costs, x.costs);
      NoWorseTransitive(y.costs, x.costs, o.costs);
    }
    var p :| p in f.points && StrictlyCovers(g.points, p);
    var o := PointOf(Baseline, pins, a, f, p);
    ReachedByPoints(Retained, pins, b, g, o);
    assert Bettered(b, o);
  }

  lemma AdvantageOfObservations(pins: Pins, a: seq<Observation>, f: Frontier, b: seq<Observation>, g: Frontier)
    requires WellFormed(a) && Admissible(Baseline, pins, a) && FrontierOf(Baseline, pins, a, f)
    requires WellFormed(b) && Admissible(Retained, pins, b) && FrontierOf(Retained, pins, b, g)
    requires RawAdvantage(a, b)
    ensures Advantage(f.points, g.points)
  {
    hide NoWorse, CompareCostVectors, FrontierOf, Covers, StrictlyCovers;
    forall p | p in f.points ensures Covers(g.points, p) {
      var x := PointOf(Baseline, pins, a, f, p);
      ReachedByPoints(Retained, pins, b, g, x);
    }
    var o :| o in a && o.competenceEstablished && !Bettered(a, o) && Bettered(b, o);
    var p := FrontierCovers(Baseline, pins, a, f, o);
    var x := PointOf(Baseline, pins, a, f, p);
    assert !StrictlyBetter(x.costs, o.costs);
    MutualNoWorse(x.costs, o.costs);
    ReachedByPoints(Retained, pins, b, g, x);
    assert Bettered(b, x);
    assert StrictlyCovers(g.points, p);
  }

  /** Two frontiers derived under the same pins always compare, and the outcome is STRICT_ADVANTAGE
      exactly when the raw observations show it. */
  lemma DerivedFrontiersCompare(pins: Pins, a: seq<Observation>, f: Frontier, b: seq<Observation>, g: Frontier)
    requires WellFormed(a) && Admissible(Baseline, pins, a) && FrontierOf(Baseline, pins, a, f)
    requires WellFormed(b) && Admissible(Retained, pins, b) && FrontierOf(Retained, pins, b, g)
    ensures WellFormedFrontier(f) && WellFormedFrontier(g) && Comparable(f, g) && Evaluated(f, g).Some?
    ensures Evaluated(f, g).value.outcome == StrictAdvantage <==> RawAdvantage(a, b)
  {
    hide WellFormedFrontier, Canonical, Advantage, RawAdvantage, OutcomeOf;
    DerivedIsCanonical(Baseline, pins, a, f);
    DerivedIsCanonical(Retained, pins, b, g);
    StrictAdvantageMeans(f, g);
    if Advantage(f.points, g.points) { AdvantageOfPoints(pins, a, f, b, g); }
    if RawAdvantage(a, b) { AdvantageOfObservations(pins, a, f, b, g); }
  }
}
