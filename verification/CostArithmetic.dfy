/** Exact rational costs: reduced fractions compared by integer cross multiplication, the
    Pareto relation on cost vectors, and the canonical order on frontier points. */
module CostArithmetic {
  import opened Sequences

  /** Identifiers are text; only equality and their total order matter. */
  type Id = int

  // ------------------------------------------------------------ greatest common divisor

  function Gcd(a: nat, b: nat): nat
    decreases b
  {
    if b == 0 then a else Gcd(b, a % b)
  }

  /** Coefficients x, y with a*x + b*y equal to the greatest common divisor. */
  lemma {:induction false} Bezout(a: nat, b: nat) returns (x: int, y: int)
    ensures a * x + b * y == Gcd(a, b)
    decreases b
  {
    if b == 0 {
      x, y := 1, 0;
    } else {
      var u, v := Bezout(b, a % b);
      x, y := v, u - a / b * v;
      var q, r := a / b, a % b;
      assert a == b * q + r;
      assert a * v == (b * q) * v + r * v by { Distribute(b * q, r, v); }
      assert b * (u - q * v) == b * u - b * (q * v);
      assert (b * q) * v == b * (q * v) by { Reassociate(b, q, v); }
    }
  }

  lemma Distribute(a: int, b: int, c: int)
    ensures (a + b) * c == a * c + b * c
  {}

  lemma Reassociate(a: int, b: int, c: int)
    ensures (a * b) * c == a * (b * c)
  {}

  /** Euclid's lemma: a divisor of a*d that shares no factor with a divides d. */
  lemma CoprimeDivides(a: nat, b: nat, d: int, c: int)
    requires Gcd(a, b) == 1 && a * d == c * b
    ensures exists k :: d == k * b
  {
    var x, y := Bezout(a, b);
    assert d == (a * x + b * y) * d;
    assert (a * x + b * y) * d == (a * x) * d + (b * y) * d by { Distribute(a * x, b * y, d); }
    assert (a * x) * d == x * (a * d) by { Reassociate(x, a, d); }
    assert x * (c * b) == (x * c) * b by { Reassociate(x, c, b); }
    assert (b * y) * d == (y * d) * b by { Reassociate(y, b, d); Reassociate(y, d, b); }
    assert (x * c) * b + (y * d) * b == (x * c + y * d) * b by { Distribute(x * c, y * d, b); }
    assert d == (x * c + y * d) * b;
  }

  // ------------------------------------------------------------ coordinates

  datatype CostAxis = CostAxis(id: Id, unitId: Id)

  datatype CostCoordinate = CostCoordinate(axis: CostAxis, numerator: nat, denominator: nat) {
    /** Canonical reduced form, with zero written over one. */
    predicate Valid() {
      && denominator > 0
      && (numerator == 0 ==> denominator == 1)
      && (numerator != 0 ==> Gcd(numerator, denominator) == 1)
    }
  }

  /** -1, 0 or 1 by cross multiplication; the axis check is `CompareCostCoordinates`. */
  function Cross(l: CostCoordinate, r: CostCoordinate): int {
    var left, right := l.numerator * r.denominator, r.numerator * l.denominator;
    if left < right then -1 else if left > right then 1 else 0
  }

  /** `None` is the error of comparing different axes. */
  function CompareCostCoordinates(l: CostCoordinate, r: CostCoordinate): Option<int> {
    if l.axis != r.axis then None else Some(Cross(l, r))
  }

  lemma ScaleLess(a: int, b: int, k: nat)
    requires k > 0
    ensures a < b <==> a * k < b * k
    ensures a <= b <==> a * k <= b * k
  {
    if a < b {
      assert (b - a) * k > 0 by { Positive(b - a, k); }
    } else if b < a {
      assert (a - b) * k > 0 by { Positive(a - b, k); }
    }
    Distribute(b, -a, k);
    Distribute(a, -b, k);
  }

  lemma Positive(a: int, b: int)
    requires a > 0 && b > 0
    ensures a * b > 0
  {}

  /** Cross multiplication orders rationals: the order is transitive, strictly if either step is. */
  lemma CrossTransitive(a: CostCoordinate, b: CostCoordinate, c: CostCoordinate)
    requires a.denominator > 0 && b.denominator > 0 && c.denominator > 0
    requires Cross(a, b) <= 0 && Cross(b, c) <= 0
    ensures Cross(a, c) <= 0
    ensures Cross(a, b) < 0 || Cross(b, c) < 0 ==> Cross(a, c) < 0
  {
    var (an, ad, bn, bd, cn, cd) :=
      (a.numerator, a.denominator, b.numerator, b.denominator, c.numerator, c.denominator);
    ScaleLess(an * bd, bn * ad, cd);
    ScaleLess(bn * cd, cn * bd, ad);
    ScaleLess(an * cd, cn * ad, bd);
    assert (an * bd) * cd == (an * cd) * bd by { Reassociate(an, bd, cd); Reassociate(an, cd, bd); }
    assert (bn * ad) * cd == (bn * cd) * ad by { Reassociate(bn, ad, cd); Reassociate(bn, cd, ad); }
    assert (cn * bd) * ad == (cn * ad) * bd by { Reassociate(cn, bd, ad); Reassociate(cn, ad, bd); }
  }

  lemma CrossFlips(a: CostCoordinate, b: CostCoordinate)
    ensures Cross(a, b) == -Cross(b, a)
  {}

  /** Reduced fractions on one axis compare equal only when they are the same record. */
  lemma CrossZeroIsIdentity(a: CostCoordinate, b: CostCoordinate)
    requires a.Valid() && b.Valid() && a.axis == b.axis
    ensures Cross(a, b) == 0 <==> a == b
  {
    var (n, d, m, e) := (a.numerator, a.denominator, b.numerator, b.denominator);
    if Cross(a, b) == 0 {
      assert n * e == m * d;
      if n == 0 {
        assert m * d == 0;
        assert m == 0 by { if m > 0 { Positive(m, d); } }
      } else {
        assert m != 0 by { Positive(n, e); }
        CoprimeDivides(n, d, e, m);
        CoprimeDivides(m, e, d, n);
        var j :| e == j * d;
        var k :| d == k * e;
        MutualDivisors(d, e, j, k);
        assert n * d == m * d;
        ScaleLess(n, m, d);
        ScaleLess(m, n, d);
      }
    }
  }

  /** On one axis the comparison never raises and is a total order on reduced costs; across
      axes it raises. */
  lemma CoordinateComparison(a: CostCoordinate, b: CostCoordinate)
    requires a.Valid() && b.Valid()
    ensures CompareCostCoordinates(a, b).None? <==> a.axis != b.axis
    ensures CompareCostCoordinates(a, b) == Some(0) <==> a == b
    ensures a.axis == b.axis ==>
              CompareCostCoordinates(a, b).value == -CompareCostCoordinates(b, a).value
    ensures CompareCostCoordinates(a, b) == Some(-1) <==>
              a.axis == b.axis && a.numerator * b.denominator < b.numerator * a.denominator
  {
    if a.axis == b.axis { CrossZeroIsIdentity(a, b); }
  }

  lemma MutualDivisors(d: nat, e: nat, j: int, k: int)
    requires d > 0 && e > 0 && e == j * d && d == k * e
    ensures d == e
  {
    assert j > 0 by { if j <= 0 { NonPositive(j, d); } }
    assert k > 0 by { if k <= 0 { NonPositive(k, e); } }
    AtLeast(j, d);
    AtLeast(k, e);
  }

  lemma NonPositive(a: int, b: int)
    requires a <= 0 && b > 0
    ensures a * b <= 0
  {}

  lemma AtLeast(a: int, b: int)
    requires a >= 1 && b > 0
    ensures a * b >= b
  {
    Distribute(1, a - 1, b);
  }

  // ------------------------------------------------------------ vectors

  datatype CostVector = CostVector(coordinates: seq<CostCoordinate>) {
    predicate Valid() {
      && coordinates != []
      && (forall c :: c in coordinates ==> c.Valid())
      && forall i, j :: 0 <= i < j < |coordinates| ==> coordinates[i].axis.id < coordinates[j].axis.id
    }

    function AxisSignature(): seq<CostAxis> {
      seq(|coordinates|, i requires 0 <= i < |coordinates| => coordinates[i].axis)
    }
  }

  predicate SameAxes(l: CostVector, r: CostVector) { l.AxisSignature() == r.AxisSignature() }

  lemma SameAxesPointwise(l: CostVector, r: CostVector)
    ensures SameAxes(l, r) <==>
              |l.coordinates| == |r.coordinates|
              && forall i :: 0 <= i < |l.coordinates| ==> l.coordinates[i].axis == r.coordinates[i].axis
  {
    if SameAxes(l, r) {
      assert |l.AxisSignature()| == |r.AxisSignature()|;
      forall i | 0 <= i < |l.coordinates| ensures l.coordinates[i].axis == r.coordinates[i].axis {
        assert l.AxisSignature()[i] == r.AxisSignature()[i];
      }
    }
  }

  datatype CostRelation = LeftStrictlyBetter | RightStrictlyBetter | Equal | Incomparable

  /** `l` costs no more than `r` on any axis. */
  predicate NoWorse(l: CostVector, r: CostVector) {
    |l.coordinates| == |r.coordinates|
    && forall i :: 0 <= i < |l.coordinates| ==> Cross(l.coordinates[i], r.coordinates[i]) <= 0
  }

  predicate StrictlyBetter(l: CostVector, r: CostVector) { NoWorse(l, r) && !NoWorse(r, l) }

  function Directions(l: CostVector, r: CostVector): seq<int>
    requires |l.coordinates| == |r.coordinates|
    requires forall i :: 0 <= i < |l.coordinates| ==> l.coordinates[i].axis == r.coordinates[i].axis
  {
    seq(|l.coordinates|, i requires 0 <= i < |l.coordinates| =>
      CompareCostCoordinates(l.coordinates[i], r.coordinates[i]).value)
  }

  /** The exact Pareto relation; `None` is the error of comparing different axes. */
  function CompareCostVectors(l: CostVector, r: CostVector): Option<CostRelation> {
    if !SameAxes(l, r) then None
    else
      SameAxesPointwise(l, r);
      var directions := Directions(l, r);
      var leftNoWorse := forall d :: d in directions ==> d <= 0;
      var rightNoWorse := forall d :: d in directions ==> d >= 0;
      Some(if leftNoWorse && rightNoWorse then Equal
           else if leftNoWorse then LeftStrictlyBetter
           else if rightNoWorse then RightStrictlyBetter
           else Incomparable)
  }

  /** The verdict read off the two no-worse relations. */
  lemma RelationMeans(l: CostVector, r: CostVector)
    requires SameAxes(l, r)
    ensures CompareCostVectors(l, r).Some?
    ensures CompareCostVectors(l, r) == Some(Equal) <==> NoWorse(l, r) && NoWorse(r, l)
    ensures CompareCostVectors(l, r) == Some(LeftStrictlyBetter) <==> StrictlyBetter(l, r)
    ensures CompareCostVectors(l, r) == Some(RightStrictlyBetter) <==> StrictlyBetter(r, l)
    ensures CompareCostVectors(l, r) == Some(Incomparable) <==> !NoWorse(l, r) && !NoWorse(r, l)
  {
    SameAxesPointwise(l, r);
    var directions := Directions(l, r);
    forall i | 0 <= i < |l.coordinates|
      ensures directions[i] in directions
      ensures directions[i] == Cross(l.coordinates[i], r.coordinates[i]) == -Cross(r.coordinates[i], l.coordinates[i])
    {}
    assert (forall d :: d in directions ==> d <= 0) <==> NoWorse(l, r);
    assert (forall d :: d in directions ==> d >= 0) <==> NoWorse(r, l);
  }

  lemma NoWorseTransitive(a: CostVector, b: CostVector, c: CostVector)
    requires a.Valid() && b.Valid() && c.Valid() && NoWorse(a, b) && NoWorse(b, c)
    ensures NoWorse(a, c)
    ensures StrictlyBetter(a, b) || StrictlyBetter(b, c) ==> StrictlyBetter(a, c)
  {
    forall i | 0 <= i < |a.coordinates|
      ensures Cross(a.coordinates[i], c.coordinates[i]) <= 0
      ensures (Cross(a.coordinates[i], b.coordinates[i]) < 0 || Cross(b.coordinates[i], c.coordinates[i]) < 0) ==>
                Cross(a.coordinates[i], c.coordinates[i]) < 0
    {
      assert a.coordinates[i] in a.coordinates && b.coordinates[i] in b.coordinates
        && c.coordinates[i] in c.coordinates;
      CrossTransitive(a.coordinates[i], b.coordinates[i], c.coordinates[i]);
    }
    if !NoWorse(b, a) {
      var i :| 0 <= i < |a.coordinates| && Cross(b.coordinates[i], a.coordinates[i]) > 0;
      CrossFlips(a.coordinates[i], b.coordinates[i]);
      CrossFlips(a.coordinates[i], c.coordinates[i]);
    }
    if !NoWorse(c, b) {
      var i :| 0 <= i < |a.coordinates| && Cross(c.coordinates[i], b.coordinates[i]) > 0;
      CrossFlips(b.coordinates[i], c.coordinates[i]);
      CrossFlips(a.coordinates[i], c.coordinates[i]);
    }
  }

  /** The Pareto relation is a partial order: reflexive, transitive, and antisymmetric because
      reduced vectors that are equal in value are the same record. */
  lemma ParetoIsPartialOrder(a: CostVector, b: CostVector, c: CostVector)
    requires a.Valid() && b.Valid() && c.Valid() && SameAxes(a, b) && SameAxes(b, c)
    ensures NoWorse(a, a)
    ensures NoWorse(a, b) && NoWorse(b, c) ==> NoWorse(a, c)
    ensures CompareCostVectors(a, b) == Some(Equal) <==> a == b
  {
    if NoWorse(a, b) && NoWorse(b, c) { NoWorseTransitive(a, b, c); }
    RelationMeans(a, b);
    if NoWorse(a, b) && NoWorse(b, a) { MutualNoWorse(a, b); }
  }

  lemma MutualNoWorse(a: CostVector, b: CostVector)
    requires a.Valid() && b.Valid() && SameAxes(a, b) && NoWorse(a, b) && NoWorse(b, a)
    ensures a == b
  {
    SameAxesPointwise(a, b);
    forall i | 0 <= i < |a.coordinates| ensures a.coordinates[i] == b.coordinates[i] {
      assert a.coordinates[i] in a.coordinates && b.coordinates[i] in b.coordinates;
      CrossFlips(a.coordinates[i], b.coordinates[i]);
      CrossZeroIsIdentity(a.coordinates[i], b.coordinates[i]);
    }
    assert a.coordinates == b.coordinates;
  }

  // ------------------------------------------------------------ canonical point order

  datatype Point = Point(observationId: Id, costs: CostVector)

  function CompareLexicographically(l: seq<CostCoordinate>, r: seq<CostCoordinate>): int {
    if l == [] || r == [] then 0
    else if Cross(l[0], r[0]) != 0 then Cross(l[0], r[0])
    else CompareLexicographically(l[1..], r[1..])
  }

  function CompareIds(l: Id, r: Id): int { if l < r then -1 else if l > r then 1 else 0 }

  function ComparePoints(l: Point, r: Point): int {
    var byCost := CompareLexicographically(l.costs.coordinates, r.costs.coordinates);
    if byCost != 0 then byCost else CompareIds(l.observationId, r.observationId)
  }

  function PointOrder(): (Point, Point) -> bool { (l: Point, r: Point) => ComparePoints(l, r) <= 0 }

  /** Points whose cost vectors are well formed and lie on the given axes. */
  predicate OnAxes(points: seq<Point>, axes: seq<CostAxis>) {
    forall p :: p in points ==> p.costs.Valid() && p.costs.AxisSignature() == axes
  }

  lemma {:induction false} LexicographicFlips(l: seq<CostCoordinate>, r: seq<CostCoordinate>)
    ensures CompareLexicographically(l, r) == -CompareLexicographically(r, l)
  {
    if l != [] && r != [] {
      CrossFlips(l[0], r[0]);
      LexicographicFlips(l[1..], r[1..]);
    }
  }

  lemma {:induction false} LexicographicTransitive(a: seq<CostCoordinate>, b: seq<CostCoordinate>,
    c: seq<CostCoordinate>)
    requires |a| == |b| == |c|
    requires forall i :: 0 <= i < |a| ==> a[i].denominator > 0 && b[i].denominator > 0 && c[i].denominator > 0
    requires CompareLexicographically(a, b) <= 0 && CompareLexicographically(b, c) <= 0
    ensures CompareLexicographically(a, c) <= 0
    ensures CompareLexicographically(a, b) < 0 || CompareLexicographically(b, c) < 0 ==>
        CompareLexicographically(a, c) < 0
  {
    if a != [] {
      CrossTransitive(a[0], b[0], c[0]);
      if Cross(a[0], b[0]) == 0 && Cross(b[0], c[0]) == 0 {
        CrossFlips(a[0], b[0]);
        CrossFlips(b[0], c[0]);
        CrossTransitive(c[0], b[0], a[0]);
        CrossFlips(a[0], c[0]);
        LexicographicTransitive(a[1..], b[1..], c[1..]);
      }
    }
  }

  lemma {:induction false} LexicographicZero(l: seq<CostCoordinate>, r: seq<CostCoordinate>)
    requires |l| == |r| && CompareLexicographically(l, r) == 0
    requires forall i :: 0 <= i < |l| ==> l[i].Valid() && r[i].Valid() && l[i].axis == r[i].axis
    ensures l == r
  {
    if l != [] {
      CrossZeroIsIdentity(l[0], r[0]);
      LexicographicZero(l[1..], r[1..]);
      assert l == [l[0]] + l[1..] && r == [r[0]] + r[1..];
    }
  }

  /** On one set of axes the canonical comparison is a total order on points. */
  lemma PointOrderTotal(points: seq<Point>, axes: seq<CostAxis>)
    requires OnAxes(points, axes)
    ensures Preorders(PointOrder(), points) && Antisymmetric(PointOrder(), points)
  {
    var le := PointOrder();
    forall p, q | p in points && q in points
      ensures le(p, q) || le(q, p)
      ensures le(p, q) && le(q, p) ==> p == q
    {
      LexicographicFlips(p.costs.coordinates, q.costs.coordinates);
      if le(p, q) && le(q, p) { PointsIdentical(p, q); }
    }
    forall p, q, r | p in points && q in points && r in points && le(p, q) && le(q, r) ensures le(p, r) {
      PointsTransitive(p, q, r);
    }
  }

  lemma PointsIdentical(p: Point, q: Point)
    requires p.costs.Valid() && q.costs.Valid() && SameAxes(p.costs, q.costs)
    requires ComparePoints(p, q) <= 0 && ComparePoints(q, p) <= 0
    ensures p == q
  {
    var l, r := p.costs.coordinates, q.costs.coordinates;
    SameAxesPointwise(p.costs, q.costs);
    LexicographicFlips(l, r);
    forall i | 0 <= i < |l| ensures l[i].Valid() && r[i].Valid() {
      assert l[i] in l && r[i] in r;
    }
    LexicographicZero(l, r);
  }

  lemma PointsTransitive(p: Point, q: Point, r: Point)
    requires p.costs.Valid() && q.costs.Valid() && r.costs.Valid()
    requires SameAxes(p.costs, q.costs) && SameAxes(q.costs, r.costs)
    requires ComparePoints(p, q) <= 0 && ComparePoints(q, r) <= 0
    ensures ComparePoints(p, r) <= 0
  {
    var a, b, c := p.costs.coordinates, q.costs.coordinates, r.costs.coordinates;
    SameAxesPointwise(p.costs, q.costs);
    SameAxesPointwise(q.costs, r.costs);
    forall i | 0 <= i < |a| ensures a[i].denominator > 0 && b[i].denominator > 0 && c[i].denominator > 0 {
      assert a[i] in a && b[i] in b && c[i] in c;
    }
    LexicographicTransitive(a, b, c);
  }
}
