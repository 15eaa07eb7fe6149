/** Finite route graphs: the two breadth-first worklists that enumerate simple routes and
    maximal acyclic executions, and the verdicts drawn from them. */
module Routes {
  import opened Sequences

  /** A node name. Only equality and the total order used for sorting matter. */
  type Node = int
  type Path = seq<Node>

  datatype Graph = Graph(nodes: seq<Node>, edges: seq<(Node, Node)>, start: Node, goal: Node) {
    predicate Valid() {
      && Distinct(nodes)
      && start in nodes && goal in nodes
      && (forall e :: e in edges ==> e.0 in nodes && e.1 in nodes)
      && Distinct(edges)
    }
  }

  predicate Walk(g: Graph, w: Path) {
    w != [] && forall i :: 0 <= i < |w| - 1 ==> (w[i], w[i+1]) in g.edges
  }

  /** A walk from start to goal; nodes may repeat and the goal may be passed through. */
  predicate WalkToGoal(g: Graph, w: Path) {
    Walk(g, w) && w[0] == g.start && w[|w|-1] == g.goal
  }

  predicate SimplePath(g: Graph, p: Path) {
    Walk(g, p) && p[0] == g.start && Distinct(p)
  }

  predicate SimpleRoute(g: Graph, p: Path) {
    SimplePath(g, p) && p[|p|-1] == g.goal
  }

  predicate Inextensible(g: Graph, p: Path) {
    SimplePath(g, p) && forall e :: e in g.edges && e.0 == p[|p|-1] ==> e.1 in p
  }

  // ------------------------------------------------------------ adjacency lists

  function Targets(edges: seq<(Node, Node)>, n: Node): seq<Node> {
    if edges == [] then []
    else
      var last := edges[|edges|-1];
      Targets(edges[..|edges|-1], n) + if last.0 == n then [last.1] else []
  }

  function Ascending(): (Node, Node) -> bool { (a: Node, b: Node) => a <= b }

  function Successors(g: Graph, n: Node): seq<Node> {
    SortBy(Targets(g.edges, n), Ascending())
  }

  lemma {:induction false} TargetsExact(edges: seq<(Node, Node)>, n: Node)
    ensures forall t :: t in Targets(edges, n) <==> (n, t) in edges
    ensures Distinct(edges) ==> Distinct(Targets(edges, n))
  {
    if edges != [] {
      TargetsExact(edges[..|edges|-1], n);
      var last := edges[|edges|-1];
      assert edges == edges[..|edges|-1] + [last];
    }
  }

  /** Sorted adjacency lists name each outgoing edge exactly once. */
  lemma SuccessorsExact(g: Graph, n: Node)
    requires g.Valid()
    ensures forall t :: t in Successors(g, n) <==> (n, t) in g.edges
    ensures Distinct(Successors(g, n))
  {
    var targets := Targets(g.edges, n);
    TargetsExact(g.edges, n);
    SortPermutes(targets, Ascending());
    DistinctMultiset(targets, SortBy(targets, Ascending()));
    MultisetMembers(targets, SortBy(targets, Ascending()));
  }

  method BuildAdjacency(g: Graph) returns (adjacency: map<Node, seq<Node>>)
    requires g.Valid()
    ensures adjacency.Keys == Elements(g.nodes)
    ensures forall n :: n in g.nodes ==> adjacency[n] == Successors(g, n)
  {
    adjacency := map n | n in g.nodes :: [];
    for i := 0 to |g.edges|
      invariant adjacency.Keys == Elements(g.nodes)
      invariant forall n :: n in g.nodes ==> adjacency[n] == Targets(g.edges[..i], n)
    {
      var (source, target) := g.edges[i];
      assert g.edges[i] in g.edges;
      assert g.edges[..i+1][..i] == g.edges[..i];
      adjacency := adjacency[source := adjacency[source] + [target]];
    }
    assert g.edges[..|g.edges|] == g.edges;
    adjacency := map n | n in adjacency :: SortBy(adjacency[n], Ascending());
  }

  // ------------------------------------------------------------ one worklist step

  /** The one-node extensions of `path` by successors it has not visited. */
  function Extensions(path: Path, successors: seq<Node>): seq<Path> {
    if successors == [] then []
    else
      var last := successors[|successors|-1];
      Extensions(path, successors[..|successors|-1]) + if last in path then [] else [path + [last]]
  }

  lemma {:induction false} ExtensionsExact(path: Path, successors: seq<Node>)
    ensures forall q :: q in Extensions(path, successors)
              ==> |q| == |path| + 1 && q[..|path|] == path && q[|path|] in successors && q[|path|] !in path
    ensures forall n :: n in successors && n !in path ==> path + [n] in Extensions(path, successors)
    ensures Distinct(successors) ==> Distinct(Extensions(path, successors))
    ensures |Extensions(path, successors)| <= |successors|
  {
    if successors != [] {
      var front, last := successors[..|successors|-1], successors[|successors|-1];
      ExtensionsExact(path, front);
      assert successors == front + [last];
    }
  }

  /** All one-node simple extensions of a path, in sorted successor order. */
  function Expand(g: Graph, p: Path): seq<Path> {
    if p == [] then [] else Extensions(p, Successors(g, p[|p|-1]))
  }

  lemma ExpandExact(g: Graph, p: Path)
    requires g.Valid() && SimplePath(g, p)
    ensures forall q :: q in Expand(g, p)
              ==> SimplePath(g, q) && |q| == |p| + 1 && q[..|p|] == p
    ensures forall n :: (p[|p|-1], n) in g.edges && n !in p ==> p + [n] in Expand(g, p)
    ensures Distinct(Expand(g, p)) && |Expand(g, p)| <= |g.nodes|
  {
    hide Extensions, Successors;
    var successors := Successors(g, p[|p|-1]);
    ExtensionsExact(p, successors);
    SuccessorsExact(g, p[|p|-1]);
    SuccessorsBounded(g, p[|p|-1]);
    forall q | q in Expand(g, p) ensures SimplePath(g, q) {
      var n := q[|p|];
      assert q == p + [n] && (p[|p|-1], n) in g.edges;
      forall i | 0 <= i < |q| - 1 ensures (q[i], q[i+1]) in g.edges {
        assert i < |p| - 1 ==> (p[i], p[i+1]) in g.edges;
      }
    }
  }

  lemma ExpandHas(g: Graph, p: Path, n: Node)
    requires g.Valid() && p != [] && (p[|p|-1], n) in g.edges && n !in p
    ensures p + [n] in Expand(g, p)
  {
    SuccessorsExact(g, p[|p|-1]);
    ExtensionsExact(p, Successors(g, p[|p|-1]));
  }

  lemma SuccessorsBounded(g: Graph, n: Node)
    requires g.Valid()
    ensures |Successors(g, n)| <= |g.nodes|
  {
    SuccessorsExact(g, n);
    forall t | t in Successors(g, n) ensures t in Elements(g.nodes) { assert (n, t) in g.edges; }
    DistinctBounded(Successors(g, n), Elements(g.nodes));
    DistinctCardinality(g.nodes);
  }

  /** The two enumerations differ only in when a dequeued path is finished. */
  datatype Mode = ToGoal | Maximal

  predicate Halts(g: Graph, mode: Mode, p: Path)
    requires p != []
  {
    match mode
    case ToGoal => p[|p|-1] == g.goal
    case Maximal => Expand(g, p) == []
  }

  /** Paths the worklist may hold: simple, with no finished proper prefix. */
  ghost predicate Live(g: Graph, mode: Mode, p: Path) {
    SimplePath(g, p) && forall k :: 0 < k < |p| ==> !Halts(g, mode, p[..k])
  }

  ghost predicate Finished(g: Graph, mode: Mode, p: Path) {
    Live(g, mode, p) && Halts(g, mode, p)
  }

  ghost predicate PrefixFree(s: seq<Path>) {
    forall i, j :: 0 <= i < |s| && 0 <= j < |s| && i != j ==> !(s[i] <= s[j])
  }

  ghost predicate Covered(g: Graph, mode: Mode, queue: seq<Path>, out: seq<Path>) {
    forall p :: Finished(g, mode, p) ==> p in out || exists k :: 0 < k <= |p| && p[..k] in queue
  }

  ghost predicate LengthOrdered(s: seq<Path>) {
    forall i, j :: 0 <= i < j < |s| ==> |s[i]| <= |s[j]|
  }

  /** The breadth-first invariant: nothing lost, nothing twice, shortest first. */
  ghost predicate Enumerating(g: Graph, mode: Mode, queue: seq<Path>, out: seq<Path>) {
    && (forall p :: p in queue ==> Live(g, mode, p))
    && (forall p :: p in out ==> Finished(g, mode, p))
    && Covered(g, mode, queue, out)
    && PrefixFree(out + queue)
    && LengthOrdered(out + queue)
    && (forall p, q :: p in queue && q in queue ==> |q| <= |p| + 1)
  }

  lemma EnumerationStarts(g: Graph, mode: Mode)
    requires g.Valid()
    ensures Enumerating(g, mode, [[g.start]], [])
  {
    forall p | Finished(g, mode, p) ensures exists k :: 0 < k <= |p| && p[..k] in [[g.start]] {
      assert p[..1] == [g.start];
    }
  }

  lemma FinishStep(g: Graph, mode: Mode, queue: seq<Path>, out: seq<Path>)
    requires queue != [] && Enumerating(g, mode, queue, out)
    requires Halts(g, mode, queue[0])
    ensures Enumerating(g, mode, queue[1..], out + [queue[0]])
  {
    hide Halts;
    var p := queue[0];
    assert (out + [p]) + queue[1..] == out + queue;
    forall q | Finished(g, mode, q)
      ensures q in out + [p] || exists k :: 0 < k <= |q| && q[..k] in queue[1..]
    {
      if q !in out {
        var k :| 0 < k <= |q| && q[..k] in queue;
        if q[..k] == p {
          assert Halts(g, mode, q[..k]);
          assert q == p;
        } else {
          assert q[..k] in queue[1..];
        }
      }
    }
  }

  lemma ExpandLive(g: Graph, mode: Mode, p: Path, q: Path)
    requires g.Valid() && Live(g, mode, p) && !Halts(g, mode, p)
    requires q in Expand(g, p)
    ensures Live(g, mode, q)
  {
    ExpandExact(g, p);
    forall k | 0 < k < |q| ensures !Halts(g, mode, q[..k]) {
      if k == |p| { assert q[..k] == p; } else { assert q[..k] == p[..k]; }
    }
  }

  lemma ExpandCovered(g: Graph, mode: Mode, queue: seq<Path>, out: seq<Path>)
    requires g.Valid() && queue != [] && SimplePath(g, queue[0])
    requires Covered(g, mode, queue, out) && !Halts(g, mode, queue[0])
    ensures Covered(g, mode, queue[1..] + Expand(g, queue[0]), out)
  {
    hide Halts, Expand;
    var p, more := queue[0], Expand(g, queue[0]);
    ExpandExact(g, p);
    forall q | Finished(g, mode, q) && q !in out
      ensures exists k :: 0 < k <= |q| && q[..k] in queue[1..] + more
    {
      var k :| 0 < k <= |q| && q[..k] in queue;
      if q[..k] == p {
        assert k == |q| ==> q == p;
        assert (q[k-1], q[k]) in g.edges && q[k-1] == p[|p|-1];
        assert forall i :: 0 <= i < |p| ==> p[i] == q[i];
        ExpandHas(g, p, q[k]);
        assert q[..k+1] == p + [q[k]];
        assert q[..k+1] in queue[1..] + more;
      } else {
        assert q[..k] in queue[1..];
      }
    }
  }

  lemma ComparablePrefixes(a: Path, b: Path, p: Path)
    ensures a <= b && |b| == |p| + 1 && b[..|p|] == p ==> a <= p || p <= a
    ensures a <= b && p <= a ==> p <= b
    ensures a <= b && |a| == |b| ==> a == b
  {
    if a <= b && |b| == |p| + 1 && b[..|p|] == p && |a| <= |p| {
      assert p[..|a|] == b[..|a|];
    }
  }

  lemma ExpandPrefixFree(out: seq<Path>, queue: seq<Path>, more: seq<Path>)
    requires queue != [] && PrefixFree(out + queue) && Distinct(more)
    requires forall q :: q in more ==> |q| == |queue[0]| + 1 && q[..|queue[0]|] == queue[0]
    ensures PrefixFree(out + (queue[1..] + more))
  {
    var p := queue[0];
    var old', new' := out + queue, out + (queue[1..] + more);
    var kept := |out| + |queue| - 1;
    forall i, j | 0 <= i < |new'| && 0 <= j < |new'| && i != j ensures !(new'[i] <= new'[j]) {
      var a := if i < |out| then i else i + 1;
      var b := if j < |out| then j else j + 1;
      assert i < kept ==> new'[i] == old'[a] && a != |out|;
      assert j < kept ==> new'[j] == old'[b] && b != |out|;
      assert old'[|out|] == p;
      if i < kept && j >= kept {
        assert new'[j] in more;
        ComparablePrefixes(new'[i], new'[j], p);
      } else if i >= kept && j < kept {
        assert new'[i] in more;
        ComparablePrefixes(new'[i], new'[j], p);
      } else if i >= kept && j >= kept {
        assert new'[i] in more && new'[j] in more;
        assert new'[i] == more[i - kept] && new'[j] == more[j - kept];
        ComparablePrefixes(new'[i], new'[j], p);
      }
    }
  }

  lemma ExpandLengths(g: Graph, mode: Mode, queue: seq<Path>, out: seq<Path>, more: seq<Path>)
    requires queue != [] && Enumerating(g, mode, queue, out)
    requires forall q :: q in more ==> |q| == |queue[0]| + 1
    ensures LengthOrdered(out + (queue[1..] + more))
    ensures forall p, q :: p in queue[1..] + more && q in queue[1..] + more ==> |q| <= |p| + 1
  {
    var all, next := out + queue, queue[1..] + more;
    var new' := out + next;
    assert all[|out|] == queue[0];
    forall i | 0 <= i < |new'| ensures i < |out| ==> |new'[i]| <= |queue[0]|
      ensures i >= |out| ==> |queue[0]| <= |new'[i]| <= |queue[0]| + 1
    {
      if i < |out| {
        assert new'[i] == all[i];
      } else if i < |all| - 1 {
        assert new'[i] == all[i+1] && all[i+1] == queue[i+1-|out|];
      } else {
        assert new'[i] in more;
      }
    }
    forall i, j | 0 <= i < j < |new'| ensures |new'[i]| <= |new'[j]| {
      if i >= |out| && j < |all| - 1 {
        assert new'[i] == all[i+1] && new'[j] == all[j+1];
      } else if j >= |all| - 1 {
        assert new'[j] in more;
      } else if i < |out| && j < |out| {
        assert new'[i] == all[i] && new'[j] == all[j];
      }
    }
    forall p, q | p in next && q in next ensures |q| <= |p| + 1 {
      var i :| 0 <= i < |next| && next[i] == p;
      var j :| 0 <= j < |next| && next[j] == q;
      assert new'[|out| + i] == p && new'[|out| + j] == q;
    }
  }

  lemma ExpandStep(g: Graph, mode: Mode, queue: seq<Path>, out: seq<Path>)
    requires g.Valid() && queue != [] && Enumerating(g, mode, queue, out)
    requires !Halts(g, mode, queue[0])
    ensures Enumerating(g, mode, queue[1..] + Expand(g, queue[0]), out)
  {
    var p, more := queue[0], Expand(g, queue[0]);
    assert p in queue;
    ExpandExact(g, p);
    ExpandCovered(g, mode, queue, out);
    ExpandPrefixFree(out, queue, more);
    ExpandLengths(g, mode, queue, out, more);
    forall q | q in queue[1..] + more ensures Live(g, mode, q) {
      if q in more { ExpandLive(g, mode, p, q); }
    }
  }

  // ------------------------------------------------------------ shortlex order

  /** First difference decides; only used between paths of one length. */
  predicate LexLess(a: Path, b: Path) {
    a != [] && b != [] && (a[0] < b[0] || (a[0] == b[0] && LexLess(a[1..], b[1..])))
  }

  predicate ShortLexLess(a: Path, b: Path) {
    |a| < |b| || (|a| == |b| && LexLess(a, b))
  }

  /** Shorter paths first, and within one length in lexicographic order. */
  ghost predicate ShortLexOrdered(s: seq<Path>) {
    forall i, j :: 0 <= i < j < |s| ==> ShortLexLess(s[i], s[j])
  }

  lemma {:induction false} LexTransitive(a: Path, b: Path, c: Path)
    requires LexLess(a, b) && LexLess(b, c)
    ensures LexLess(a, c)
  {
    if a[0] == b[0] && b[0] == c[0] { LexTransitive(a[1..], b[1..], c[1..]); }
  }

  lemma {:induction false} LexTotal(a: Path, b: Path)
    requires |a| == |b|
    ensures a == b || LexLess(a, b) || LexLess(b, a)
    ensures !(LexLess(a, b) && LexLess(b, a)) && !LexLess(a, a)
  {
    if a != [] {
      LexTotal(a[1..], b[1..]);
      assert a == [a[0]] + a[1..] && b == [b[0]] + b[1..];
    }
  }

  lemma {:induction false} LexExtends(a: Path, b: Path, m: Node, n: Node)
    requires |a| == |b| && (LexLess(a, b) || (a == b && m < n))
    ensures LexLess(a + [m], b + [n])
  {
    if a != [] {
      assert (a + [m])[1..] == a[1..] + [m] && (b + [n])[1..] == b[1..] + [n];
      if a[0] == b[0] { LexExtends(a[1..], b[1..], m, n); }
    }
  }

  lemma SuccessorsAscend(g: Graph, n: Node, i: nat, j: nat)
    requires g.Valid() && i < j < |Successors(g, n)|
    ensures Successors(g, n)[i] < Successors(g, n)[j]
  {
    var s := Successors(g, n);
    SuccessorsExact(g, n);
    SortSorts(Targets(g.edges, n), Ascending());
    assert Ascending()(s[i], s[j]) && s[i] != s[j];
  }

  lemma ChildrenAscend(path: Path, m: Node, n: Node)
    requires m < n
    ensures ShortLexLess(path + [m], path + [n])
  {
    LexExtends(path, path, m, n);
  }

  lemma {:induction false} ExtensionsAscend(path: Path, successors: seq<Node>)
    requires forall i, j :: 0 <= i < j < |successors| ==> successors[i] < successors[j]
    ensures ShortLexOrdered(Extensions(path, successors))
  {
    hide ShortLexLess;
    if successors != [] {
      var front, last := successors[..|successors|-1], successors[|successors|-1];
      ExtensionsAscend(path, front);
      ExtensionsExact(path, front);
      var rest, all := Extensions(path, front), Extensions(path, successors);
      forall i, j | 0 <= i < j < |all| ensures ShortLexLess(all[i], all[j]) {
        assert i < |rest| && all[i] == rest[i];
        if j < |rest| {
          assert all[j] == rest[j];
        } else {
          var n := rest[i][|path|];
          assert rest[i] in rest && n in front && rest[i] == path + [n];
          ChildrenAscend(path, n, last);
        }
      }
    }
  }

  lemma ExpandAscends(g: Graph, p: Path)
    requires g.Valid() && p != []
    ensures ShortLexOrdered(Expand(g, p))
  {
    var successors := Successors(g, p[|p|-1]);
    forall i, j | 0 <= i < j < |successors| ensures successors[i] < successors[j] {
      SuccessorsAscend(g, p[|p|-1], i, j);
    }
    ExtensionsAscend(p, successors);
  }

  /** A longer queued path extends one that was dequeued before the head. */
  ghost predicate ParentsBefore(queue: seq<Path>) {
    forall q :: q in queue && |q| == |queue[0]| + 1 ==> LexLess(q[..|queue[0]|], queue[0])
  }

  /** Finished and waiting paths together are in shortlex order, and stay so. */
  ghost predicate Ranked(queue: seq<Path>, out: seq<Path>) {
    ShortLexOrdered(out + queue) && (queue != [] ==> ParentsBefore(queue))
  }

  /** Dropping the head: the next head is later in the order, so its longer rivals still precede it. */
  lemma NextHead(queue: seq<Path>, out: seq<Path>)
    requires |queue| > 1 && Ranked(queue, out)
    requires forall p, q :: p in queue && q in queue ==> |q| <= |p| + 1
    ensures ParentsBefore(queue[1..]) && ShortLexLess(queue[0], queue[1])
  {
    var p, h, rest := queue[0], queue[1], queue[1..];
    assert (out + queue)[|out|] == p && (out + queue)[|out| + 1] == h;
    forall q | q in rest && |q| == |h| + 1 ensures LexLess(q[..|h|], h) {
      assert q in queue && p in queue && h in queue;
      LexTransitive(q[..|h|], p, h);
    }
  }

  lemma RankFinish(queue: seq<Path>, out: seq<Path>)
    requires queue != [] && Ranked(queue, out)
    requires forall p, q :: p in queue && q in queue ==> |q| <= |p| + 1
    ensures Ranked(queue[1..], out + [queue[0]])
  {
    assert (out + [queue[0]]) + queue[1..] == out + queue;
    if |queue| > 1 { NextHead(queue, out); }
  }

  /** A path already waiting precedes the head's extensions. */
  lemma WaitingPrecedes(queue: seq<Path>, out: seq<Path>, k: nat, child: Path)
    requires queue != [] && Ranked(queue, out) && k < |out| + |queue| && k != |out|
    requires forall q :: q in queue ==> |q| <= |queue[0]| + 1
    requires |child| == |queue[0]| + 1 && child[..|queue[0]|] == queue[0]
    ensures ShortLexLess((out + queue)[k], child)
  {
    var all, p := out + queue, queue[0];
    assert all[|out|] == p;
    if k > |out| {
      var q := all[k];
      assert q == queue[k - |out|] && q in queue;
      if |q| == |p| + 1 {
        LexExtends(q[..|p|], p, q[|p|], child[|p|]);
        assert q == q[..|p|] + [q[|p|]] && child == p + [child[|p|]];
      }
    }
  }

  lemma RankExpand(g: Graph, queue: seq<Path>, out: seq<Path>)
    requires g.Valid() && queue != [] && Ranked(queue, out) && SimplePath(g, queue[0])
    requires forall p, q :: p in queue && q in queue ==> |q| <= |p| + 1
    ensures Ranked(queue[1..] + Expand(g, queue[0]), out)
  {
    hide Expand, LexLess, SimplePath;
    var p, more := queue[0], Expand(g, queue[0]);
    HeadExpands(g, p);
    var old', next := out + queue, queue[1..] + more;
    var all, kept := out + next, |out| + |queue| - 1;
    forall i, j | 0 <= i < j < |all| ensures ShortLexLess(all[i], all[j]) {
      var a := if i < |out| then i else i + 1;
      var b := if j < |out| then j else j + 1;
      assert i < kept ==> all[i] == old'[a] && a != |out|;
      assert j < kept ==> all[j] == old'[b];
      assert i >= kept ==> all[i] == more[i - kept];
      assert j >= kept ==> all[j] == more[j - kept] && all[j] in more;
      if i < kept && j >= kept { WaitingPrecedes(queue, out, a, all[j]); }
    }
    if next != [] { HeadAfterExpand(queue, out, more); }
  }

  lemma HeadExpands(g: Graph, p: Path)
    requires g.Valid() && SimplePath(g, p)
    ensures ShortLexOrdered(Expand(g, p))
    ensures forall q :: q in Expand(g, p) ==> |q| == |p| + 1 && q[..|p|] == p
  {
    ExpandExact(g, p);
    ExpandAscends(g, p);
  }

  lemma HeadAfterExpand(queue: seq<Path>, out: seq<Path>, more: seq<Path>)
    requires queue != [] && Ranked(queue, out) && queue[1..] + more != []
    requires forall p, q :: p in queue && q in queue ==> |q| <= |p| + 1
    requires forall q :: q in more ==> |q| == |queue[0]| + 1 && q[..|queue[0]|] == queue[0]
    ensures ParentsBefore(queue[1..] + more)
  {
    var p, next := queue[0], queue[1..] + more;
    if |queue| > 1 {
      NextHead(queue, out);
      var h := queue[1];
      assert next[0] == h && h in queue && queue[1..][0] == h;
      forall q | q in next && |q| == |h| + 1 ensures LexLess(q[..|h|], h) {
        if q in more { assert |h| == |p|; }
      }
    } else {
      assert next[0] in more;
    }
  }

  /** Strictly ordered lists of the same paths are the same list. */
  lemma OrderDetermines(a: seq<Path>, b: seq<Path>)
    requires ShortLexOrdered(a) && ShortLexOrdered(b) && forall p :: p in a <==> p in b
    ensures a == b
  {
    hide LexLess;
    var le := (p: Path, q: Path) => p == q || ShortLexLess(p, q);
    forall p: Path ensures p in Elements(a) <==> p in Elements(b) {}
    OrderedDistinct(a);
    OrderedDistinct(b);
    SameMembersPermute(a, b);
    ShortLexPreorders(a, le);
    SortedUnique(a, b, le);
  }

  lemma OrderedDistinct(s: seq<Path>)
    requires ShortLexOrdered(s)
    ensures Distinct(s)
  {
    hide LexLess;
    forall i, j | 0 <= i < j < |s| ensures s[i] != s[j] {
      assert ShortLexLess(s[i], s[j]);
      LexTotal(s[i], s[i]);
    }
  }

  lemma ShortLexPreorders(s: seq<Path>, le: (Path, Path) -> bool)
    requires forall p, q :: le(p, q) <==> p == q || ShortLexLess(p, q)
    ensures Preorders(le, s) && Antisymmetric(le, s)
  {
    hide LexLess;
    forall p, q ensures (le(p, q) || le(q, p)) && (le(p, q) && le(q, p) ==> p == q) {
      if |p| == |q| { LexTotal(p, q); }
    }
    forall p, q, r | le(p, q) && le(q, r) ensures le(p, r) {
      if LexLess(p, q) && LexLess(q, r) { LexTransitive(p, q, r); }
    }
  }

  // ------------------------------------------------------------ termination measure

  function Pow(b: nat, e: nat): nat { if e == 0 then 1 else b * Pow(b, e - 1) }

  /** Each queued path weighs (n+1)^(n - length), more than all its extensions together. */
  function Weight(n: nat, queue: seq<Path>): nat {
    if queue == [] then 0
    else (if |queue[0]| <= n then Pow(n + 1, n - |queue[0]|) else 0) + Weight(n, queue[1..])
  }

  lemma {:induction false} WeightAppend(n: nat, a: seq<Path>, b: seq<Path>)
    ensures Weight(n, a + b) == Weight(n, a) + Weight(n, b)
  {
    if a == [] {
      assert a + b == b;
    } else {
      WeightAppend(n, a[1..], b);
      assert (a + b)[1..] == a[1..] + b;
    }
  }

  lemma OneMoreUnit(count: nat, unit: nat)
    requires count > 0
    ensures count * unit == unit + (count - 1) * unit
  {}

  lemma {:induction false} WeightUniform(n: nat, s: seq<Path>, length: nat)
    requires length <= n && forall p :: p in s ==> |p| == length
    ensures Weight(n, s) == |s| * Pow(n + 1, n - length)
  {
    if s != [] {
      var unit := Pow(n + 1, n - length);
      assert s[0] in s;
      WeightUniform(n, s[1..], length);
      OneMoreUnit(|s|, unit);
    }
  }

  lemma {:induction false} PowPositive(b: nat, e: nat)
    requires b > 0
    ensures Pow(b, e) > 0
  {
    if e > 0 { PowPositive(b, e - 1); }
  }

  lemma SimplePathBounded(g: Graph, p: Path)
    requires g.Valid() && SimplePath(g, p)
    ensures |p| <= |g.nodes|
  {
    forall x | x in p ensures x in Elements(g.nodes) {
      var i :| 0 <= i < |p| && p[i] == x;
      if i > 0 { assert (p[i-1], p[i]) in g.edges; }
    }
    DistinctBounded(p, Elements(g.nodes));
    DistinctCardinality(g.nodes);
  }

  /** Replacing a dequeued path by its extensions lowers the measure. */
  lemma WeightFalls(g: Graph, queue: seq<Path>)
    requires g.Valid() && queue != [] && SimplePath(g, queue[0])
    ensures Weight(|g.nodes|, queue[1..] + Expand(g, queue[0]))
              < Weight(|g.nodes|, queue)
    ensures Weight(|g.nodes|, queue[1..]) < Weight(|g.nodes|, queue)
  {
    SimplePathBounded(g, queue[0]);
    ExpandExact(g, queue[0]);
    var more := Expand(g, queue[0]);
    if more != [] {
      assert more[0] in more;
      SimplePathBounded(g, more[0]);
    }
    QueueLighter(|g.nodes|, queue, more);
  }

  lemma QueueLighter(n: nat, queue: seq<Path>, more: seq<Path>)
    requires queue != [] && |queue[0]| <= n && |more| <= n
    requires more != [] ==> |queue[0]| < n
    requires forall q :: q in more ==> |q| == |queue[0]| + 1
    ensures Weight(n, queue[1..] + more) < Weight(n, queue)
    ensures Weight(n, queue[1..]) < Weight(n, queue)
  {
    PowPositive(n + 1, n - |queue[0]|);
    WeightAppend(n, queue[1..], more);
    if more != [] {
      ExtensionsLighter(n, more, |queue[0]|);
    }
  }

  lemma ExtensionsLighter(n: nat, more: seq<Path>, length: nat)
    requires length < n && |more| <= n && forall q :: q in more ==> |q| == length + 1
    ensures Weight(n, more) < Pow(n + 1, n - length)
  {
    WeightUniform(n, more, length + 1);
    PowPositive(n + 1, n - length - 1);
    MoreUnits(|more|, n, Pow(n + 1, n - length - 1));
  }

  lemma MoreUnits(count: nat, n: nat, unit: nat)
    requires count <= n && unit > 0
    ensures count * unit < (n + 1) * unit
  {
    assert (n + 1) * unit == count * unit + (n + 1 - count) * unit;
    ProductPositive(n + 1 - count, unit);
  }

  lemma ProductPositive(a: nat, b: nat)
    requires a > 0 && b > 0
    ensures a * b > 0
  {}

  // ------------------------------------------------------------ the enumerations

  lemma FinishedIsRoute(g: Graph, p: Path)
    ensures Finished(g, ToGoal, p) <==> SimpleRoute(g, p)
  {
    if SimpleRoute(g, p) {
      forall k | 0 < k < |p| ensures !Halts(g, ToGoal, p[..k]) {
        assert p[..k][|p[..k]|-1] == p[k-1];
        assert p[k-1] != p[|p|-1];
      }
      assert Live(g, ToGoal, p) && Halts(g, ToGoal, p);
    }
    if Finished(g, ToGoal, p) {
      assert SimplePath(g, p) && Halts(g, ToGoal, p);
    }
  }

  lemma FinishedIsMaximal(g: Graph, p: Path)
    requires g.Valid()
    ensures Finished(g, Maximal, p) <==> Inextensible(g, p)
  {
    if SimplePath(g, p) {
      MaximalHalts(g, p);
      forall k | 0 < k < |p| ensures !Halts(g, Maximal, p[..k]) {
        assert (p[k-1], p[k]) in g.edges;
        assert SimplePath(g, p[..k]);
        MaximalHalts(g, p[..k]);
      }
    }
  }

  lemma MaximalHalts(g: Graph, p: Path)
    requires g.Valid() && SimplePath(g, p)
    ensures Halts(g, Maximal, p) <==> Inextensible(g, p)
  {
    var tail := p[|p|-1];
    ExpandExact(g, p);
    forall e | e in g.edges && e.0 == tail && e.1 !in p ensures Expand(g, p) != [] {
      assert e == (tail, e.1);
      ExpandHas(g, p, e.1);
    }
    if !Halts(g, Maximal, p) {
      var q := Expand(g, p)[0];
      assert q in Expand(g, p);
      assert (q[|p|-1], q[|p|]) in g.edges && q[|p|-1] == tail;
      assert forall i :: 0 <= i < |p| ==> p[i] == q[i];
    }
  }

  lemma EnumerationEnds(g: Graph, mode: Mode, out: seq<Path>)
    requires Enumerating(g, mode, [], out)
    ensures forall p :: p in out <==> Finished(g, mode, p)
    ensures Distinct(out) && LengthOrdered(out)
  {
    assert out + [] == out;
    forall i, j | 0 <= i < j < |out| ensures out[i] != out[j] {
      assert !(out[i] <= out[j]);
    }
  }

  /** The inner loop: append the unvisited successors of `path` to the queue. */
  method Enqueue(waiting: seq<Path>, path: Path, successors: seq<Node>) returns (queue: seq<Path>)
    ensures queue == waiting + Extensions(path, successors)
  {
    queue := waiting;
    for i := 0 to |successors|
      invariant queue == waiting + Extensions(path, successors[..i])
    {
      assert successors[..i+1][..i] == successors[..i];
      if successors[i] !in path {
        queue := queue + [path + [successors[i]]];
      }
    }
    assert successors[..|successors|] == successors;
  }

  /** What a loop turn needs from its invariants about the head of the queue. */
  lemma QueueHead(g: Graph, mode: Mode, queue: seq<Path>, out: seq<Path>)
    requires g.Valid() && queue != [] && Enumerating(g, mode, queue, out)
    ensures SimplePath(g, queue[0]) && queue[0][|queue[0]|-1] in g.nodes
    ensures forall p, q :: p in queue && q in queue ==> |q| <= |p| + 1
  {
    assert Live(g, mode, queue[0]);
    TailIsNode(g, queue[0]);
  }

  lemma RankStarts(g: Graph)
    ensures Ranked([[g.start]], [])
  {}

  lemma RankEnds(out: seq<Path>)
    requires Ranked([], out)
    ensures ShortLexOrdered(out)
  {
    assert out + [] == out;
  }

  method EnumerateSimpleRoutes(g: Graph) returns (routes: seq<Path>)
    requires g.Valid()
    ensures forall p :: p in routes <==> SimpleRoute(g, p)
    ensures ShortLexOrdered(routes)
  {
    hide Enumerating, Ranked, ShortLexOrdered, Weight, SimpleRoute, Finished;
    var adjacency := BuildAdjacency(g);
    var queue: seq<Path> := [[g.start]];
    routes := [];
    EnumerationStarts(g, ToGoal);
    RankStarts(g);
    while queue != []
      invariant Enumerating(g, ToGoal, queue, routes) && Ranked(queue, routes)
      decreases Weight(|g.nodes|, queue)
    {
      ghost var before := queue;
      QueueHead(g, ToGoal, before, routes);
      WeightFalls(g, before);
      var path := queue[0];
      queue := queue[1..];
      var tail := path[|path|-1];
      if tail == g.goal {
        FinishStep(g, ToGoal, before, routes);
        RankFinish(before, routes);
        routes := routes + [path];
      } else {
        queue := Enqueue(queue, path, adjacency[tail]);
        ExpandStep(g, ToGoal, before, routes);
        RankExpand(g, before, routes);
      }
    }
    EnumerationEnds(g, ToGoal, routes);
    RankEnds(routes);
    forall p ensures p in routes <==> SimpleRoute(g, p) { FinishedIsRoute(g, p); }
  }

  method EnumerateMaximalExecutions(g: Graph) returns (maximal: seq<Path>)
    requires g.Valid()
    ensures forall p :: p in maximal <==> Inextensible(g, p)
    ensures ShortLexOrdered(maximal)
  {
    hide Enumerating, Ranked, ShortLexOrdered, Weight, Inextensible, Finished;
    var adjacency := BuildAdjacency(g);
    var queue: seq<Path> := [[g.start]];
    maximal := [];
    EnumerationStarts(g, Maximal);
    RankStarts(g);
    while queue != []
      invariant Enumerating(g, Maximal, queue, maximal) && Ranked(queue, maximal)
      decreases Weight(|g.nodes|, queue)
    {
      ghost var before := queue;
      QueueHead(g, Maximal, before, maximal);
      WeightFalls(g, before);
      var path := queue[0];
      queue := queue[1..];
      var extensions := Extensions(path, adjacency[path[|path|-1]]);
      assert extensions == Expand(g, path);
      if extensions == [] {
        FinishStep(g, Maximal, before, maximal);
        RankFinish(before, maximal);
        maximal := maximal + [path];
      } else {
        queue := queue + extensions;
        ExpandStep(g, Maximal, before, maximal);
        RankExpand(g, before, maximal);
      }
    }
    EnumerationEnds(g, Maximal, maximal);
    RankEnds(maximal);
    forall p ensures p in maximal <==> Inextensible(g, p) { FinishedIsMaximal(g, p); }
  }

  lemma TailIsNode(g: Graph, p: Path)
    requires g.Valid() && SimplePath(g, p)
    ensures p[|p|-1] in g.nodes
  {
    if |p| > 1 { assert (p[|p|-2], p[|p|-1]) in g.edges; }
  }

  // ------------------------------------------------------------ verdicts over all walks

  /** Loop erasure: any walk contains a simple path with the same ends and no new node. */
  lemma {:induction false} EraseLoops(g: Graph, w: Path) returns (p: Path)
    requires Walk(g, w) && w[0] == g.start
    ensures SimplePath(g, p) && p[|p|-1] == w[|w|-1]
    ensures |p| <= |w| && forall x :: x in p ==> x in w
    ensures |p| == |w| ==> p == w
    decreases |w|
  {
    if Distinct(w) {
      p := w;
    } else {
      var i, j :| 0 <= i < j < |w| && w[i] == w[j];
      var shorter := w[..i] + w[j..];
      forall k | 0 <= k < |shorter| - 1 ensures (shorter[k], shorter[k+1]) in g.edges {
        if k + 1 < i {
          assert (w[k], w[k+1]) in g.edges;
        } else if k + 1 == i {
          assert (w[k], w[k+1]) in g.edges && w[i] == w[j];
        } else {
          assert (w[k - i + j], w[k - i + j + 1]) in g.edges;
        }
      }
      p := EraseLoops(g, shorter);
    }
  }

  /** Every simple path runs on to an inextensible one. */
  lemma {:induction false} ExtendFully(g: Graph, p: Path) returns (q: Path)
    requires g.Valid() && SimplePath(g, p)
    ensures Inextensible(g, q) && p <= q
    decreases |g.nodes| - |p|
  {
    SimplePathBounded(g, p);
    if Inextensible(g, p) {
      q := p;
    } else {
      var e :| e in g.edges && e.0 == p[|p|-1] && e.1 !in p;
      SimplePathBounded(g, p + [e.1]);
      q := ExtendFully(g, p + [e.1]);
      assert p <= p + [e.1] <= q;
    }
  }

  datatype Demonstration = Demonstration(
    routes: seq<Path>,
    maximalExecutions: seq<Path>,
    bypass: Option<Path>,
    mayReach: bool,
    mustReach: bool,
    mustPassPrerequisite: bool)

  predicate Avoids(w: Path, n: Node) { n !in w }

  function FirstAvoiding(routes: seq<Path>, n: Node): (r: Option<Path>)
    ensures r.None? <==> forall p :: p in routes ==> n in p
    ensures r.Some? ==> r.value in routes && Avoids(r.value, n)
  {
    if routes == [] then None
    else if n !in routes[0] then Some(routes[0])
    else FirstAvoiding(routes[1..], n)
  }

  /** In shortlex order the first route that avoids a node is the least one. */
  lemma {:induction false} FirstAvoidingLeast(routes: seq<Path>, n: Node, p: Path)
    requires ShortLexOrdered(routes) && p in routes && n !in p
    ensures FirstAvoiding(routes, n).Some?
    ensures FirstAvoiding(routes, n).value == p || ShortLexLess(FirstAvoiding(routes, n).value, p)
  {
    if n in routes[0] {
      assert p in routes[1..];
      FirstAvoidingLeast(routes[1..], n, p);
    } else if p != routes[0] {
      var i :| 0 <= i < |routes| && routes[i] == p;
    }
  }

  /** The verdict expressions, over an arbitrary graph and prerequisite. The finite
      enumeration decides statements about all walks, loops included. */
  method Demonstrate(g: Graph, prerequisite: Node) returns (d: Demonstration)
    requires g.Valid()
    ensures d.mayReach <==> exists w :: WalkToGoal(g, w)
    ensures d.mustPassPrerequisite <==>
              (exists w :: WalkToGoal(g, w)) && forall w :: WalkToGoal(g, w) ==> prerequisite in w
    ensures d.bypass.None? <==> forall w :: WalkToGoal(g, w) ==> prerequisite in w
    ensures d.bypass.Some? ==>
              && WalkToGoal(g, d.bypass.value) && Avoids(d.bypass.value, prerequisite)
              && forall w :: WalkToGoal(g, w) && Avoids(w, prerequisite) ==>
                   d.bypass.value == w || ShortLexLess(d.bypass.value, w)
    ensures d.mustReach <==> forall p :: Inextensible(g, p) ==> p[|p|-1] == g.goal
  {
    var routes := EnumerateSimpleRoutes(g);
    var maximal := EnumerateMaximalExecutions(g);
    d := Demonstration(
      routes, maximal, FirstAvoiding(routes, prerequisite),
      routes != [],
      maximal != [] && forall p :: p in maximal ==> p != [] && p[|p|-1] == g.goal,
      routes != [] && forall p :: p in routes ==> prerequisite in p);
    forall w | WalkToGoal(g, w)
      ensures routes != []
      ensures prerequisite !in w ==>
                d.bypass.Some? && (d.bypass.value == w || ShortLexLess(d.bypass.value, w))
                && exists p :: p in routes && prerequisite !in p
    {
      var p := EraseLoops(g, w);
      assert p in routes;
      if prerequisite !in w { FirstAvoidingLeast(routes, prerequisite, p); }
    }
    if routes != [] {
      assert routes[0] in routes;
      assert WalkToGoal(g, routes[0]);
    }
    forall p | p in routes ensures WalkToGoal(g, p) {}
    var longest := ExtendFully(g, [g.start]);
    assert longest in maximal;
  }

  lemma InextensibleIsWhole(g: Graph, p: Path, k: nat)
    requires SimplePath(g, p) && 0 < k <= |p|
    ensures Inextensible(g, p[..k]) ==> k == |p|
  {
    if k < |p| {
      assert (p[k-1], p[k]) in g.edges;
      assert p[k] !in p[..k];
    }
  }

  /** `must_reach` says more than that every maximal execution visits the goal: it also
      needs every route to the goal to be a dead end there. */
  lemma MustReachCondition(g: Graph)
    requires g.Valid()
    ensures (forall p :: Inextensible(g, p) ==> p[|p|-1] == g.goal)
       <==> (&& (forall p :: Inextensible(g, p) ==> g.goal in p)
             && (forall p :: SimpleRoute(g, p) ==> Inextensible(g, p)))
  {
    if forall p :: Inextensible(g, p) ==> p[|p|-1] == g.goal {
      forall p | SimpleRoute(g, p) ensures Inextensible(g, p) {
        var q := ExtendFully(g, p);
        assert q[|p|-1] == g.goal && q[|q|-1] == g.goal;
        assert p == q;
      }
    }
    if (forall p :: Inextensible(g, p) ==> g.goal in p) && forall p :: SimpleRoute(g, p) ==> Inextensible(g, p) {
      forall p | Inextensible(g, p) ensures p[|p|-1] == g.goal {
        var k :| 0 <= k < |p| && p[k] == g.goal;
        var r := p[..k+1];
        InextensibleIsWhole(g, p, k + 1);
        assert SimpleRoute(g, r);
      }
    }
  }

  /** When `must_reach` holds, the goal can still be reached from wherever any walk has got to. */
  lemma MustReachNeverStrands(g: Graph, w: Path) returns (onward: Path)
    requires g.Valid() && forall p :: Inextensible(g, p) ==> p[|p|-1] == g.goal
    requires Walk(g, w) && w[0] == g.start
    ensures Walk(g, onward) && onward[0] == w[|w|-1] && onward[|onward|-1] == g.goal
  {
    var p := EraseLoops(g, w);
    var q := ExtendFully(g, p);
    onward := q[|p|-1..];
    assert q[|p|-1] == p[|p|-1];
    forall i | 0 <= i < |onward| - 1 ensures (onward[i], onward[i+1]) in g.edges {
      assert (q[i + |p| - 1], q[i + |p|]) in g.edges;
    }
  }
}
