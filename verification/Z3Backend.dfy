/** Translation of the formula language to Bool/Int solver expressions, extraction of an
    assignment from a solver model, and the decision drawn from a solver's answer. */
module Z3Backend {
  import opened Sequences
  import opened FiniteLogic

  // ------------------------------------------------------------ target language

  datatype Variable = BoolVar(name: Name) | IntVar(name: Name)

  datatype Expr =
    | BoolVal(value: bool)
    | BoolRef(name: Name)
    | IntIs(name: Name, index: int)
    | NotX(operand: Expr)
    | AndX(operands: seq<Expr>)
    | OrX(operands: seq<Expr>)
    | ImpliesX(antecedent: Expr, consequent: Expr)
    | SameX(left: Expr, right: Expr)

  datatype Value = BoolValue(truth: bool) | IntValue(number: int)

  /** A solver model. It may leave variables out; reading one then completes the model. */
  type Model = map<Name, Value>

  function BoolOf(m: Model, n: Name): bool { n in m && m[n].BoolValue? && m[n].truth }
  function IntOf(m: Model, n: Name): int { if n in m && m[n].IntValue? then m[n].number else 0 }

  predicate Holds(e: Expr, m: Model)
    decreases e, 1
  {
    match e
    case BoolVal(b) => b
    case BoolRef(n) => BoolOf(m, n)
    case IntIs(n, k) => IntOf(m, n) == k
    case NotX(f) => !Holds(f, m)
    case AndX(es) => AllHold(es, m)
    case OrX(es) => AnyHolds(es, m)
    case ImpliesX(a, c) => Holds(a, m) ==> Holds(c, m)
    case SameX(l, r) => Holds(l, m) == Holds(r, m)
  }

  predicate AllHold(es: seq<Expr>, m: Model)
    decreases es, 0
  {
    es == [] || (Holds(es[0], m) && AllHold(es[1..], m))
  }

  predicate AnyHolds(es: seq<Expr>, m: Model)
    decreases es, 0
  {
    es != [] && (Holds(es[0], m) || AnyHolds(es[1..], m))
  }

  lemma {:induction false} AllHoldAppend(es: seq<Expr>, fs: seq<Expr>, m: Model)
    ensures AllHold(es + fs, m) <==> AllHold(es, m) && AllHold(fs, m)
  {
    if es == [] {
      assert es + fs == fs;
    } else {
      AllHoldAppend(es[1..], fs, m);
      assert (es + fs)[1..] == es[1..] + fs;
    }
  }

  // ------------------------------------------------------------ translation

  function IndexOf(values: seq<Scalar>, x: Scalar): (i: nat)
    requires x in values
    ensures i < |values| && values[i] == x
    ensures forall j :: 0 <= j < i ==> values[j] != x
  {
    if values[0] == x then 0 else IndexOf(values[1..], x) + 1
  }

  function TranslateNode(f: Formula, domains: seq<Domain>): Expr
    requires WellBound(f, domains)
    decreases f, 1
  {
    match f
    case BoolLiteral(b) => BoolVal(b)
    case Symbol(n) => BoolRef(n)
    case EnumEquals(s, v) =>
      var values := DomainOf(domains, s).value.values;
      if Enum(v) !in values then BoolVal(false) else IntIs(s, IndexOf(values, Enum(v)))
    case Not(g) => NotX(TranslateNode(g, domains))
    case And(fs) => AndX(TranslateAll(fs, domains))
    case Or(fs) => OrX(TranslateAll(fs, domains))
    case Implies(a, c) => ImpliesX(TranslateNode(a, domains), TranslateNode(c, domains))
    case Equivalence(l, r) => SameX(TranslateNode(l, domains), TranslateNode(r, domains))
  }

  function TranslateAll(fs: seq<Formula>, domains: seq<Domain>): seq<Expr>
    requires AllWellBound(fs, domains)
    decreases fs, 0
  {
    if fs == [] then [] else [TranslateNode(fs[0], domains)] + TranslateAll(fs[1..], domains)
  }

  function Indices(n: Name, count: nat): seq<Expr> {
    seq(count, i => IntIs(n, i))
  }

  /** The side constraints that pin a declared variable to its domain. */
  function Constraint(d: Domain): seq<Expr> {
    if d.IsBoolean() then
      if |d.values| == 1 then [if d.values[0].value then BoolRef(d.symbol) else NotX(BoolRef(d.symbol))] else []
    else [OrX(Indices(d.symbol, |d.values|))]
  }

  function Constraints(domains: seq<Domain>): seq<Expr> {
    if domains == [] then [] else Constraints(domains[..|domains|-1]) + Constraint(domains[|domains|-1])
  }

  function VariableOf(d: Domain): Variable {
    if d.IsBoolean() then BoolVar(d.symbol) else IntVar(d.symbol)
  }

  function Variables(domains: seq<Domain>): map<Name, Variable> {
    if domains == [] then map[]
    else var last := domains[|domains|-1]; Variables(domains[..|domains|-1])[last.symbol := VariableOf(last)]
  }

  datatype Translation = Translation(expression: Expr, constraints: seq<Expr>, variables: map<Name, Variable>)

  /** The translation loop; `None` is the refusal of an ill-bound formula. */
  method Translate(f: Formula, u: Universe) returns (t: Option<Translation>)
    requires u.Valid()
    ensures t.Some? <==> WellBound(f, u.domains)
    ensures t.Some? ==> t.value.expression == TranslateNode(f, u.domains)
    ensures t.Some? ==> t.value.constraints == Constraints(u.domains)
    ensures t.Some? ==> t.value.variables == Variables(u.domains)
  {
    if !WellBound(f, u.domains) { return None; }
    var variables: map<Name, Variable> := map[];
    var constraints: seq<Expr> := [];
    var ds := u.domains;
    for k := 0 to |ds|
      invariant constraints == Constraints(ds[..k])
      invariant variables == Variables(ds[..k])
    {
      var domain := ds[k];
      assert ds[..k+1][..k] == ds[..k] && ds[..k+1] == ds[..k] + [domain];
      if domain.IsBoolean() {
        variables := variables[domain.symbol := BoolVar(domain.symbol)];
        if |domain.values| == 1 {
          constraints := constraints + [if domain.values[0].value then BoolRef(domain.symbol)
            else NotX(BoolRef(domain.symbol))];
        }
      } else {
        variables := variables[domain.symbol := IntVar(domain.symbol)];
        constraints := constraints + [OrX(Indices(domain.symbol, |domain.values|))];
      }
    }
    assert ds[..|ds|] == ds;
    return Some(Translation(TranslateNode(f, ds), constraints, variables));
  }

  // ------------------------------------------------------------ extraction

  /** The value a model gives a declared symbol, if it lies in the domain's index range. */
  function Reading(d: Domain, m: Model): Option<Scalar> {
    if d.IsBoolean() then Some(Truth(BoolOf(m, d.symbol)))
    else if 0 <= IntOf(m, d.symbol) < |d.values| then Some(d.values[IntOf(m, d.symbol)])
    else None
  }

  function Extracted(domains: seq<Domain>, m: Model): Option<Assignment> {
    if domains == [] then Some([])
    else
      var last := domains[|domains|-1];
      match Extracted(domains[..|domains|-1], m)
      case None => None
      case Some(front) =>
        match Reading(last, m)
        case None => None
        case Some(v) => Some(front + [AssignmentValue(last.symbol, v)])
  }

  method ExtractAssignment(domains: seq<Domain>, m: Model) returns (a: Option<Assignment>)
    ensures a == Extracted(domains, m)
  {
    var values: Assignment := [];
    for k := 0 to |domains|
      invariant Extracted(domains[..k], m) == Some(values)
    {
      assert domains[..k+1][..k] == domains[..k];
      var reading := Reading(domains[k], m);
      if reading.None? {
        ExtractionFails(domains, m, k);
        return None;
      }
      values := values + [AssignmentValue(domains[k].symbol, reading.value)];
    }
    assert domains[..|domains|] == domains;
    return Some(values);
  }

  lemma {:induction false} ExtractionFails(domains: seq<Domain>, m: Model, k: nat)
    requires k < |domains| && Reading(domains[k], m).None?
    ensures Extracted(domains, m).None?
  {
    if k < |domains| - 1 { ExtractionFails(domains[..|domains|-1], m, k); }
  }

  lemma {:induction false} ExtractedExact(domains: seq<Domain>, m: Model)
    ensures Extracted(domains, m).Some? <==> forall i :: 0 <= i < |domains| ==> Reading(domains[i], m).Some?
    ensures Extracted(domains, m).Some? ==>
              var a := Extracted(domains, m).value;
              |a| == |domains|
              && forall i :: 0 <= i < |a| ==>
                  Some(a[i].value) == Reading(domains[i], m) && a[i].symbol == domains[i].symbol
  {
    if domains != [] {
      var front, last := domains[..|domains|-1], domains[|domains|-1];
      ExtractedExact(front, m);
      assert domains == front + [last];
      assert forall i :: 0 <= i < |front| ==> front[i] == domains[i];
    }
  }

  // ------------------------------------------------------------ constraints mean domains

  predicate InDomain(d: Domain, m: Model) {
    if d.IsBoolean() then Truth(BoolOf(m, d.symbol)) in d.values else 0 <= IntOf(m, d.symbol) < |d.values|
  }

  lemma {:induction false} AnyIndexHolds(es: seq<Expr>, n: Name, start: int, m: Model)
    requires forall i :: 0 <= i < |es| ==> es[i] == IntIs(n, start + i)
    ensures AnyHolds(es, m) <==> start <= IntOf(m, n) < start + |es|
  {
    if es != [] {
      assert forall i :: 0 <= i < |es[1..]| ==> es[1..][i] == es[i+1];
      AnyIndexHolds(es[1..], n, start + 1, m);
    }
  }

  lemma ConstraintMeans(d: Domain, m: Model)
    requires d.Valid()
    ensures AllHold(Constraint(d), m) <==> InDomain(d, m)
  {
    var c := Constraint(d);
    if d.IsBoolean() {
      BooleanDomain(d, BoolOf(m, d.symbol));
      if |d.values| == 1 {
        assert c[1..] == [];
        assert AllHold(c, m) == Holds(c[0], m);
        assert Holds(NotX(BoolRef(d.symbol)), m) == !BoolOf(m, d.symbol);
        assert Holds(BoolRef(d.symbol), m) == BoolOf(m, d.symbol);
      } else {
        assert c == [];
      }
    } else {
      AnyIndexHolds(Indices(d.symbol, |d.values|), d.symbol, 0, m);
      assert c[1..] == [];
    }
  }

  /** A Boolean domain is one truth value or both. */
  lemma BooleanDomain(d: Domain, b: bool)
    requires d.Valid() && d.IsBoolean()
    ensures d.values[0] in d.values
    ensures Truth(b) in d.values <==> |d.values| > 1 || d.values[0].value == b
  {
    assert d.values[0] in d.values;
    if |d.values| > 1 {
      assert d.values[1] in d.values && d.values[0] != d.values[1];
      assert Truth(b) == d.values[0] || Truth(b) == d.values[1];
    }
  }

  lemma {:induction false} ConstraintsMean(domains: seq<Domain>, m: Model)
    requires forall d :: d in domains ==> d.Valid()
    ensures AllHold(Constraints(domains), m) <==> forall d :: d in domains ==> InDomain(d, m)
  {
    if domains != [] {
      var front, last := domains[..|domains|-1], domains[|domains|-1];
      ConstraintsMean(front, m);
      ConstraintMeans(last, m);
      AllHoldAppend(Constraints(front), Constraint(last), m);
      assert domains == front + [last];
    }
  }

  lemma InDomainReading(d: Domain, m: Model)
    requires d.Valid() && InDomain(d, m)
    ensures Reading(d, m).Some? && Reading(d, m).value in d.values
  {}

  /** A model of the constraints always extracts to an assignment of the universe. */
  lemma ExtractionAssigns(u: Universe, m: Model)
    requires u.Valid() && AllHold(Constraints(u.domains), m)
    ensures Extracted(u.domains, m).Some? && AssignmentOf(u.domains, Extracted(u.domains, m).value)
  {
    ConstraintsMean(u.domains, m);
    ExtractedExact(u.domains, m);
    forall i | 0 <= i < |u.domains|
      ensures Reading(u.domains[i], m).Some? && Reading(u.domains[i], m).value in u.domains[i].values
    {
      assert u.domains[i] in u.domains;
      InDomainReading(u.domains[i], m);
    }
  }

  // ------------------------------------------------------------ meaning is preserved

  /** What the extracted assignment says about a declared symbol is what the model says. */
  lemma ExtractedReading(u: Universe, m: Model, n: Name)
    requires u.Valid() && AllHold(Constraints(u.domains), m) && DomainOf(u.domains, n).Some?
    ensures Extracted(u.domains, m).Some?
    ensures var env := AsEnvironment(Extracted(u.domains, m).value);
            n in env && Some(env[n]) == Reading(DomainOf(u.domains, n).value, m)
    ensures InDomain(DomainOf(u.domains, n).value, m) && DomainOf(u.domains, n).value in u.domains
    ensures DomainOf(u.domains, n).value.symbol == n
  {
    var domains := u.domains;
    ConstraintsMean(domains, m);
    ExtractionAssigns(u, m);
    ExtractedExact(domains, m);
    DomainOfExact(domains, n);
    var a := Extracted(domains, m).value;
    var i :| 0 <= i < |domains| && domains[i] == DomainOf(domains, n).value;
    EnvironmentValue(a, i);
  }

  /** The translated expression has the truth value the interpreter gives the extracted
      assignment. */
  lemma {:induction false} TranslationPreserves(f: Formula, u: Universe, m: Model)
    requires u.Valid() && WellBound(f, u.domains) && AllHold(Constraints(u.domains), m)
    ensures Extracted(u.domains, m).Some?
    ensures Evaluate(f, AsEnvironment(Extracted(u.domains, m).value)) == Some(Holds(TranslateNode(f, u.domains), m))
    decreases f, 1
  {
    hide Extracted, Constraints, AssignmentOf, AsEnvironment;
    ExtractionAssigns(u, m);
    match f
    case BoolLiteral(_) =>
    case Symbol(n) => ExtractedReading(u, m, n);
    case EnumEquals(s, v) => EnumTranslationPreserves(s, v, u, m);
    case Not(g) => TranslationPreserves(g, u, m);
    case And(fs) => AllTranslationsPreserve(fs, u, m);
    case Or(fs) => AllTranslationsPreserve(fs, u, m);
    case Implies(l, r) =>
      TranslationPreserves(l, u, m);
      TranslationPreserves(r, u, m);
    case Equivalence(l, r) =>
      TranslationPreserves(l, u, m);
      TranslationPreserves(r, u, m);
  }

  lemma EnumTranslationPreserves(s: Name, v: Name, u: Universe, m: Model)
    requires u.Valid() && WellBound(EnumEquals(s, v), u.domains) && AllHold(Constraints(u.domains), m)
    ensures Extracted(u.domains, m).Some?
    ensures Evaluate(EnumEquals(s, v), AsEnvironment(Extracted(u.domains, m).value))
         == Some(Holds(TranslateNode(EnumEquals(s, v), u.domains), m))
  {
    ExtractedReading(u, m, s);
    var d := DomainOf(u.domains, s).value;
    assert d.Valid() && d.values[0] in d.values;
    var k := IntOf(m, s);
    assert d.values[k] in d.values;
    if Enum(v) in d.values {
      var i := IndexOf(d.values, Enum(v));
      assert d.values[k] == Enum(v) <==> k == i;
    }
  }

  lemma {:induction false} AllTranslationsPreserve(fs: seq<Formula>, u: Universe, m: Model)
    requires u.Valid() && AllWellBound(fs, u.domains) && AllHold(Constraints(u.domains), m)
    ensures Extracted(u.domains, m).Some?
    ensures var env := AsEnvironment(Extracted(u.domains, m).value);
            && EvaluateUntil(fs, env, false) == Some(AllHold(TranslateAll(fs, u.domains), m))
            && EvaluateUntil(fs, env, true) == Some(AnyHolds(TranslateAll(fs, u.domains), m))
    decreases fs, 0
  {
    ExtractionAssigns(u, m);
    if fs != [] {
      TranslationPreserves(fs[0], u, m);
      AllTranslationsPreserve(fs[1..], u, m);
      assert TranslateAll(fs, u.domains)[1..] == TranslateAll(fs[1..], u.domains);
    }
  }

  // ------------------------------------------------------------ one-to-one correspondence

  /** A valuation gives exactly the declared variables values of their own sorts. */
  predicate Valuation(domains: seq<Domain>, m: Model) {
    && m.Keys == DeclaredNames(domains)
    && forall d :: d in domains ==> if d.IsBoolean() then m[d.symbol].BoolValue? else m[d.symbol].IntValue?
  }

  function EncodeValue(d: Domain, v: Scalar): Value
    requires v in d.values
  {
    if v.Truth? then BoolValue(v.value) else IntValue(IndexOf(d.values, v))
  }

  function Encode(domains: seq<Domain>, a: Assignment): Model
    requires AssignmentOf(domains, a)
  {
    if domains == [] then map[]
    else
      var k := |domains| - 1;
      Encode(domains[..k], a[..k])[domains[k].symbol := EncodeValue(domains[k], a[k].value)]
  }

  lemma {:induction false} EncodeKeys(domains: seq<Domain>, a: Assignment)
    requires AssignmentOf(domains, a)
    ensures Encode(domains, a).Keys == DeclaredNames(domains)
  {
    if domains != [] {
      var k := |domains| - 1;
      EncodeKeys(domains[..k], a[..k]);
      DeclaredStep(domains[..k], domains[k]);
      assert domains == domains[..k] + [domains[k]];
    }
  }

  lemma {:induction false} EncodeAt(domains: seq<Domain>, a: Assignment, i: nat)
    requires OrderedDomains(domains) && AssignmentOf(domains, a) && i < |domains|
    ensures domains[i].symbol in Encode(domains, a)
    ensures Encode(domains, a)[domains[i].symbol] == EncodeValue(domains[i], a[i].value)
  {
    var k := |domains| - 1;
    if i < k { EncodeAt(domains[..k], a[..k], i); }
  }

  /** Every assignment of the universe is extracted from a valuation of the constraints. */
  lemma EncodeExtracts(u: Universe, a: Assignment)
    requires u.Valid() && AssignmentOf(u.domains, a)
    ensures Valuation(u.domains, Encode(u.domains, a))
    ensures AllHold(Constraints(u.domains), Encode(u.domains, a))
    ensures Extracted(u.domains, Encode(u.domains, a)) == Some(a)
  {
    var domains, m := u.domains, Encode(u.domains, a);
    EncodeKeys(domains, a);
    forall i | 0 <= i < |domains|
      ensures InDomain(domains[i], m) && Reading(domains[i], m) == Some(a[i].value)
      ensures if domains[i].IsBoolean() then m[domains[i].symbol].BoolValue? else m[domains[i].symbol].IntValue?
    {
      EncodeAt(domains, a, i);
      EncodedReading(domains[i], a[i].value, m);
    }
    ConstraintsMean(domains, m);
    ExtractedExact(domains, m);
    assert Extracted(domains, m).value == a;
  }

  lemma EncodedReading(d: Domain, v: Scalar, m: Model)
    requires d.Valid() && v in d.values
    requires d.symbol in m && m[d.symbol] == EncodeValue(d, v)
    ensures InDomain(d, m) && Reading(d, m) == Some(v)
    ensures if d.IsBoolean() then m[d.symbol].BoolValue? else m[d.symbol].IntValue?
  {
    assert d.values[0] in d.values;
  }

  /** Distinct valuations of the constraints extract to distinct assignments. */
  lemma ExtractionInjective(u: Universe, m1: Model, m2: Model)
    requires u.Valid() && Valuation(u.domains, m1) && Valuation(u.domains, m2)
    requires AllHold(Constraints(u.domains), m1) && AllHold(Constraints(u.domains), m2)
    requires Extracted(u.domains, m1) == Extracted(u.domains, m2)
    ensures m1 == m2
  {
    forall n | n in m1 ensures n in m2 && m1[n] == m2[n] {
      DeclaredName(u.domains, n);
      var i :| 0 <= i < |u.domains| && u.domains[i].symbol == n;
      SameReading(u, m1, m2, i);
    }
    assert m1.Keys == m2.Keys;
  }

  lemma SameReading(u: Universe, m1: Model, m2: Model, i: nat)
    requires u.Valid() && i < |u.domains|
    requires Valuation(u.domains, m1) && Valuation(u.domains, m2)
    requires AllHold(Constraints(u.domains), m1) && AllHold(Constraints(u.domains), m2)
    requires Extracted(u.domains, m1) == Extracted(u.domains, m2)
    ensures u.domains[i].symbol in m1 && u.domains[i].symbol in m2
    ensures m1[u.domains[i].symbol] == m2[u.domains[i].symbol]
  {
    hide Extracted, Constraints, AllHold, AssignmentOf;
    var d := u.domains[i];
    assert d in u.domains && d.Valid();
    ConstraintsMean(u.domains, m1);
    ConstraintsMean(u.domains, m2);
    ExtractionAssigns(u, m1);
    ExtractedExact(u.domains, m1);
    ExtractedExact(u.domains, m2);
    assert Reading(d, m1) == Reading(d, m2);
  }

  /** The translated problem is satisfiable exactly when some assignment satisfies the formula. */
  lemma TranslationEquisatisfiable(f: Formula, u: Universe)
    requires u.Valid() && WellBound(f, u.domains)
    ensures (exists m ::
              Valuation(u.domains, m) && AllHold(Constraints(u.domains), m) && Holds(TranslateNode(f, u.domains), m))
       <==> Satisfiable(f, u.domains)
  {
    if m :| Valuation(u.domains, m) && AllHold(Constraints(u.domains), m) && Holds(TranslateNode(f, u.domains), m) {
      TranslationPreserves(f, u, m);
      ExtractionAssigns(u, m);
      assert Satisfies(f, Extracted(u.domains, m).value);
    }
    if a :| AssignmentOf(u.domains, a) && Satisfies(f, a) {
      EncodeExtracts(u, a);
      var m := Encode(u.domains, a);
      TranslationPreserves(f, u, m);
      assert Valuation(u.domains, m) && AllHold(Constraints(u.domains), m) && Holds(TranslateNode(f, u.domains), m);
    }
  }

  // ------------------------------------------------------------ the decision

  /** What loading the solver library gives. */
  datatype Library = Loaded | NotInstalled | ImportFailed

  /** What running it gives; `BackendRaised` is any exception on the way. */
  datatype Answer = SatAnswer(model: Model) | UnsatAnswer | UnknownAnswer(timedOut: bool) | BackendRaised

  datatype Reason =
    | NodeBudgetExceeded | Untranslatable | ExtraNotInstalled | LoadFailed | WitnessRefuted | RaisedInBackend
    | SolverReason
  datatype Execution = Completed | TimedOut | Unsupported | Failed
  datatype Logical = LogicalSat | LogicalUnsat | LogicalUnknown
  datatype CheckerVerdict = VerdictValid | VerdictInvalid | VerdictUnsupported | VerdictFailed | VerdictTimeout
    | VerdictIndeterminate
  datatype Warrant = NoWarrant | SolverTrusted

  datatype CheckResult = CheckResult(
    execution: Execution,
    logical: Option<Logical>,
    verdict: CheckerVerdict,
    warrant: Warrant,
    found: Option<Assignment>,
    rechecked: Option<bool>,
    reason: Option<Reason>)

  function NodeCount(f: Formula): nat
    decreases f, 1
  {
    match f
    case BoolLiteral(_) => 1
    case Symbol(_) => 1
    case EnumEquals(_, _) => 1
    case Not(g) => 1 + NodeCount(g)
    case And(fs) => 1 + NodeCountAll(fs)
    case Or(fs) => 1 + NodeCountAll(fs)
    case Implies(a, c) => 1 + NodeCount(a) + NodeCount(c)
    case Equivalence(l, r) => 1 + NodeCount(l) + NodeCount(r)
  }

  function NodeCountAll(fs: seq<Formula>): nat
    decreases fs, 0
  {
    if fs == [] then 0 else NodeCount(fs[0]) + NodeCountAll(fs[1..])
  }

  /** The result shape a checked record must have before it can be built at all. */
  predicate StagesSeparate(r: CheckResult) {
    && (r.execution.Unsupported? || r.execution.Failed? <==> r.logical.None?)
    && (r.logical == Some(LogicalSat) <==> r.found.Some?)
    && (r.found.Some? <==> r.rechecked.Some?)
    && (r.rechecked.Some? ==> r.verdict == if r.rechecked.value then VerdictValid else VerdictInvalid)
    && (r.logical == Some(LogicalUnsat) ==> r.execution.Completed? && r.verdict.VerdictValid?)
    && (r.warrant.SolverTrusted? <==> r.logical == Some(LogicalUnsat))
    && (r.execution.TimedOut? ==> r.logical == Some(LogicalUnknown) && r.verdict.VerdictTimeout?)
    && (r.logical == Some(LogicalUnknown) ==> r.reason.Some?)
  }

  function Refusal(execution: Execution, verdict: CheckerVerdict, reason: Reason): CheckResult {
    CheckResult(execution, None, verdict, NoWarrant, None, None, Some(reason))
  }

  /** The program gets as far as running the solver. */
  predicate Runs(f: Formula, u: Universe, maxNodes: int, library: Library) {
    NodeCount(f) <= maxNodes && WellBound(f, u.domains) && library.Loaded?
  }

  /** The decision around the solver; `None` is the rejected time or node bound. */
  function CheckWithZ3(f: Formula, u: Universe, timeoutMs: int, maxNodes: int, library: Library, answer: Answer):
    (r: Option<CheckResult>)
    ensures r.None? <==> timeoutMs < 1 || maxNodes < 1
    ensures r.Some? ==> StagesSeparate(r.value)
    ensures r.Some? && r.value.execution.Unsupported? <==>
              r.Some? && !Runs(f, u, maxNodes, library)
              && !(NodeCount(f) <= maxNodes && WellBound(f, u.domains) && library.ImportFailed?)
    ensures r.Some? && NodeCount(f) > maxNodes ==> r.value.reason == Some(NodeBudgetExceeded)
    ensures r.Some? && NodeCount(f) <= maxNodes && !WellBound(f, u.domains) ==> r.value.reason == Some(Untranslatable)
    ensures r.Some? && NodeCount(f) <= maxNodes && WellBound(f, u.domains) && library.NotInstalled? ==>
              r.value.reason == Some(ExtraNotInstalled)
    ensures r.Some? && NodeCount(f) <= maxNodes && WellBound(f, u.domains) && library.ImportFailed? ==>
              r.value.execution.Failed? && r.value.reason == Some(LoadFailed)
    ensures r.Some? && Runs(f, u, maxNodes, library) && answer.BackendRaised? ==>
              r.value.execution.Failed? && r.value.reason == Some(RaisedInBackend)
    ensures r.Some? && r.value.logical == Some(LogicalUnsat) <==>
              r.Some? && Runs(f, u, maxNodes, library) && answer.UnsatAnswer?
    ensures r.Some? && r.value.logical == Some(LogicalUnknown) <==>
              r.Some? && Runs(f, u, maxNodes, library) && answer.UnknownAnswer?
  {
    if timeoutMs < 1 || maxNodes < 1 then None
    else if NodeCount(f) > maxNodes then Some(Refusal(Unsupported, VerdictUnsupported, NodeBudgetExceeded))
    else if !WellBound(f, u.domains) then Some(Refusal(Unsupported, VerdictUnsupported, Untranslatable))
    else if library.NotInstalled? then Some(Refusal(Unsupported, VerdictUnsupported, ExtraNotInstalled))
    else if library.ImportFailed? then Some(Refusal(Failed, VerdictFailed, LoadFailed))
    else match answer
      case SatAnswer(m) =>
        (match Extracted(u.domains, m)
         case None => Some(Refusal(Failed, VerdictFailed, RaisedInBackend))
         case Some(a) =>
           match Evaluate(f, AsEnvironment(a))
           case None => Some(Refusal(Failed, VerdictFailed, RaisedInBackend))
           case Some(b) =>
             Some(CheckResult(Completed, Some(LogicalSat), if b then VerdictValid else VerdictInvalid,
                              NoWarrant, Some(a), Some(b), if b then None else Some(WitnessRefuted))))
      case UnsatAnswer =>
        Some(CheckResult(Completed, Some(LogicalUnsat), VerdictValid, SolverTrusted, None, None, None))
      case UnknownAnswer(late) =>
        Some(CheckResult(if late then TimedOut else Completed, Some(LogicalUnknown),
                         if late then VerdictTimeout else VerdictIndeterminate, NoWarrant, None, None,
                         Some(SolverReason)))
      case BackendRaised => Some(Refusal(Failed, VerdictFailed, RaisedInBackend))
  }

  /** What is assumed of a solver: a model it returns satisfies the translated problem, and
      UNSAT means no valuation does. */
  ghost predicate Faithful(f: Formula, u: Universe, answer: Answer)
    requires WellBound(f, u.domains)
  {
    match answer
    case SatAnswer(m) => AllHold(Constraints(u.domains), m) && Holds(TranslateNode(f, u.domains), m)
    case UnsatAnswer =>
      !exists m :: Valuation(u.domains, m) && AllHold(Constraints(u.domains), m)
        && Holds(TranslateNode(f, u.domains), m)
    case UnknownAnswer(_) => true
    case BackendRaised => true
  }

  lemma WitnessRechecks(f: Formula, u: Universe, m: Model)
    requires u.Valid() && WellBound(f, u.domains)
    requires AllHold(Constraints(u.domains), m) && Holds(TranslateNode(f, u.domains), m)
    ensures Extracted(u.domains, m).Some?
    ensures AssignmentOf(u.domains, Extracted(u.domains, m).value) && Satisfies(f, Extracted(u.domains, m).value)
    ensures Satisfiable(f, u.domains)
  {
    TranslationPreserves(f, u, m);
    ExtractionAssigns(u, m);
  }

  /** With a faithful solver, every extracted witness is valid and rechecks true, and SAT and
      UNSAT answers agree with the exhaustive decision over the universe. */
  lemma CheckDecides(f: Formula, u: Universe, timeoutMs: int, maxNodes: int, library: Library, answer: Answer)
    requires u.Valid() && timeoutMs >= 1 && maxNodes >= 1 && Runs(f, u, maxNodes, library)
    requires Faithful(f, u, answer)
    ensures var r := CheckWithZ3(f, u, timeoutMs, maxNodes, library, answer).value;
            && (answer.SatAnswer? ==>
                  && r.logical == Some(LogicalSat) && r.rechecked == Some(true) && r.verdict.VerdictValid?
                  && AssignmentOf(u.domains, r.found.value) && Satisfies(f, r.found.value))
            && (answer.SatAnswer? || answer.UnsatAnswer? ==>
                  && (r.logical == Some(LogicalSat) <==> Satisfiable(f, u.domains))
                  && (r.logical == Some(LogicalUnsat) <==> !Satisfiable(f, u.domains)))
            && (!answer.SatAnswer? && !answer.UnsatAnswer? ==>
                r.logical != Some(LogicalSat) && r.logical != Some(LogicalUnsat))
  {
    if answer.SatAnswer? {
      WitnessRechecks(f, u, answer.model);
    } else {
      TranslationEquisatisfiable(f, u);
    }
  }
}
