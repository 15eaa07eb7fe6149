/** The code-free Boolean and finite-enum formula language: its direct interpreter, the
    enumeration of a finite universe, and the exhaustive decision loop over it. */
module FiniteLogic {
  import opened Sequences

  /** Symbol names and enum values are text; only equality and the sorting order matter. */
  type Name = int

  datatype Scalar = Truth(value: bool) | Enum(name: Name)
  type Environment = map<Name, Scalar>

  datatype Formula =
    | BoolLiteral(value: bool)
    | Symbol(name: Name)
    | EnumEquals(symbol: Name, name: Name)
    | Not(operand: Formula)
    | And(operands: seq<Formula>)
    | Or(operands: seq<Formula>)
    | Implies(antecedent: Formula, consequent: Formula)
    | Equivalence(left: Formula, right: Formula)

  // ------------------------------------------------------------ interpreter

  /** The interpreter; `None` is the evaluation error of an ill-bound environment. The
      connectives stop early exactly where the source language does. */
  function Evaluate(f: Formula, env: Environment): Option<bool>
    decreases f, 1
  {
    match f
    case BoolLiteral(b) => Some(b)
    case Symbol(n) => if n in env && env[n].Truth? then Some(env[n].value) else None
    case EnumEquals(s, v) => if s in env && env[s].Enum? then Some(env[s].name == v) else None
    case Not(g) => (match Evaluate(g, env) case Some(b) => Some(!b) case None => None)
    case And(fs) => EvaluateUntil(fs, env, false)
    case Or(fs) => EvaluateUntil(fs, env, true)
    case Implies(a, c) =>
      (match Evaluate(a, env)
       case None => None
       case Some(b) => if !b then Some(true) else Evaluate(c, env))
    case Equivalence(l, r) =>
      (match Evaluate(l, env)
       case None => None
       case Some(b) => match Evaluate(r, env) case None => None case Some(c) => Some(b == c))
  }

  /** `any` when `stop` is true and `all` when it is false. */
  function EvaluateUntil(fs: seq<Formula>, env: Environment, stop: bool): Option<bool>
    decreases fs, 0
  {
    if fs == [] then Some(!stop)
    else match Evaluate(fs[0], env)
      case None => None
      case Some(b) => if b == stop then Some(stop) else EvaluateUntil(fs[1..], env, stop)
  }

  function Symbols(f: Formula): set<Name>
    decreases f, 1
  {
    match f
    case BoolLiteral(_) => {}
    case Symbol(n) => {n}
    case EnumEquals(s, _) => {s}
    case Not(g) => Symbols(g)
    case And(fs) => SymbolsOfAll(fs)
    case Or(fs) => SymbolsOfAll(fs)
    case Implies(a, c) => Symbols(a) + Symbols(c)
    case Equivalence(l, r) => Symbols(l) + Symbols(r)
  }

  function SymbolsOfAll(fs: seq<Formula>): set<Name>
    decreases fs, 0
  {
    if fs == [] then {} else Symbols(fs[0]) + SymbolsOfAll(fs[1..])
  }

  ghost predicate AgreeOn(names: set<Name>, a: Environment, b: Environment) {
    forall n :: n in names ==> (n in a <==> n in b) && (n in a ==> a[n] == b[n])
  }

  /** Evaluation, errors included, depends only on the symbols of the formula. */
  lemma {:induction false} EvaluateDependsOnSymbols(f: Formula, a: Environment, b: Environment)
    requires AgreeOn(Symbols(f), a, b)
    ensures Evaluate(f, a) == Evaluate(f, b)
    decreases f, 1
  {
    match f
    case BoolLiteral(_) =>
    case Symbol(_) =>
    case EnumEquals(_, _) =>
    case Not(g) => EvaluateDependsOnSymbols(g, a, b);
    case And(fs) => UntilDependsOnSymbols(fs, a, b, false);
    case Or(fs) => UntilDependsOnSymbols(fs, a, b, true);
    case Implies(l, r) =>
      EvaluateDependsOnSymbols(l, a, b);
      EvaluateDependsOnSymbols(r, a, b);
    case Equivalence(l, r) =>
      EvaluateDependsOnSymbols(l, a, b);
      EvaluateDependsOnSymbols(r, a, b);
  }

  lemma {:induction false} UntilDependsOnSymbols(fs: seq<Formula>, a: Environment, b: Environment, stop: bool)
    requires AgreeOn(SymbolsOfAll(fs), a, b)
    ensures EvaluateUntil(fs, a, stop) == EvaluateUntil(fs, b, stop)
    decreases fs, 0
  {
    if fs != [] {
      EvaluateDependsOnSymbols(fs[0], a, b);
      UntilDependsOnSymbols(fs[1..], a, b, stop);
    }
  }

  // ------------------------------------------------------------ finite universes

  datatype Domain = Domain(symbol: Name, values: seq<Scalar>) {
    predicate IsBoolean() { forall v :: v in values ==> v.Truth? }
    predicate IsEnum() { forall v :: v in values ==> v.Enum? }
    predicate Valid() { values != [] && Distinct(values) && (IsBoolean() || IsEnum()) }
  }

  datatype Universe = Universe(domains: seq<Domain>, closedWorld: bool) {
    predicate Valid() {
      && domains != []
      && (forall d :: d in domains ==> d.Valid())
      && OrderedDomains(domains)
    }
  }

  datatype AssignmentValue = AssignmentValue(symbol: Name, value: Scalar)
  type Assignment = seq<AssignmentValue>

  predicate AssignmentOf(domains: seq<Domain>, a: Assignment) {
    |a| == |domains|
    && forall i :: 0 <= i < |a| ==> a[i].symbol == domains[i].symbol && a[i].value in domains[i].values
  }

  function AsEnvironment(a: Assignment): Environment {
    if a == [] then map[]
    else AsEnvironment(a[..|a|-1])[a[|a|-1].symbol := a[|a|-1].value]
  }

  function DeclaredNames(domains: seq<Domain>): set<Name> {
    set d: Domain | d in domains :: d.symbol
  }

  predicate OrderedDomains(domains: seq<Domain>) {
    forall i, j :: 0 <= i < j < |domains| ==> domains[i].symbol < domains[j].symbol
  }

  lemma {:induction false} EnvironmentKey(a: Assignment, n: Name)
    ensures n in AsEnvironment(a) <==> exists i :: 0 <= i < |a| && a[i].symbol == n
  {
    if a != [] {
      var front := a[..|a|-1];
      EnvironmentKey(front, n);
      assert forall i :: 0 <= i < |front| ==> front[i] == a[i];
      if n in AsEnvironment(a) && n != a[|a|-1].symbol {
        var i :| 0 <= i < |front| && front[i].symbol == n;
        assert a[i].symbol == n;
      }
    }
  }

  lemma {:induction false} EnvironmentValue(a: Assignment, i: nat)
    requires i < |a| && forall j :: i < j < |a| ==> a[j].symbol != a[i].symbol
    ensures a[i].symbol in AsEnvironment(a) && AsEnvironment(a)[a[i].symbol] == a[i].value
  {
    if i < |a| - 1 { EnvironmentValue(a[..|a|-1], i); }
  }

  lemma DeclaredName(domains: seq<Domain>, n: Name)
    ensures n in DeclaredNames(domains) <==> exists i :: 0 <= i < |domains| && domains[i].symbol == n
  {
    assert forall i :: 0 <= i < |domains| ==> domains[i] in domains;
  }

  lemma DeclaredStep(domains: seq<Domain>, d: Domain)
    ensures DeclaredNames(domains + [d]) == DeclaredNames(domains) + {d.symbol}
  {
    forall n ensures n in DeclaredNames(domains + [d]) <==> n in DeclaredNames(domains) || n == d.symbol {
      if n == d.symbol { assert d in domains + [d]; }
    }
  }

  lemma EnvironmentNames(domains: seq<Domain>, a: Assignment, n: Name)
    requires AssignmentOf(domains, a)
    ensures n in AsEnvironment(a) <==> n in DeclaredNames(domains)
  {
    EnvironmentKey(a, n);
    DeclaredName(domains, n);
    assert forall i :: 0 <= i < |a| ==> a[i].symbol == domains[i].symbol;
  }

  function AssignmentCount(domains: seq<Domain>): nat {
    if domains == [] then 1 else |domains[0].values| * AssignmentCount(domains[1..])
  }

  function Prefixed(item: AssignmentValue, rest: seq<Assignment>): seq<Assignment> {
    seq(|rest|, i requires 0 <= i < |rest| => [item] + rest[i])
  }

  function ChooseEach(symbol: Name, values: seq<Scalar>, rest: seq<Assignment>): seq<Assignment> {
    if values == [] then []
    else Prefixed(AssignmentValue(symbol, values[0]), rest) + ChooseEach(symbol, values[1..], rest)
  }

  /** The cartesian product of the domains, last domain varying fastest. */
  function EnumerateAssignments(domains: seq<Domain>): seq<Assignment> {
    if domains == [] then [[]]
    else ChooseEach(domains[0].symbol, domains[0].values, EnumerateAssignments(domains[1..]))
  }

  lemma {:induction false} ChooseEachExact(symbol: Name, values: seq<Scalar>, rest: seq<Assignment>)
    requires Distinct(values) && Distinct(rest)
    ensures |ChooseEach(symbol, values, rest)| == |values| * |rest|
    ensures Distinct(ChooseEach(symbol, values, rest))
    ensures forall a: Assignment :: a in ChooseEach(symbol, values, rest) <==>
                          a != [] && a[0].symbol == symbol && a[0].value in values && a[1..] in rest
  {
    if values != [] {
      var item, here, later := AssignmentValue(symbol, values[0]),
        Prefixed(AssignmentValue(symbol, values[0]), rest), ChooseEach(symbol, values[1..], rest);
      ChooseEachExact(symbol, values[1..], rest);
      PrefixedExact(item, rest);
      assert values[0] !in values[1..];
      forall i, j | 0 <= i < j < |here + later| ensures (here + later)[i] != (here + later)[j] {
        if i < |here| && j >= |here| {
          assert here[i] in here && later[j - |here|] in later;
        }
      }
      assert |values| * |rest| == |rest| + (|values| - 1) * |rest|;
    }
  }

  lemma PrefixedExact(item: AssignmentValue, rest: seq<Assignment>)
    requires Distinct(rest)
    ensures Distinct(Prefixed(item, rest))
    ensures forall a: Assignment :: a in Prefixed(item, rest) <==> a != [] && a[0] == item && a[1..] in rest
  {
    var here := Prefixed(item, rest);
    forall i | 0 <= i < |rest| ensures here[i] == [item] + rest[i] && here[i][1..] == rest[i] {}
    forall a: Assignment | a != [] && a[0] == item && a[1..] in rest ensures a in here {
      var i :| 0 <= i < |rest| && rest[i] == a[1..];
      assert here[i] == a;
    }
  }

  /** The enumeration lists every assignment of the universe exactly once. */
  lemma {:induction false} EnumerationExact(domains: seq<Domain>)
    requires forall d :: d in domains ==> Distinct(d.values)
    ensures forall a :: a in EnumerateAssignments(domains) <==> AssignmentOf(domains, a)
    ensures Distinct(EnumerateAssignments(domains))
    ensures |EnumerateAssignments(domains)| == AssignmentCount(domains)
  {
    if domains != [] {
      EnumerationExact(domains[1..]);
      ChooseEachExact(domains[0].symbol, domains[0].values, EnumerateAssignments(domains[1..]));
      forall a ensures a in EnumerateAssignments(domains) <==> AssignmentOf(domains, a) {
        SplitAssignment(domains, a);
      }
    }
  }

  lemma SplitAssignment(domains: seq<Domain>, a: Assignment)
    requires domains != []
    ensures AssignmentOf(domains, a) <==>
              a != [] && a[0].symbol == domains[0].symbol && a[0].value in domains[0].values
              && AssignmentOf(domains[1..], a[1..])
  {
    if a != [] && a[0].symbol == domains[0].symbol && a[0].value in domains[0].values
       && AssignmentOf(domains[1..], a[1..]) {
      forall i | 0 <= i < |a| ensures a[i].symbol == domains[i].symbol && a[i].value in domains[i].values {
        if i > 0 { assert a[i] == a[1..][i-1] && domains[i] == domains[1..][i-1]; }
      }
    }
  }

  // ------------------------------------------------------------ binding

  function DomainOf(domains: seq<Domain>, n: Name): Option<Domain> {
    if domains == [] then None
    else if domains[|domains|-1].symbol == n then Some(domains[|domains|-1])
    else DomainOf(domains[..|domains|-1], n)
  }

  /** Every symbol is declared with the type its occurrence needs. */
  predicate WellBound(f: Formula, domains: seq<Domain>)
    decreases f, 1
  {
    match f
    case BoolLiteral(_) => true
    case Symbol(n) => DomainOf(domains, n).Some? && DomainOf(domains, n).value.IsBoolean()
    case EnumEquals(s, _) => DomainOf(domains, s).Some? && DomainOf(domains, s).value.IsEnum()
    case Not(g) => WellBound(g, domains)
    case And(fs) => AllWellBound(fs, domains)
    case Or(fs) => AllWellBound(fs, domains)
    case Implies(a, c) => WellBound(a, domains) && WellBound(c, domains)
    case Equivalence(l, r) => WellBound(l, domains) && WellBound(r, domains)
  }

  predicate AllWellBound(fs: seq<Formula>, domains: seq<Domain>)
    decreases fs, 0
  {
    fs == [] || (WellBound(fs[0], domains) && AllWellBound(fs[1..], domains))
  }

  lemma {:induction false} DomainOfExact(domains: seq<Domain>, n: Name)
    requires OrderedDomains(domains)
    ensures DomainOf(domains, n).Some? <==> exists d :: d in domains && d.symbol == n
    ensures DomainOf(domains, n).Some? ==>
        DomainOf(domains, n).value in domains && DomainOf(domains, n).value.symbol == n
    ensures forall d :: d in domains && d.symbol == n ==> DomainOf(domains, n) == Some(d)
  {
    if domains != [] {
      var k := |domains| - 1;
      DomainOfExact(domains[..k], n);
      assert domains == domains[..k] + [domains[k]];
    }
  }

  /** Under an assignment of the universe, each symbol has a value from its own domain. */
  lemma AssignedValue(domains: seq<Domain>, a: Assignment, n: Name)
    requires OrderedDomains(domains) && AssignmentOf(domains, a)
    ensures n in AsEnvironment(a) <==> DomainOf(domains, n).Some?
    ensures n in AsEnvironment(a) ==> AsEnvironment(a)[n] in DomainOf(domains, n).value.values
  {
    DomainOfExact(domains, n);
    EnvironmentNames(domains, a, n);
    if n in AsEnvironment(a) {
      var d :| d in domains && d.symbol == n;
      var i :| 0 <= i < |domains| && domains[i] == d;
      EnvironmentValue(a, i);
    }
  }

  /** A well-bound formula never raises on an assignment of its universe. */
  lemma {:induction false} WellBoundEvaluates(f: Formula, domains: seq<Domain>, a: Assignment)
    requires OrderedDomains(domains) && AssignmentOf(domains, a) && WellBound(f, domains)
    ensures Evaluate(f, AsEnvironment(a)).Some?
    decreases f, 1
  {
    match f
    case BoolLiteral(_) =>
    case Symbol(n) => AssignedValue(domains, a, n);
    case EnumEquals(s, _) => AssignedValue(domains, a, s);
    case Not(g) => WellBoundEvaluates(g, domains, a);
    case And(fs) => AllWellBoundEvaluate(fs, domains, a, false);
    case Or(fs) => AllWellBoundEvaluate(fs, domains, a, true);
    case Implies(l, r) =>
      WellBoundEvaluates(l, domains, a);
      WellBoundEvaluates(r, domains, a);
    case Equivalence(l, r) =>
      WellBoundEvaluates(l, domains, a);
      WellBoundEvaluates(r, domains, a);
  }

  lemma {:induction false} AllWellBoundEvaluate(fs: seq<Formula>, domains: seq<Domain>, a: Assignment, stop: bool)
    requires OrderedDomains(domains) && AssignmentOf(domains, a) && AllWellBound(fs, domains)
    ensures EvaluateUntil(fs, AsEnvironment(a), stop).Some?
    decreases fs, 0
  {
    if fs != [] {
      WellBoundEvaluates(fs[0], domains, a);
      AllWellBoundEvaluate(fs[1..], domains, a, stop);
    }
  }

  lemma {:induction false} WellBoundSymbols(f: Formula, domains: seq<Domain>)
    requires OrderedDomains(domains) && WellBound(f, domains)
    ensures Symbols(f) <= DeclaredNames(domains)
    decreases f, 1
  {
    match f
    case BoolLiteral(_) =>
    case Symbol(n) => DomainOfExact(domains, n);
    case EnumEquals(s, _) => DomainOfExact(domains, s);
    case Not(g) => WellBoundSymbols(g, domains);
    case And(fs) => AllWellBoundSymbols(fs, domains);
    case Or(fs) => AllWellBoundSymbols(fs, domains);
    case Implies(l, r) =>
      WellBoundSymbols(l, domains);
      WellBoundSymbols(r, domains);
    case Equivalence(l, r) =>
      WellBoundSymbols(l, domains);
      WellBoundSymbols(r, domains);
  }

  lemma {:induction false} AllWellBoundSymbols(fs: seq<Formula>, domains: seq<Domain>)
    requires OrderedDomains(domains) && AllWellBound(fs, domains)
    ensures SymbolsOfAll(fs) <= DeclaredNames(domains)
    decreases fs, 0
  {
    if fs != [] {
      WellBoundSymbols(fs[0], domains);
      AllWellBoundSymbols(fs[1..], domains);
    }
  }

  // ------------------------------------------------------------ exhaustive decision

  datatype Verdict =
    | Sat(found: Assignment, checked: nat)
    | Unsat(checked: nat)
    | BudgetExceeded
    | Unbound(missing: set<Name>)
    | BudgetNotPositive
    | EvaluationRaised

  predicate Satisfies(f: Formula, a: Assignment) {
    Evaluate(f, AsEnvironment(a)) == Some(true)
  }

  /** A verdict over a list of assignments: the first satisfying one and its position, or none. */
  ghost predicate DecidedOver(f: Formula, all: seq<Assignment>, v: Verdict) {
    match v
    case Sat(found, checked) =>
      && 1 <= checked <= |all| && all[checked - 1] == found && Satisfies(f, found)
      && forall i :: 0 <= i < checked - 1 ==> !Satisfies(f, all[i])
    case Unsat(checked) => checked == |all| && forall a :: a in all ==> !Satisfies(f, a)
    case EvaluationRaised => exists a :: a in all && Evaluate(f, AsEnvironment(a)).None?
    case _ => false
  }

  /** The decision loop; the position of the witness is the number of assignments checked. */
  method Search(f: Formula, all: seq<Assignment>) returns (v: Verdict)
    ensures DecidedOver(f, all, v)
  {
    var checked := 0;
    while checked < |all|
      invariant 0 <= checked <= |all|
      invariant forall i :: 0 <= i < checked ==> !Satisfies(f, all[i])
    {
      var assignment := all[checked];
      checked := checked + 1;
      match Evaluate(f, AsEnvironment(assignment)) {
        case None => return EvaluationRaised;
        case Some(b) => if b { return Sat(assignment, checked); }
      }
    }
    return Unsat(checked);
  }

  ghost predicate Satisfiable(f: Formula, domains: seq<Domain>) {
    exists a :: AssignmentOf(domains, a) && Satisfies(f, a)
  }

  method ExhaustiveCheck(f: Formula, u: Universe, maxAssignments: int) returns (v: Verdict)
    requires u.Valid()
    ensures v.BudgetNotPositive? <==> maxAssignments < 1
    ensures v.BudgetExceeded? <==> 1 <= maxAssignments < AssignmentCount(u.domains)
    ensures v.Unbound? <==> AssignmentCount(u.domains) <= maxAssignments && maxAssignments >= 1
                            && Symbols(f) - DeclaredNames(u.domains) != {}
    ensures v.Unbound? ==> v.missing == Symbols(f) - DeclaredNames(u.domains)
    ensures v.Sat? || v.Unsat? || v.EvaluationRaised? ==> DecidedOver(f, EnumerateAssignments(u.domains), v)
    ensures v.Sat? ==> AssignmentOf(u.domains, v.found) && Satisfies(f, v.found)
    ensures WellBound(f, u.domains) && 1 <= maxAssignments && AssignmentCount(u.domains) <= maxAssignments ==>
              (v.Sat? || v.Unsat?) && (v.Sat? <==> Satisfiable(f, u.domains))
  {
    if maxAssignments < 1 { return BudgetNotPositive; }
    if AssignmentCount(u.domains) > maxAssignments { return BudgetExceeded; }
    var missing := Symbols(f) - DeclaredNames(u.domains);
    BoundSymbolsDeclared(f, u.domains);
    if missing != {} { return Unbound(missing); }
    v := Search(f, EnumerateAssignments(u.domains));
    DecisionCorrect(f, u, v);
  }

  lemma BoundSymbolsDeclared(f: Formula, domains: seq<Domain>)
    requires OrderedDomains(domains)
    ensures WellBound(f, domains) ==> Symbols(f) - DeclaredNames(domains) == {}
  {
    if WellBound(f, domains) { WellBoundSymbols(f, domains); }
  }

  /** Deciding over the enumeration decides over the universe, and binding rules out errors. */
  lemma DecisionCorrect(f: Formula, u: Universe, v: Verdict)
    requires u.Valid() && DecidedOver(f, EnumerateAssignments(u.domains), v)
    ensures v.Sat? ==> AssignmentOf(u.domains, v.found) && Satisfiable(f, u.domains)
    ensures v.Unsat? ==> !Satisfiable(f, u.domains) && v.checked == AssignmentCount(u.domains)
    ensures WellBound(f, u.domains) ==> !v.EvaluationRaised?
  {
    var all := EnumerateAssignments(u.domains);
    EnumerationExact(u.domains);
    if v.Sat? { assert all[v.checked - 1] in all; }
    if v.EvaluationRaised? && WellBound(f, u.domains) {
      var a :| a in all && Evaluate(f, AsEnvironment(a)).None?;
      WellBoundEvaluates(f, u.domains, a);
    }
  }

  // ------------------------------------------------------------ attacks

  datatype AttackProfile = Necessity | Sufficiency | Prerequisite | Localization | Generalization | Actualization

  /** The exact counterexample shape each attack searches for. */
  function Counterexample(profile: AttackProfile, condition: Formula, consequence: Formula): Formula {
    if profile.Necessity? || profile.Prerequisite?
    then And([consequence, Not(condition)])
    else And([condition, Not(consequence)])
  }

  /** `premise` implies `conclusion` at every assignment of the universe. */
  ghost predicate Entails(domains: seq<Domain>, premise: Formula, conclusion: Formula) {
    forall a :: AssignmentOf(domains, a) && Satisfies(premise, a) ==> Satisfies(conclusion, a)
  }

  /** A necessity or prerequisite attack is UNSAT exactly when the consequence implies the
      condition everywhere; the others exactly when the condition implies the consequence. */
  method ImplicationAttack(profile: AttackProfile, condition: Formula, consequence: Formula, u: Universe,
    maxAssignments: int)
    returns (v: Verdict)
    requires u.Valid()
    ensures WellBound(condition, u.domains) && WellBound(consequence, u.domains)
            && 1 <= maxAssignments && AssignmentCount(u.domains) <= maxAssignments ==>
              && (v.Sat? || v.Unsat?)
              && (v.Unsat? <==> if profile.Necessity? || profile.Prerequisite?
                                 then Entails(u.domains, consequence, condition)
                                 else Entails(u.domains, condition, consequence))
  {
    var counterexample := Counterexample(profile, condition, consequence);
    v := ExhaustiveCheck(counterexample, u, maxAssignments);
    if WellBound(condition, u.domains) && WellBound(consequence, u.domains) {
      if profile.Necessity? || profile.Prerequisite? {
        RefutedEntailment(u.domains, consequence, condition);
      } else {
        RefutedEntailment(u.domains, condition, consequence);
      }
    }
  }

  /** `premise and not conclusion` is well bound, and satisfiable exactly when entailment fails. */
  lemma RefutedEntailment(domains: seq<Domain>, premise: Formula, conclusion: Formula)
    requires OrderedDomains(domains) && WellBound(premise, domains) && WellBound(conclusion, domains)
    ensures WellBound(And([premise, Not(conclusion)]), domains)
    ensures Satisfiable(And([premise, Not(conclusion)]), domains) <==> !Entails(domains, premise, conclusion)
  {
    ConjunctionOfTwo(domains, premise, Not(conclusion));
    var both := And([premise, Not(conclusion)]);
    forall a | AssignmentOf(domains, a)
      ensures Satisfies(both, a) <==> Satisfies(premise, a) && !Satisfies(conclusion, a)
    {
      WellBoundEvaluates(premise, domains, a);
      WellBoundEvaluates(conclusion, domains, a);
      UntilPair(premise, Not(conclusion), AsEnvironment(a));
    }
  }

  lemma ConjunctionOfTwo(domains: seq<Domain>, f: Formula, g: Formula)
    ensures WellBound(And([f, g]), domains) <==> WellBound(f, domains) && WellBound(g, domains)
  {
    assert [f, g][1..] == [g] && [g][1..] == [];
    assert AllWellBound([g], domains) == WellBound(g, domains);
  }

  lemma UntilPair(f: Formula, g: Formula, env: Environment)
    requires Evaluate(f, env).Some? && Evaluate(g, env).Some?
    ensures Evaluate(And([f, g]), env) == Some(Evaluate(f, env).value && Evaluate(g, env).value)
  {
    assert [f, g][1..] == [g] && [g][1..] == [];
    assert EvaluateUntil([g], env, false) == Evaluate(g, env);
  }
}
