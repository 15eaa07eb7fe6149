/** The finite pairwise checker for quotients of transition systems, and why a finite check
    settles a statement about every word over an unbounded history. */
module Quotient {
  import opened Sequences

  type State = int
  type Letter = int
  type Class = int
  type Consequence = seq<int>

  datatype Presentation = Presentation(
    states: seq<State>,
    alphabet: seq<Letter>,
    initial: State,
    transition: map<(State, Letter), State>,
    quotient: map<State, Class>,
    configuration: map<State, int>,
    consequences: map<State, Consequence>,
    determinations: seq<set<State>>)
  {
    /** Totality over exact state identities, the checker's entry condition. */
    predicate Total() {
      && states != [] && initial in states
      && quotient.Keys == Elements(states)
      && configuration.Keys == Elements(states)
      && consequences.Keys == Elements(states)
      && forall s, a :: s in states && a in alphabet ==> (s, a) in transition && transition[(s, a)] in states
    }
  }

  function Next(p: Presentation, s: State, a: Letter): (t: State)
    requires p.Total() && s in p.states && a in p.alphabet
    ensures t in p.states
  {
    p.transition[(s, a)]
  }

  datatype Result = Result(
    valid: bool,
    factorization: bool,
    exactEquivalence: bool,
    continuationCompatible: bool,
    recursiveUpdate: bool,
    determinationDescent: bool,
    configurationEqual: bool,
    counterexample: Option<(State, State)>)

  // ------------------------------------------------------------ the pairwise checks

  function PairsWith(s: State, rest: seq<State>): seq<(State, State)> {
    seq(|rest|, i requires 0 <= i < |rest| => (s, rest[i]))
  }

  /** All two-element combinations, in positional order. */
  function Combinations(states: seq<State>): seq<(State, State)> {
    if states == [] then [] else PairsWith(states[0], states[1..]) + Combinations(states[1..])
  }

  lemma {:induction false} CombinationsExact(states: seq<State>, l: State, r: State)
    ensures (l, r) in Combinations(states) ==> l in states && r in states
    ensures l in states && r in states && l != r ==> (l, r) in Combinations(states) || (r, l) in Combinations(states)
  {
    if states != [] {
      var here := PairsWith(states[0], states[1..]);
      CombinationsExact(states[1..], l, r);
      if l in states && r in states && l != r {
        if l == states[0] {
          var i :| 0 <= i < |states[1..]| && states[1..][i] == r;
          assert here[i] == (l, r);
        } else if r == states[0] {
          var i :| 0 <= i < |states[1..]| && states[1..][i] == l;
          assert here[i] == (r, l);
        }
      }
    }
  }

  predicate SameClass(p: Presentation, l: State, r: State)
    requires p.Total() && l in p.states && r in p.states
  {
    p.quotient[l] == p.quotient[r]
  }

  predicate SameConsequence(p: Presentation, l: State, r: State)
    requires p.Total() && l in p.states && r in p.states
  {
    p.consequences[l] == p.consequences[r]
  }

  predicate StepsTogether(p: Presentation, l: State, r: State)
    requires p.Total() && l in p.states && r in p.states
  {
    forall a :: a in p.alphabet ==> p.quotient[Next(p, l, a)] == p.quotient[Next(p, r, a)]
  }

  predicate Agrees(determinations: seq<set<State>>, l: State, r: State) {
    forall d :: d in determinations ==> (l in d <==> r in d)
  }

  /** A pair of one class that breaks factorization, or that breaks continuation. */
  predicate Unfactored(p: Presentation, l: State, r: State)
    requires p.Total() && l in p.states && r in p.states
  {
    SameClass(p, l, r) && !SameConsequence(p, l, r)
  }

  predicate Incompatible(p: Presentation, l: State, r: State)
    requires p.Total() && l in p.states && r in p.states
  {
    SameClass(p, l, r) && !StepsTogether(p, l, r)
  }

  predicate StatePairs(p: Presentation, pairs: seq<(State, State)>) {
    forall x :: x in pairs ==> x.0 in p.states && x.1 in p.states
  }

  function FirstUnfactored(p: Presentation, pairs: seq<(State, State)>): (r: Option<(State, State)>)
    requires p.Total() && StatePairs(p, pairs)
    ensures r.None? <==> forall x :: x in pairs ==> !Unfactored(p, x.0, x.1)
    ensures r.Some? ==> r.value in pairs && Unfactored(p, r.value.0, r.value.1)
  {
    if pairs == [] then None
    else
      assert pairs[0] in pairs;
      if Unfactored(p, pairs[0].0, pairs[0].1) then Some(pairs[0]) else FirstUnfactored(p, pairs[1..])
  }

  function FirstIncompatible(p: Presentation, pairs: seq<(State, State)>): (r: Option<(State, State)>)
    requires p.Total() && StatePairs(p, pairs)
    ensures r.None? <==> forall x :: x in pairs ==> !Incompatible(p, x.0, x.1)
    ensures r.Some? ==> r.value in pairs && Incompatible(p, r.value.0, r.value.1)
  {
    if pairs == [] then None
    else
      assert pairs[0] in pairs;
      if Incompatible(p, pairs[0].0, pairs[0].1) then Some(pairs[0]) else FirstIncompatible(p, pairs[1..])
  }

  lemma CombinationsAreStates(p: Presentation)
    ensures StatePairs(p, Combinations(p.states))
  {
    forall x | x in Combinations(p.states) ensures x.0 in p.states && x.1 in p.states {
      CombinationsExact(p.states, x.0, x.1);
    }
  }

  /** The checker; `None` is its refusal of a presentation that is not total. */
  function Validate(p: Presentation): Option<Result> {
    if !p.Total() then None
    else
      CombinationsAreStates(p);
      var pairs := Combinations(p.states);
      var factorization := forall x :: x in pairs ==> !SameClass(p, x.0, x.1) || SameConsequence(p, x.0, x.1);
      var exact := forall x :: x in pairs ==> SameClass(p, x.0, x.1) == SameConsequence(p, x.0, x.1);
      var compatible := forall x :: x in pairs ==> !SameClass(p, x.0, x.1) || StepsTogether(p, x.0, x.1);
      var descent := forall x :: x in pairs ==> !SameClass(p, x.0, x.1) || Agrees(p.determinations, x.0, x.1);
      var first := FirstUnfactored(p, pairs);
      Some(Result(
        factorization && compatible && descent, factorization, exact, compatible, compatible, descent,
        exists x :: x in pairs && p.configuration[x.0] == p.configuration[x.1],
        if first.None? && !compatible then FirstIncompatible(p, pairs) else first))
  }

  // ------------------------------------------------------------ unbounded meaning

  predicate Word(p: Presentation, w: seq<Letter>) {
    forall a :: a in w ==> a in p.alphabet
  }

  function Run(p: Presentation, s: State, w: seq<Letter>): (t: State)
    requires p.Total() && s in p.states && Word(p, w)
    ensures t in p.states
    decreases |w|
  {
    if w == [] then s
    else
      assert w[0] in w && forall a :: a in w[1..] ==> a in w;
      Run(p, Next(p, s, w[0]), w[1..])
  }

  ghost predicate Factors(p: Presentation)
    requires p.Total()
  {
    forall l, r :: l in p.states && r in p.states && SameClass(p, l, r) ==> SameConsequence(p, l, r)
  }

  ghost predicate Congruent(p: Presentation)
    requires p.Total()
  {
    forall l, r :: l in p.states && r in p.states && SameClass(p, l, r) ==> StepsTogether(p, l, r)
  }

  /** The finite checks over combinations are the all-pairs statements. */
  lemma ChecksCoverAllPairs(p: Presentation)
    requires p.Total()
    ensures Validate(p).value.factorization <==> Factors(p)
    ensures Validate(p).value.continuationCompatible <==> Congruent(p)
    ensures Validate(p).value.exactEquivalence <==>
              forall l, r :: l in p.states && r in p.states ==> (SameClass(p, l, r) <==> SameConsequence(p, l, r))
    ensures Validate(p).value.determinationDescent <==>
              forall l, r :: l in p.states && r in p.states && SameClass(p, l, r) ==> Agrees(p.determinations, l, r)
  {
    CombinationsAreStates(p);
    var pairs := Combinations(p.states);
    forall l, r | l in p.states && r in p.states
      ensures l == r || (l, r) in pairs || (r, l) in pairs
    {
      CombinationsExact(p.states, l, r);
    }
    PairwiseFactorization(p, pairs);
    PairwiseCongruence(p, pairs);
    PairwiseExactness(p, pairs);
    PairwiseDescent(p, pairs);
  }

  ghost predicate CoverPairs(p: Presentation, pairs: seq<(State, State)>) {
    StatePairs(p, pairs)
    && forall l, r :: l in p.states && r in p.states ==> l == r || (l, r) in pairs || (r, l) in pairs
  }

  lemma PairwiseFactorization(p: Presentation, pairs: seq<(State, State)>)
    requires p.Total() && CoverPairs(p, pairs)
    ensures (forall x :: x in pairs ==> !SameClass(p, x.0, x.1) || SameConsequence(p, x.0, x.1)) <==> Factors(p)
  {
    if forall x :: x in pairs ==> !SameClass(p, x.0, x.1) || SameConsequence(p, x.0, x.1) {
      forall l, r | l in p.states && r in p.states && SameClass(p, l, r) ensures SameConsequence(p, l, r) {
        assert l == r || (l, r) in pairs || (r, l) in pairs;
      }
    }
  }

  lemma PairwiseCongruence(p: Presentation, pairs: seq<(State, State)>)
    requires p.Total() && CoverPairs(p, pairs)
    ensures (forall x :: x in pairs ==> !SameClass(p, x.0, x.1) || StepsTogether(p, x.0, x.1)) <==> Congruent(p)
  {
    if forall x :: x in pairs ==> !SameClass(p, x.0, x.1) || StepsTogether(p, x.0, x.1) {
      forall l, r | l in p.states && r in p.states && SameClass(p, l, r) ensures StepsTogether(p, l, r) {
        assert l == r || (l, r) in pairs || (r, l) in pairs;
        assert (r, l) in pairs ==> StepsTogether(p, r, l);
      }
    }
  }

  lemma PairwiseExactness(p: Presentation, pairs: seq<(State, State)>)
    requires p.Total() && CoverPairs(p, pairs)
    ensures (forall x :: x in pairs ==> SameClass(p, x.0, x.1) == SameConsequence(p, x.0, x.1)) <==>
            forall l, r :: l in p.states && r in p.states ==> (SameClass(p, l, r) <==> SameConsequence(p, l, r))
  {
    if forall x :: x in pairs ==> SameClass(p, x.0, x.1) == SameConsequence(p, x.0, x.1) {
      forall l, r | l in p.states && r in p.states ensures SameClass(p, l, r) <==> SameConsequence(p, l, r) {
        assert l == r || (l, r) in pairs || (r, l) in pairs;
        assert (r, l) in pairs ==> SameClass(p, r, l) == SameConsequence(p, r, l);
      }
    }
  }

  lemma PairwiseDescent(p: Presentation, pairs: seq<(State, State)>)
    requires p.Total() && CoverPairs(p, pairs)
    ensures (forall x :: x in pairs ==> !SameClass(p, x.0, x.1) || Agrees(p.determinations, x.0, x.1)) <==>
            forall l, r :: l in p.states && r in p.states && SameClass(p, l, r) ==> Agrees(p.determinations, l, r)
  {
    if forall x :: x in pairs ==> !SameClass(p, x.0, x.1) || Agrees(p.determinations, x.0, x.1) {
      forall l, r | l in p.states && r in p.states && SameClass(p, l, r) ensures Agrees(p.determinations, l, r) {
        assert l == r || (l, r) in pairs || (r, l) in pairs;
        assert (r, l) in pairs ==> Agrees(p.determinations, r, l);
      }
    }
  }

  /** `l` and `r` stay in one class with equal consequences along the word. */
  ghost predicate IndistinctAfter(p: Presentation, l: State, r: State, w: seq<Letter>)
    requires p.Total() && l in p.states && r in p.states && Word(p, w)
  {
    SameClass(p, Run(p, l, w), Run(p, r, w)) && SameConsequence(p, Run(p, l, w), Run(p, r, w))
  }

  lemma {:induction false} WordsStayTogether(p: Presentation, l: State, r: State, w: seq<Letter>)
    requires p.Total() && Factors(p) && Congruent(p)
    requires l in p.states && r in p.states && SameClass(p, l, r) && Word(p, w)
    ensures IndistinctAfter(p, l, r, w)
    decreases |w|
  {
    if w != [] {
      assert w[0] in w && forall a :: a in w[1..] ==> a in w;
      assert StepsTogether(p, l, r);
      WordsStayTogether(p, Next(p, l, w[0]), Next(p, r, w[0]), w[1..]);
    }
  }

  /** The finite checks pass exactly when the statement over all words of every length holds. */
  lemma FiniteCheckDecidesAllWords(p: Presentation)
    requires p.Total()
    ensures Validate(p).value.factorization && Validate(p).value.continuationCompatible <==>
            forall l, r, w :: l in p.states && r in p.states && SameClass(p, l, r) && Word(p, w)
                              ==> IndistinctAfter(p, l, r, w)
  {
    ChecksCoverAllPairs(p);
    if Factors(p) && Congruent(p) {
      forall l, r, w | l in p.states && r in p.states && SameClass(p, l, r) && Word(p, w)
        ensures IndistinctAfter(p, l, r, w)
      {
        WordsStayTogether(p, l, r, w);
      }
    }
    if forall l, r, w :: l in p.states && r in p.states && SameClass(p, l, r) && Word(p, w) ==>
        IndistinctAfter(p, l, r, w) {
      forall l, r | l in p.states && r in p.states && SameClass(p, l, r)
        ensures SameConsequence(p, l, r) && StepsTogether(p, l, r)
      {
        assert IndistinctAfter(p, l, r, []);
        forall a | a in p.alphabet ensures p.quotient[Next(p, l, a)] == p.quotient[Next(p, r, a)] {
          assert IndistinctAfter(p, l, r, [a]);
          OneLetter(p, l, a);
          OneLetter(p, r, a);
        }
      }
    }
  }

  lemma OneLetter(p: Presentation, s: State, a: Letter)
    requires p.Total() && s in p.states && a in p.alphabet
    ensures Run(p, s, [a]) == Next(p, s, a)
  {
    assert [a][1..] == [];
    assert Run(p, Next(p, s, a), []) == Next(p, s, a);
  }

  /** A class-level update function that commutes with the quotient. */
  ghost predicate Updates(p: Presentation, update: map<(Class, Letter), Class>)
    requires p.Total()
  {
    forall s, a :: s in p.states && a in p.alphabet ==>
      (p.quotient[s], a) in update && update[(p.quotient[s], a)] == p.quotient[Next(p, s, a)]
  }

  function Representative(p: Presentation, c: Class, states: seq<State>): (r: Option<State>)
    requires p.Total() && forall i :: 0 <= i < |states| ==> states[i] in p.states
    ensures r.Some? ==> r.value in states && r.value in p.states && p.quotient[r.value] == c
    ensures r.None? ==> forall s :: s in states && s in p.states ==> p.quotient[s] != c
  {
    if states == [] then None
    else
      assert states[0] in states && states[0] in p.states && states[0] in p.quotient;
      if p.quotient[states[0]] == c then Some(states[0]) else Representative(p, c, states[1..])
  }

  function ClassUpdate(p: Presentation): map<(Class, Letter), Class>
    requires p.Total()
  {
    map s, a | s in p.states && a in p.alphabet ::
      (p.quotient[s], a) := p.quotient[Next(p, Representative(p, p.quotient[s], p.states).value, a)]
  }

  /** `recursive_update` is reported exactly when such an update function exists. */
  lemma RecursiveUpdateExists(p: Presentation)
    requires p.Total()
    ensures Validate(p).value.recursiveUpdate <==> exists update :: Updates(p, update)
  {
    ChecksCoverAllPairs(p);
    if Congruent(p) {
      var update := ClassUpdate(p);
      forall s, a | s in p.states && a in p.alphabet
        ensures (p.quotient[s], a) in update && update[(p.quotient[s], a)] == p.quotient[Next(p, s, a)]
      {
        var t := Representative(p, p.quotient[s], p.states).value;
        assert SameClass(p, s, t) && StepsTogether(p, s, t);
      }
      assert Updates(p, update);
    }
    if update :| Updates(p, update) {
      forall l, r | l in p.states && r in p.states && SameClass(p, l, r) ensures StepsTogether(p, l, r) {}
    }
  }

  /** A counterexample is returned exactly when one of the two checks fails, and it really
      violates the one it is returned for. */
  lemma CounterexampleIsReal(p: Presentation)
    requires p.Total()
    ensures var v := Validate(p).value;
      && (v.counterexample.None? <==> v.factorization && v.continuationCompatible)
      && (v.counterexample.Some? ==>
            var (l, r) := v.counterexample.value;
            && l in p.states && r in p.states
            && if v.factorization then Incompatible(p, l, r) else Unfactored(p, l, r))
  {
    CombinationsAreStates(p);
  }

  /** Two states are observationally equal when every word leads to equal consequences. */
  ghost predicate ObservedEqual(p: Presentation, l: State, r: State)
    requires p.Total() && l in p.states && r in p.states
  {
    forall w :: Word(p, w) ==> SameConsequence(p, Run(p, l, w), Run(p, r, w))
  }

  /** With exact equivalence the quotient is the coarsest that factors consequences; when it
      is also continuation compatible its classes are the observational classes of all words. */
  lemma ExactQuotientIsCoarsest(p: Presentation, other: map<State, Class>)
    requires p.Total() && Validate(p).value.exactEquivalence
    ensures Validate(p).value.factorization
    ensures (other.Keys == Elements(p.states)
             && forall l, r :: l in p.states && r in p.states && other[l] == other[r] ==> SameConsequence(p, l, r))
            ==> forall l, r :: l in p.states && r in p.states && other[l] == other[r] ==> SameClass(p, l, r)
    ensures Validate(p).value.continuationCompatible ==>
              forall l, r :: l in p.states && r in p.states ==> (SameClass(p, l, r) <==> ObservedEqual(p, l, r))
  {
    ChecksCoverAllPairs(p);
    if Congruent(p) {
      forall l, r | l in p.states && r in p.states ensures SameClass(p, l, r) <==> ObservedEqual(p, l, r) {
        if SameClass(p, l, r) {
          forall w | Word(p, w) ensures SameConsequence(p, Run(p, l, w), Run(p, r, w)) {
            WordsStayTogether(p, l, r, w);
          }
        }
        if ObservedEqual(p, l, r) {
          assert SameConsequence(p, Run(p, l, []), Run(p, r, []));
        }
      }
    }
  }

  ghost predicate UnionOfClasses(p: Presentation, d: set<State>, classes: set<Class>)
    requires p.Total()
  {
    forall s :: s in p.states ==> (s in d <==> p.quotient[s] in classes)
  }

  /** Descended determinations are unions of classes, and only those descend. */
  lemma DescentMeansUnionOfClasses(p: Presentation)
    requires p.Total()
    ensures Validate(p).value.determinationDescent <==>
            forall d :: d in p.determinations ==> exists classes :: UnionOfClasses(p, d, classes)
  {
    ChecksCoverAllPairs(p);
    if Validate(p).value.determinationDescent {
      forall d | d in p.determinations ensures exists classes :: UnionOfClasses(p, d, classes) {
        DescendedIsUnion(p, d);
      }
    }
    if forall d :: d in p.determinations ==> exists classes :: UnionOfClasses(p, d, classes) {
      forall l, r | l in p.states && r in p.states && SameClass(p, l, r) ensures Agrees(p.determinations, l, r) {
        forall d | d in p.determinations ensures l in d <==> r in d {
          var classes :| UnionOfClasses(p, d, classes);
        }
      }
    }
  }

  lemma DescendedIsUnion(p: Presentation, d: set<State>)
    requires p.Total() && d in p.determinations
    requires forall l, r :: l in p.states && r in p.states && SameClass(p, l, r) ==> Agrees(p.determinations, l, r)
    ensures exists classes :: UnionOfClasses(p, d, classes)
  {
    var classes := set s | s in p.states && s in d :: p.quotient[s];
    forall s | s in p.states ensures s in d <==> p.quotient[s] in classes {
      if p.quotient[s] in classes {
        var t :| t in p.states && t in d && p.quotient[t] == p.quotient[s];
        assert Agrees(p.determinations, s, t);
      }
    }
    assert UnionOfClasses(p, d, classes);
  }
}
