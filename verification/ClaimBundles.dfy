/** The bundle an admission derives: canonical order, independence of history, and the standing
    falsification pressure on modal claims. */
module ClaimBundles {
  import opened Sequences
  import opened InquiryModel
  import opened Transitions
  import opened EffectLifecycle
  import opened ClaimConflicts

  lemma ConflictOrder(s: seq<Conflict>)
    ensures Preorders(ConflictBefore, s)
    ensures DistinctKeys(s, ConflictId) ==> Antisymmetric(ConflictBefore, s)
  {
    forall x, y | x in s && y in s ensures ConflictBefore(x, y) || ConflictBefore(y, x) { BeforeIsTotal(x.id, y.id); }
    forall x, y, z | x in s && y in s && z in s && ConflictBefore(x, y) && ConflictBefore(y, z)
      ensures ConflictBefore(x, z)
    {
      BeforeTransitive(x.id, y.id, z.id);
    }
    if DistinctKeys(s, ConflictId) {
      forall x, y | x in s && y in s && ConflictBefore(x, y) && ConflictBefore(y, x) ensures x == y {
        BeforeIsTotal(x.id, y.id);
        OnlyOne(s, ConflictId, x, y);
      }
    }
  }

  lemma ObligationOrder(s: seq<Obligation>)
    ensures Preorders(ObligationBefore, s)
  {
    forall x, y | x in s && y in s ensures ObligationBefore(x, y) || ObligationBefore(y, x) {
      BeforeIsTotal(x.id, y.id);
    }
    forall x, y, z | x in s && y in s && z in s && ObligationBefore(x, y) && ObligationBefore(y, z)
      ensures ObligationBefore(x, z)
    {
      BeforeTransitive(x.id, y.id, z.id);
    }
  }

  /** Both derived lists come in strictly ascending identity. */
  lemma BundleIsOrdered(s: Inquiry, claim: Claim)
    ensures Sorted(DerivedConflicts(s, claim), ConflictBefore) && DistinctKeys(DerivedConflicts(s, claim), ConflictId)
    ensures Sorted(DerivedObligations(s, claim), ObligationBefore)
    ensures DistinctKeys(DerivedObligations(s, claim), ObligationId)
  {
    hide SortBy, Sorted, NewConflicts, NewObligations, Attack;
    ConflictOrder(NewConflicts(s.claims, claim, ConflictIds(s)));
    SortSorts(NewConflicts(s.claims, claim, ConflictIds(s)), ConflictBefore);
    DerivedConflictKeys(s, claim);
    var candidates := Attack(s, claim) + ConflictObligations(DerivedConflicts(s, claim));
    ObligationOrder(NewObligations(candidates, Fingerprints(s)));
    SortSorts(NewObligations(candidates, Fingerprints(s)), ObligationBefore);
    DerivedObligationKeys(s, claim);
  }

  /** Two reachable aggregates with the same claims derive the same conflicts for a new claim,
      in the same order, whatever their histories. */
  lemma ConflictBundleIgnoresHistory(first: seq<Event>, s: Inquiry, second: seq<Event>, t: Inquiry, claim: Claim)
    requires Fold(Unstarted, first) == Some(Active(s)) && Fold(Unstarted, second) == Some(Active(t))
    requires Elements(s.claims) == Elements(t.claims) && FindBy(s.claims, ClaimId, claim.id).None?
    ensures DerivedConflicts(s, claim) == DerivedConflicts(t, claim)
  {
    hide Fold, DerivedConflicts, Opposing, ConflictOf, OpposingPair, DerivedObligations;
    LedgerConflicts(first, s);
    LedgerConflicts(second, t);
    BundleIsOrdered(s, claim);
    BundleIsOrdered(t, claim);
    SameBundle(s, t, claim);
    var a, b := DerivedConflicts(s, claim), DerivedConflicts(t, claim);
    ConflictOrder(a);
    SortedUnique(a, b, ConflictBefore);
  }

  lemma SameBundle(s: Inquiry, t: Inquiry, claim: Claim)
    requires Sound(s) && Sound(t) && ConflictsExact(s) && ConflictsExact(t)
    requires Elements(s.claims) == Elements(t.claims) && FindBy(s.claims, ClaimId, claim.id).None?
    requires DistinctKeys(DerivedConflicts(s, claim), ConflictId)
    requires DistinctKeys(DerivedConflicts(t, claim), ConflictId)
    ensures multiset(DerivedConflicts(s, claim)) == multiset(DerivedConflicts(t, claim))
  {
    hide DerivedConflicts, Opposing, ConflictOf, ConflictsExact, EffectRules;
    SoundRules(s);
    SoundRules(t);
    forall x ensures x in s.claims <==> x in t.claims { assert x in Elements(s.claims) <==> x in Elements(t.claims); }
    forall a | a in s.claims ensures a.id != claim.id { assert ClaimId(a) != claim.id; }
    var a, b := DerivedConflicts(s, claim), DerivedConflicts(t, claim);
    forall c ensures c in Elements(a) <==> c in Elements(b) {
      DerivedConflictsExact(s, claim, c);
      DerivedConflictsExact(t, claim, c);
    }
    KeysMakeDistinct(a);
    KeysMakeDistinct(b);
    SameMembersPermute(a, b);
  }

  lemma KeysMakeDistinct(s: seq<Conflict>)
    requires DistinctKeys(s, ConflictId)
    ensures Distinct(s)
  {
    forall i, j | 0 <= i < j < |s| ensures s[i] != s[j] { assert ConflictId(s[i]) != ConflictId(s[j]); }
  }

  // ------------------------------------------------------------ mandatory attack

  predicate Pressed(s: Inquiry, attack: Obligation) { FingerprintOf(attack) in Fingerprints(s) }

  lemma AdmissionPresses(s: Inquiry, claim: Claim, t: Inquiry)
    requires t.obligations == s.obligations + DerivedObligations(s, claim)
    requires MandatoryAttack(claim).Some? && !Discharged(s, claim)
    ensures Pressed(t, MandatoryAttack(claim).value)
  {
    hide DerivedConflicts, FingerprintOf, MandatoryAttack, SortBy;
    var attack := MandatoryAttack(claim).value;
    var candidates := Attack(s, claim) + ConflictObligations(DerivedConflicts(s, claim));
    assert candidates[0] == attack;
    NewObligationsCover(candidates, Fingerprints(s), attack);
    SortPermutes(NewObligations(candidates, Fingerprints(s)), ObligationBefore);
  }

  lemma PressurePersists(s: Inquiry, t: Inquiry, attack: Obligation)
    requires Pressed(s, attack) && s.obligations <= t.obligations
    ensures Pressed(t, attack)
  {
    hide FingerprintOf;
    var o :| o in s.obligations && FingerprintOf(o) == FingerprintOf(attack);
    assert o in t.obligations;
  }

  /** Admitting a modal claim that is not negative puts its falsification obligation on record for
      good, unless an active hard lemma had already discharged it when the claim was admitted. */
  lemma ModalClaimsStayUnderAttack(before: seq<Event>, e: Event, after: seq<Event>, t: Inquiry)
    requires Fold(Unstarted, before + [e] + after) == Some(Active(t))
    requires e.command.action.AdmitClaim? && MandatoryAttack(e.command.action.claim).Some?
    ensures exists s :: Fold(Unstarted, before) == Some(Active(s))
              && (Discharged(s, e.command.action.claim) || Pressed(t, MandatoryAttack(e.command.action.claim).value))
  {
    hide Evolve, Moves, Sound, MandatoryAttack, Discharged, Pressed, DerivedObligations, DerivedConflicts, Judge;
    FoldSplits(Unstarted, before + [e], after);
    FoldLast(Unstarted, before, e);
    var a := Fold(Unstarted, before).value;
    ClaimsNeedAnInquiry(a, e);
    EvolveActive(a, e);
    var s, u := a.inquiry, Evolve(a, e).value.inquiry;
    RecordFrame(s, e, u);
    if !Discharged(s, e.command.action.claim) {
      AdmissionPresses(s, e.command.action.claim, u);
      LedgerMoves(before + [e], u, after, t);
      ObligationsGrow(u, t);
      PressurePersists(u, t, MandatoryAttack(e.command.action.claim).value);
    }
  }

  lemma ObligationsGrow(s: Inquiry, t: Inquiry)
    requires Moves(s, t)
    ensures s.obligations <= t.obligations
  {}

  lemma ClaimsNeedAnInquiry(a: Aggregate, e: Event)
    requires Evolve(a, e).Some? && e.command.action.AdmitClaim?
    ensures a.Active?
  {}
}
