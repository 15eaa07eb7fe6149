/** The incrementally kept conflict set agrees with the all-pairs definition, and derived
    obligations stay one per fingerprint, in every reachable aggregate. */
module ClaimConflicts {
  import opened Sequences
  import opened InquiryModel
  import opened Transitions
  import opened EffectLifecycle

  /** The definition: the conflict of some two recorded claims that oppose each other. */
  ghost predicate OpposingPair(claims: seq<Claim>, c: Conflict) {
    exists a, b :: a in claims && b in claims && Opposing(a, b) && c == ConflictOf(a, b)
  }

  ghost predicate ConflictsExact(s: Inquiry) {
    forall c :: c in s.conflicts <==> OpposingPair(s.claims, c)
  }

  predicate HasDuty(s: Inquiry, c: Conflict) {
    FingerprintOf(ConflictObligation(c)) in Fingerprints(s)
  }

  predicate OnePerFingerprint(os: seq<Obligation>) {
    forall x, y :: x in os && y in os && FingerprintOf(x) == FingerprintOf(y) ==> x == y
  }

  ghost predicate ConflictInvariant(s: Inquiry) {
    ConflictsExact(s) && (forall c :: c in s.conflicts ==> HasDuty(s, c)) && OnePerFingerprint(s.obligations)
  }

  // ------------------------------------------------------------ conflict algebra

  lemma PairSymmetric(a: Id, b: Id)
    ensures SortedPair(a, b) == SortedPair(b, a)
  {
    BeforeIsTotal(a, b);
  }

  lemma ConflictSymmetric(a: Claim, b: Claim)
    requires Opposing(a, b)
    ensures Opposing(b, a) && ConflictOf(a, b) == ConflictOf(b, a)
  {
    PairSymmetric(a.id, b.id);
  }

  /** A conflict's identity determines its two claims. */
  lemma ConflictIdPins(a: Claim, b: Claim, x: Claim, y: Claim)
    requires ConflictOf(a, b).id == ConflictOf(x, y).id
    ensures (a.id == x.id && b.id == y.id) || (a.id == y.id && b.id == x.id)
  {
    var p, q := SortedPair(a.id, b.id), SortedPair(x.id, y.id);
    assert [p.0, p.1] == [q.0, q.1];
    assert [p.0, p.1][0] == [q.0, q.1][0] && [p.0, p.1][1] == [q.0, q.1][1];
  }

  lemma {:induction false} NewConflictsExact(recorded: seq<Claim>, claim: Claim, known: set<Id>, c: Conflict)
    requires DistinctKeys(recorded, ClaimId)
    requires forall a :: a in recorded ==> a.id != claim.id
    ensures c in NewConflicts(recorded, claim, known)
        <==> c.id !in known && exists a :: a in recorded && Opposing(a, claim) && c == ConflictOf(a, claim)
  {
    hide Opposing, ConflictOf;
    if recorded != [] {
      var head, rest := recorded[0], recorded[1..];
      assert recorded == [head] + rest;
      if Opposing(head, claim) && ConflictOf(head, claim).id !in known {
        NewConflictsExact(rest, claim, known + {ConflictOf(head, claim).id}, c);
        forall a | a in rest ensures ConflictOf(a, claim).id != ConflictOf(head, claim).id {
          assert ClaimId(a) != ClaimId(head);
          if ConflictOf(a, claim).id == ConflictOf(head, claim).id { ConflictIdPins(a, claim, head, claim); }
        }
      } else {
        NewConflictsExact(rest, claim, known, c);
      }
    }
  }

  /** The sorted bundle of a new claim: exactly its opposing pairs with the recorded claims. */
  lemma DerivedConflictsExact(s: Inquiry, claim: Claim, c: Conflict)
    requires DistinctKeys(s.claims, ClaimId) && ConflictsExact(s)
    requires forall a :: a in s.claims ==> a.id != claim.id
    ensures c in DerivedConflicts(s, claim)
        <==> exists a :: a in s.claims && Opposing(a, claim) && c == ConflictOf(a, claim)
  {
    hide Opposing, ConflictOf;
    SortPermutes(NewConflicts(s.claims, claim, ConflictIds(s)), ConflictBefore);
    NewConflictsExact(s.claims, claim, ConflictIds(s), c);
    forall a | a in s.claims && Opposing(a, claim) ensures ConflictOf(a, claim).id !in ConflictIds(s) {
      forall k | k in s.conflicts ensures k.id != ConflictOf(a, claim).id {
        assert OpposingPair(s.claims, k);
        var x, y :| x in s.claims && y in s.claims && Opposing(x, y) && k == ConflictOf(x, y);
        if k.id == ConflictOf(a, claim).id { ConflictIdPins(x, y, a, claim); }
      }
    }
  }

  /** Adding a claim adds exactly its opposing pairs to the all-pairs definition. */
  lemma PairsOfOneMore(claims: seq<Claim>, claim: Claim, c: Conflict)
    ensures OpposingPair(claims + [claim], c)
        <==> OpposingPair(claims, c) || exists a :: a in claims && Opposing(a, claim) && c == ConflictOf(a, claim)
  {
    hide ConflictOf;
    var all := claims + [claim];
    assert forall a :: a in all <==> a in claims || a == claim;
    if OpposingPair(all, c) {
      var a, b :| a in all && b in all && Opposing(a, b) && c == ConflictOf(a, b);
      ConflictSymmetric(a, b);
    }
  }

  lemma AdmissionExact(s: Inquiry, claim: Claim)
    requires DistinctKeys(s.claims, ClaimId) && ConflictsExact(s)
    requires forall a :: a in s.claims ==> a.id != claim.id
    ensures forall c :: c in s.conflicts + DerivedConflicts(s, claim) <==> OpposingPair(s.claims + [claim], c)
  {
    hide Opposing, ConflictOf, DerivedConflicts, OpposingPair;
    forall c ensures c in s.conflicts + DerivedConflicts(s, claim) <==> OpposingPair(s.claims + [claim], c) {
      DerivedConflictsExact(s, claim, c);
      PairsOfOneMore(s.claims, claim, c);
    }
  }

  // ------------------------------------------------------------ obligation fingerprints

  lemma {:induction false} NewObligationsCover(candidates: seq<Obligation>, known: set<Fingerprint>, o: Obligation)
    requires o in candidates
    ensures FingerprintOf(o) in known
        || exists x :: x in NewObligations(candidates, known) && FingerprintOf(x) == FingerprintOf(o)
  {
    hide FingerprintOf;
    var f := FingerprintOf(candidates[0]);
    var result := NewObligations(candidates, known);
    if f in known {
      if o != candidates[0] { NewObligationsCover(candidates[1..], known, o); }
    } else {
      assert candidates[0] in result;
      if o != candidates[0] {
        var rest := NewObligations(candidates[1..], known + {f});
        NewObligationsCover(candidates[1..], known + {f}, o);
        assert forall x :: x in rest ==> x in result;
      }
    }
  }

  lemma {:induction false} NewObligationsFresh(candidates: seq<Obligation>, known: set<Fingerprint>)
    ensures OnePerFingerprint(NewObligations(candidates, known))
    ensures forall x :: x in NewObligations(candidates, known) ==> FingerprintOf(x) !in known && x in candidates
  {
    hide FingerprintOf;
    if candidates != [] {
      var f := FingerprintOf(candidates[0]);
      NewObligationsFresh(candidates[1..], if f in known then known else known + {f});
    }
  }

  lemma DerivedObligationsFresh(s: Inquiry, claim: Claim)
    requires OnePerFingerprint(s.obligations)
    ensures OnePerFingerprint(s.obligations + DerivedObligations(s, claim))
  {
    hide Attack, DerivedConflicts, FingerprintOf;
    var candidates := Attack(s, claim) + ConflictObligations(DerivedConflicts(s, claim));
    var fresh' := NewObligations(candidates, Fingerprints(s));
    NewObligationsFresh(candidates, Fingerprints(s));
    SortPermutes(fresh', ObligationBefore);
    forall x | x in s.obligations ensures FingerprintOf(x) in Fingerprints(s) {}
  }

  lemma DerivedObligationsCover(s: Inquiry, claim: Claim, c: Conflict)
    requires c in DerivedConflicts(s, claim)
    ensures exists x ::
      x in s.obligations + DerivedObligations(s, claim) && FingerprintOf(x) == FingerprintOf(ConflictObligation(c))
  {
    hide Attack, DerivedConflicts, FingerprintOf;
    var conflicts := DerivedConflicts(s, claim);
    var duties := ConflictObligations(conflicts);
    var candidates := Attack(s, claim) + duties;
    var i :| 0 <= i < |conflicts| && conflicts[i] == c;
    assert duties[i] == ConflictObligation(c);
    assert ConflictObligation(c) in candidates;
    NewObligationsCover(candidates, Fingerprints(s), ConflictObligation(c));
    SortPermutes(NewObligations(candidates, Fingerprints(s)), ObligationBefore);
  }

  // ------------------------------------------------------------ every reachable aggregate

  lemma AdmissionKeeps(s: Inquiry, claim: Claim, t: Inquiry)
    requires DistinctKeys(s.claims, ClaimId) && ConflictInvariant(s) && FindBy(s.claims, ClaimId, claim.id).None?
    requires t.claims == s.claims + [claim] && t.conflicts == s.conflicts + DerivedConflicts(s, claim)
    requires t.obligations == s.obligations + DerivedObligations(s, claim)
    ensures ConflictInvariant(t)
  {
    hide Opposing, OpposingPair, DerivedConflicts, DerivedObligations, FingerprintOf, ConflictObligation;
    forall a | a in s.claims ensures a.id != claim.id { assert ClaimId(a) != claim.id; }
    AdmissionExact(s, claim);
    DerivedObligationsFresh(s, claim);
    forall c | c in t.conflicts ensures HasDuty(t, c) {
      if c in s.conflicts {
        assert HasDuty(s, c);
      } else {
        DerivedObligationsCover(s, claim, c);
      }
    }
  }

  lemma OpeningKeeps(s: Inquiry, o: Obligation, t: Inquiry)
    requires ConflictInvariant(s) && FingerprintOf(o) !in Fingerprints(s)
    requires t.claims == s.claims && t.conflicts == s.conflicts && t.obligations == s.obligations + [o]
    ensures ConflictInvariant(t)
  {
    hide OpposingPair, FingerprintOf, ConflictObligation;
    forall c | c in t.conflicts ensures HasDuty(t, c) { assert HasDuty(s, c); }
    forall x | x in s.obligations ensures FingerprintOf(x) in Fingerprints(s) {}
  }

  lemma UnchangedKeeps(s: Inquiry, t: Inquiry)
    requires ConflictInvariant(s)
    requires t.claims == s.claims && t.conflicts == s.conflicts && t.obligations == s.obligations
    ensures ConflictInvariant(t)
  {
    hide OpposingPair, FingerprintOf, ConflictObligation;
    forall c | c in t.conflicts ensures HasDuty(t, c) { assert HasDuty(s, c); }
  }

  /** What one reduction does to the records outside the effect requests. */
  lemma RecordFrame(s: Inquiry, e: Event, t: Inquiry)
    requires Evolve(Active(s), e) == Some(Active(t))
    ensures e.command.action.Effect() ==>
              t.plans == s.plans && t.claims == s.claims && t.conflicts == s.conflicts && t.obligations == s.obligations
              && t.dispositions == s.dispositions && t.guards == s.guards && t.warrants == s.warrants
    ensures !e.command.action.Effect() ==>
              Judge(s, e.command.action).Fresh? && e == EventFor(s, e.command) && t == RecordStep(s, e)
  {
    hide Lifecycle, Judge, EventFor, Target, Advance;
  }

  lemma EvolveKeeps(s: Inquiry, e: Event, t: Inquiry)
    requires Sound(s) && ConflictInvariant(s) && Evolve(Active(s), e) == Some(Active(t))
    ensures ConflictInvariant(t)
  {
    hide Lifecycle, Evolve, ConflictInvariant, DerivedConflicts, DerivedObligations, Fingerprints, FindBy;
    RecordFrame(s, e, t);
    SoundRules(s);
    match e.command.action
    case AdmitClaim(claim) => AdmissionKeeps(s, claim, t);
    case OpenObligation(o) => OpeningKeeps(s, o, t);
    case _ => UnchangedKeeps(s, t);
  }

  lemma {:induction false} FoldKeeps(s: Inquiry, events: seq<Event>, t: Inquiry)
    requires Sound(s) && ConflictInvariant(s) && Fold(Active(s), events) == Some(Active(t))
    ensures ConflictInvariant(t)
    decreases events
  {
    hide Sound, Evolve, ConflictInvariant;
    if events != [] {
      EvolveActive(Active(s), events[0]);
      var mid := Evolve(Active(s), events[0]).value.inquiry;
      EvolveSound(s, events[0], mid);
      EvolveKeeps(s, events[0], mid);
      FoldKeeps(mid, events[1..], t);
    }
  }

  lemma StartKeeps(e: Event, s: Inquiry)
    requires Evolve(Unstarted, e) == Some(Active(s))
    ensures ConflictInvariant(s)
  {}

  lemma LedgerConflicts(events: seq<Event>, s: Inquiry)
    requires Fold(Unstarted, events) == Some(Active(s))
    ensures ConflictInvariant(s) && Sound(s)
  {
    hide Sound, Evolve, ConflictInvariant;
    LedgerSound(events, s);
    EvolveActive(Unstarted, events[0]);
    var first := Evolve(Unstarted, events[0]).value.inquiry;
    StartSound(events[0], first);
    StartKeeps(events[0], first);
    FoldKeeps(first, events[1..], s);
  }

  /** In every reachable aggregate the conflicts are exactly the opposing pairs of claims,
      each recorded once and each with one obligation of the matching fingerprint; no two
      obligations share a fingerprint. */
  lemma ConflictsAreOpposingPairs(events: seq<Event>, s: Inquiry)
    requires Fold(Unstarted, events) == Some(Active(s))
    ensures forall c :: c in s.conflicts <==> OpposingPair(s.claims, c)
    ensures Distinct(s.conflicts)
    ensures forall c :: c in s.conflicts ==>
              exists o :: o in s.obligations && FingerprintOf(o) == FingerprintOf(ConflictObligation(c))
    ensures forall i, j :: 0 <= i < j < |s.obligations| ==>
        FingerprintOf(s.obligations[i]) != FingerprintOf(s.obligations[j])
  {
    hide Lifecycle, Fold, OpposingPair, FingerprintOf, ConflictObligation;
    LedgerConflicts(events, s);
    SoundRules(s);
    forall i, j | 0 <= i < j < |s.conflicts| ensures s.conflicts[i] != s.conflicts[j] {
      assert ConflictId(s.conflicts[i]) != ConflictId(s.conflicts[j]);
    }
    forall i, j | 0 <= i < j < |s.obligations|
      ensures FingerprintOf(s.obligations[i]) != FingerprintOf(s.obligations[j])
    {
      assert ObligationId(s.obligations[i]) != ObligationId(s.obligations[j]);
      assert s.obligations[i] in s.obligations && s.obligations[j] in s.obligations;
    }
    forall c | c in s.conflicts
      ensures exists o :: o in s.obligations && FingerprintOf(o) == FingerprintOf(ConflictObligation(c))
    {
      assert HasDuty(s, c);
    }
  }

  lemma SamePairs(a: seq<Claim>, b: seq<Claim>, c: Conflict)
    requires Elements(a) == Elements(b)
    ensures OpposingPair(a, c) <==> OpposingPair(b, c)
  {
    forall x ensures x in a <==> x in b { assert x in Elements(a) <==> x in Elements(b); }
  }

  /** Two runs that admitted the same claims, in whatever order, recorded the same conflicts. */
  lemma ConflictsIgnoreAdmissionOrder(first: seq<Event>, s: Inquiry, second: seq<Event>, t: Inquiry)
    requires Fold(Unstarted, first) == Some(Active(s)) && Fold(Unstarted, second) == Some(Active(t))
    requires Elements(s.claims) == Elements(t.claims)
    ensures multiset(s.conflicts) == multiset(t.conflicts)
  {
    hide Fold, OpposingPair, FingerprintOf, ConflictObligation;
    ConflictsAreOpposingPairs(first, s);
    ConflictsAreOpposingPairs(second, t);
    forall c ensures c in Elements(s.conflicts) <==> c in Elements(t.conflicts) {
      SamePairs(s.claims, t.claims, c);
    }
    SameMembersPermute(s.conflicts, t.conflicts);
  }

  // ------------------------------------------------------------ when the reducer accepts an admission

  lemma SortKeepsKeys<T>(s: seq<T>, key: T -> Id, le: (T, T) -> bool)
    requires DistinctKeys(s, key)
    ensures DistinctKeys(SortBy(s, le), key)
  {
    var t := SortBy(s, le);
    SortPermutes(s, le);
    forall i, j | 0 <= i < j < |s| ensures s[i] != s[j] { assert key(s[i]) != key(s[j]); }
    DistinctMultiset(s, t);
    forall i, j | 0 <= i < j < |t| ensures key(t[i]) != key(t[j]) {
      assert t[i] in multiset(t) && t[j] in multiset(t) && t[i] != t[j];
      OnlyOne(s, key, t[i], t[j]);
    }
  }

  lemma {:induction false} NewConflictsKeys(recorded: seq<Claim>, claim: Claim, known: set<Id>)
    ensures DistinctKeys(NewConflicts(recorded, claim, known), ConflictId)
    ensures forall c :: c in NewConflicts(recorded, claim, known) ==>
        c.id !in known && c.id.Digest? && c.id.namespace.ConflictName?
  {
    hide Opposing;
    if recorded != [] {
      var c := StructuralConflict(recorded[0], claim);
      if c.Some? && c.value.id !in known {
        var rest := NewConflicts(recorded[1..], claim, known + {c.value.id});
        NewConflictsKeys(recorded[1..], claim, known + {c.value.id});
        AppendDistinct([c.value], rest, ConflictId);
      } else {
        NewConflictsKeys(recorded[1..], claim, known);
      }
    }
  }

  lemma {:induction false} NewObligationsKeys(candidates: seq<Obligation>, known: set<Fingerprint>)
    requires DistinctKeys(candidates, ObligationId)
    ensures DistinctKeys(NewObligations(candidates, known), ObligationId)
  {
    hide FingerprintOf;
    if candidates != [] {
      var f := FingerprintOf(candidates[0]);
      var more := if f in known then known else known + {f};
      var rest := NewObligations(candidates[1..], more);
      NewObligationsKeys(candidates[1..], more);
      NewObligationsFresh(candidates[1..], more);
      if f !in known { AppendDistinct([candidates[0]], rest, ObligationId); }
    }
  }

  lemma DerivedConflictKeys(s: Inquiry, claim: Claim)
    ensures DistinctKeys(DerivedConflicts(s, claim), ConflictId)
    ensures forall c :: c in DerivedConflicts(s, claim) ==> c.id !in ConflictIds(s)
  {
    hide SortBy, NewConflicts;
    var fresh' := NewConflicts(s.claims, claim, ConflictIds(s));
    NewConflictsKeys(s.claims, claim, ConflictIds(s));
    SortKeepsKeys(fresh', ConflictId, ConflictBefore);
    SortPermutes(fresh', ConflictBefore);
  }

  lemma DerivedObligationKeys(s: Inquiry, claim: Claim)
    ensures DistinctKeys(DerivedObligations(s, claim), ObligationId)
  {
    hide SortBy, NewObligations, DerivedConflicts, Discharged;
    var conflicts := DerivedConflicts(s, claim);
    DerivedConflictKeys(s, claim);
    var duties := ConflictObligations(conflicts);
    forall i, j | 0 <= i < j < |duties| ensures ObligationId(duties[i]) != ObligationId(duties[j]) {
      assert ConflictId(conflicts[i]) != ConflictId(conflicts[j]);
      assert [conflicts[i].id][0] != [conflicts[j].id][0];
    }
    AppendDistinct(Attack(s, claim), duties, ObligationId);
    NewObligationsKeys(Attack(s, claim) + duties, Fingerprints(s));
    SortKeepsKeys(NewObligations(Attack(s, claim) + duties, Fingerprints(s)), ObligationId, ObligationBefore);
  }

  /** No recorded obligation already uses the identity of a derived one. */
  predicate DerivedIdsFresh(s: Inquiry, claim: Claim) {
    forall o :: o in DerivedObligations(s, claim) ==> FindBy(s.obligations, ObligationId, o.id).None?
  }

  lemma PlansKeptByGrowth(s: Inquiry, t: Inquiry)
    requires forall p :: p in s.plans ==> PlanRules(s, p)
    requires t.plans == s.plans && t.context == s.context && s.obligations <= t.obligations
    ensures forall p :: p in t.plans ==> PlanRules(t, p)
  {
    forall p | p in t.plans ensures PlanRules(t, p) {
      assert PlanRules(s, p);
      if p.selection.Some? {
        FindPrefix(s.obligations, t.obligations, ObligationId, p.selection.value.obligationId);
      }
    }
  }

  lemma ConflictsReferClaims(claims: seq<Claim>, c: Conflict)
    requires OpposingPair(claims, c)
    ensures FindBy(claims, ClaimId, c.first).Some? && FindBy(claims, ClaimId, c.second).Some?
  {
    var a, b :| a in claims && b in claims && Opposing(a, b) && c == ConflictOf(a, b);
    assert ClaimId(a) == a.id && ClaimId(b) == b.id;
  }

  lemma AdmissionRecordRules(s: Inquiry, claim: Claim, t: Inquiry)
    requires Sound(s) && ConflictInvariant(s) && ConflictInvariant(t) && FindBy(s.claims, ClaimId, claim.id).None?
    requires t == s.(sequence := s.sequence + 1, claims := s.claims + [claim],
                     conflicts := s.conflicts + DerivedConflicts(s, claim),
                     obligations := s.obligations + DerivedObligations(s, claim))
    ensures RecordRules(t) <==> DerivedIdsFresh(s, claim)
  {
    hide EffectRules, DerivedConflicts, DerivedObligations, PlanRules, OpposingPair, FindBy, HasDuty, Fingerprints;
    SoundRules(s);
    DerivedConflictKeys(s, claim);
    DerivedObligationKeys(s, claim);
    AppendDistinct(s.claims, [claim], ClaimId);
    forall c | c in s.conflicts ensures c.id in ConflictIds(s) {}
    AppendDistinct(s.conflicts, DerivedConflicts(s, claim), ConflictId);
    forall c | c in t.conflicts
      ensures FindBy(t.claims, ClaimId, c.first).Some? && FindBy(t.claims, ClaimId, c.second).Some?
    {
      ConflictsReferClaims(t.claims, c);
    }
    forall d | d in t.dispositions ensures FindBy(t.obligations, ObligationId, d.obligationId).Some? {
      FindPrefix(s.obligations, t.obligations, ObligationId, d.obligationId);
    }
    PlansKeptByGrowth(s, t);
    FreshKeysIff(s.obligations, DerivedObligations(s, claim), ObligationId);
  }

  lemma FreshKeysIff<T>(s: seq<T>, more: seq<T>, key: T -> Id)
    requires DistinctKeys(s, key) && DistinctKeys(more, key)
    ensures DistinctKeys(s + more, key) <==> forall o :: o in more ==> FindBy(s, key, key(o)).None?
  {
    if DistinctKeys(s + more, key) {
      forall o | o in more ensures FindBy(s, key, key(o)).None? {
        var r := FindBy(s, key, key(o));
        if r.Some? { KeysDiffer(s, more, key, r.value, o); }
      }
    }
    if forall o :: o in more ==> FindBy(s, key, key(o)).None? { AppendDistinct(s, more, key); }
  }

  /** The reducer accepts an admission the decider emitted exactly when no derived obligation
      reuses a recorded identity; the decider itself does not check this. */
  lemma AdmissionAcceptedIff(events: seq<Event>, s: Inquiry, c: Command)
    requires Fold(Unstarted, events) == Some(Active(s)) && c.action.AdmitClaim? && Decide(Active(s), c).Emits?
    ensures Evolve(Active(s), Decide(Active(s), c).event).Some? <==> DerivedIdsFresh(s, c.action.claim)
  {
    hide Fold, DerivedConflicts, DerivedObligations, DerivedIdsFresh, RecordRules, EffectRules, ConflictInvariant,
      Sound, FindBy;
    var claim := c.action.claim;
    var e := Decide(Active(s), c).event;
    var t := RecordStep(s, e);
    LedgerConflicts(events, s);
    SoundRules(s);
    assert DistinctKeys(s.claims, ClaimId) by { ClaimKeys(s); }
    AdmissionKeeps(s, claim, t);
    AdmissionRecordRules(s, claim, t);
    SameEffects(s, t);
  }

  lemma ClaimKeys(s: Inquiry)
    requires RecordRules(s)
    ensures DistinctKeys(s.claims, ClaimId)
  {}

  lemma SameEffects(s: Inquiry, t: Inquiry)
    requires EffectRules(s) && t.requests == s.requests && t.plans == s.plans
    ensures EffectRules(t)
  {}

  function StartEvent(inquiry: Id, manifest: Id, context: Context): Event {
    Event(Command(Text(0), inquiry, 0, StartInquiry(manifest, context)), [], [])
  }

  function Necessary(id: Id, proposition: Option<Id>, scope: Scope): Claim {
    Claim(id, Necessity, Text(0), scope, true, proposition, Positive, Text(0))
  }

  lemma SortOne<T>(x: T, le: (T, T) -> bool)
    ensures SortBy([x], le) == [x]
  {
    assert [x][1..] == [];
  }

  lemma AttackOfNecessity(s: Inquiry, id: Id, proposition: Option<Id>, scope: Scope)
    requires s.conflicts == [] && s.discharged == {} && s.obligations == [] && s.claims == []
    ensures DerivedConflicts(s, Necessary(id, proposition, scope)) == []
    ensures DerivedObligations(s, Necessary(id, proposition, scope))
         == [MandatoryAttack(Necessary(id, proposition, scope)).value]
  {
    var attack := Attack(s, Necessary(id, proposition, scope));
    assert attack == [MandatoryAttack(Necessary(id, proposition, scope)).value];
    assert attack[1..] == [];
    assert attack + ConflictObligations(DerivedConflicts(s, Necessary(id, proposition, scope))) == attack;
    assert NewObligations(attack, Fingerprints(s)) == attack + NewObligations([], {FingerprintOf(attack[0])});
    SortOne(attack[0], ObligationBefore);
  }

  /** The identity of an attack omits the argument name: after a claim without a proposition,
      a claim about a proposition named like it is emitted by the decider and refused by the reducer. */
  lemma AttackIdentitiesCollide(inquiry: Id, manifest: Id, context: Context, name: Id, other: Id)
    returns (events: seq<Event>, s: Inquiry, c: Command)
    requires name != other
    ensures Fold(Unstarted, events) == Some(Active(s))
    ensures Decide(Active(s), c).Emits? && Evolve(Active(s), Decide(Active(s), c).event).None?
    ensures c.action == AdmitClaim(Necessary(other, Some(name), context.scope))
  {
    hide Lifecycle, DerivedConflicts, DerivedObligations, Fold;
    var start := StartEvent(inquiry, manifest, context);
    var s0 := Evolve(Unstarted, start).value.inquiry;
    FoldLast(Unstarted, [], start);
    assert [] + [start] == [start] && Fold(Unstarted, []) == Some(Unstarted) by { EmptyFold(); }
    var first := Necessary(name, None, context.scope);
    var admit := Command(Text(1), inquiry, 0, AdmitClaim(first));
    AttackOfNecessity(s0, name, None, context.scope);
    AdmissionAcceptedIff([start], s0, admit);
    var e := Decide(Active(s0), admit).event;
    events := [start] + [e];
    FoldLast(Unstarted, [start], e);
    s := Evolve(Active(s0), e).value.inquiry;
    c := Command(Text(2), inquiry, 0, AdmitClaim(Necessary(other, Some(name), context.scope)));
    SecondAttackCollides(s, name, other, context.scope);
    AdmissionAcceptedIff(events, s, c);
  }

  lemma EmptyFold()
    ensures Fold(Unstarted, []) == Some(Unstarted)
  {}

  lemma SecondAttackCollides(s: Inquiry, name: Id, other: Id, scope: Scope)
    requires s.claims == [Necessary(name, None, scope)] && s.discharged == {} && s.conflicts == []
    requires s.obligations == [MandatoryAttack(Necessary(name, None, scope)).value]
    ensures !DerivedIdsFresh(s, Necessary(other, Some(name), scope))
  {
    hide SortBy;
    var claim := Necessary(other, Some(name), scope);
    var attack := MandatoryAttack(claim).value;
    var candidates := Attack(s, claim) + ConflictObligations(DerivedConflicts(s, claim));
    assert candidates[0] == attack;
    assert multiset(attack.args) != multiset(s.obligations[0].args) by {
      assert attack.args[0] in multiset(attack.args) && attack.args[0] !in multiset(s.obligations[0].args);
    }
    assert FingerprintOf(attack) !in Fingerprints(s);
    var kept := NewObligations(candidates, Fingerprints(s));
    assert kept[0] == attack;
    SortPermutes(kept, ObligationBefore);
    assert attack in DerivedObligations(s, claim);
    assert ObligationId(s.obligations[0]) == attack.id && s.obligations[0] in s.obligations;
  }
}
