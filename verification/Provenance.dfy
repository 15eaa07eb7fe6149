/** Where the records of a reachable aggregate come from: one scope, provisional claims, an
    acyclic parent relation, and plans that selected open obligations. */
module Provenance {
  import opened Sequences
  import opened InquiryModel
  import opened Transitions
  import opened EffectLifecycle
  import opened ClaimConflicts
  import opened Standing

  /** The obligation at `k` begins open in the inquiry's scope, after all its parents. */
  predicate Grounded(os: seq<Obligation>, scope: Scope, k: nat)
    requires k < |os|
  {
    && os[k].scope == scope && os[k].status.Open?
    && forall p :: p in os[k].parents ==> exists j :: 0 <= j < k && os[j].id == p
  }

  predicate AllGrounded(os: seq<Obligation>, scope: Scope) { forall k :: 0 <= k < |os| ==> Grounded(os, scope, k) }

  predicate ProvenanceInvariant(s: Inquiry) {
    && (forall c :: c in s.claims ==> c.provisional && c.scope == s.context.scope)
    && AllGrounded(s.obligations, s.context.scope)
    && (forall g :: g in s.guards ==> g.scope == s.context.scope)
  }

  lemma GroundedAppend(os: seq<Obligation>, more: seq<Obligation>, scope: Scope)
    requires AllGrounded(os, scope)
    requires forall o :: o in more ==> o.scope == scope && o.status.Open?
    requires forall o, p :: o in more && p in o.parents ==> FindBy(os, ObligationId, p).Some?
    ensures AllGrounded(os + more, scope)
  {
    var all := os + more;
    forall k | 0 <= k < |all| ensures Grounded(all, scope, k) {
      if k < |os| {
        EarlierStays(os, more, scope, k);
      } else {
        assert all[k] in more;
        forall p | p in all[k].parents ensures exists j :: 0 <= j < k && all[j].id == p {
          var o := FindBy(os, ObligationId, p).value;
          var j :| 0 <= j < |os| && os[j] == o;
          assert all[j].id == p;
        }
      }
    }
  }

  lemma EarlierStays(os: seq<Obligation>, more: seq<Obligation>, scope: Scope, k: nat)
    requires k < |os| && Grounded(os, scope, k)
    ensures Grounded(os + more, scope, k)
  {
    forall p | p in os[k].parents ensures exists j :: 0 <= j < k && (os + more)[j].id == p {
      var j :| 0 <= j < k && os[j].id == p;
      assert (os + more)[j].id == p;
    }
  }

  lemma {:induction false} NewConflictScopes(recorded: seq<Claim>, claim: Claim, known: set<Id>)
    ensures forall c :: c in NewConflicts(recorded, claim, known) ==> c.scope == claim.scope
  {
    hide SortedPair;
    if recorded != [] {
      var c := StructuralConflict(recorded[0], claim);
      NewConflictScopes(recorded[1..], claim, if c.Some? && c.value.id !in known then known + {c.value.id} else known);
    }
  }

  /** Derived obligations are open, parentless and in the claim's scope. */
  lemma DerivedAreGrounded(s: Inquiry, claim: Claim)
    ensures forall o :: o in DerivedObligations(s, claim) ==>
        o.scope == claim.scope && o.status.Open? && o.parents == []
  {
    hide SortBy, FingerprintOf, Discharged, NewConflicts;
    var fresh' := NewConflicts(s.claims, claim, ConflictIds(s));
    var conflicts := DerivedConflicts(s, claim);
    NewConflictScopes(s.claims, claim, ConflictIds(s));
    SortPermutes(fresh', ConflictBefore);
    forall c | c in conflicts ensures c.scope == claim.scope {}
    var candidates := Attack(s, claim) + ConflictObligations(conflicts);
    forall o | o in candidates ensures o.scope == claim.scope && o.status.Open? && o.parents == [] {
      if o !in Attack(s, claim) {
        var i :| 0 <= i < |conflicts| && ConflictObligations(conflicts)[i] == o;
        assert conflicts[i] in conflicts;
      }
    }
    NewObligationsFresh(candidates, Fingerprints(s));
    SortPermutes(NewObligations(candidates, Fingerprints(s)), ObligationBefore);
  }

  lemma EvolveKeepsProvenance(s: Inquiry, e: Event, t: Inquiry)
    requires Sound(s) && ProvenanceInvariant(s) && Evolve(Active(s), e) == Some(Active(t))
    ensures ProvenanceInvariant(t)
  {
    hide Lifecycle, Evolve, DerivedConflicts, DerivedObligations, Fingerprints, AllGrounded, FindBy, LatestGuard,
      RequestsMove;
    RecordFrame(s, e, t);
    EvolveMoves(s, e, t);
    match e.command.action
    case AdmitClaim(claim) =>
      DerivedAreGrounded(s, claim);
      GroundedAppend(s.obligations, DerivedObligations(s, claim), s.context.scope);
    case OpenObligation(o) => GroundedAppend(s.obligations, [o], s.context.scope);
    case _ =>
  }

  lemma {:induction false} FoldKeepsProvenance(s: Inquiry, events: seq<Event>, t: Inquiry)
    requires Sound(s) && ProvenanceInvariant(s) && Fold(Active(s), events) == Some(Active(t))
    ensures ProvenanceInvariant(t)
    decreases events
  {
    hide Sound, Evolve, ProvenanceInvariant;
    if events != [] {
      EvolveActive(Active(s), events[0]);
      var mid := Evolve(Active(s), events[0]).value.inquiry;
      EvolveSound(s, events[0], mid);
      EvolveKeepsProvenance(s, events[0], mid);
      FoldKeepsProvenance(mid, events[1..], t);
    }
  }

  lemma StartProvenance(e: Event, s: Inquiry)
    requires Evolve(Unstarted, e) == Some(Active(s))
    ensures ProvenanceInvariant(s)
  {}

  /** In every reachable aggregate all claims are provisional and in the one scope of the inquiry,
      and every obligation opened in that scope after all of its parents, so that the parent
      relation has no cycle. */
  lemma RecordsAreGrounded(events: seq<Event>, s: Inquiry)
    requires Fold(Unstarted, events) == Some(Active(s))
    ensures forall c :: c in s.claims ==> c.provisional && c.scope == s.context.scope
    ensures forall g :: g in s.guards ==> g.scope == s.context.scope
    ensures forall k :: 0 <= k < |s.obligations| ==>
              s.obligations[k].scope == s.context.scope && s.obligations[k].status.Open?
              && forall p :: p in s.obligations[k].parents ==> exists j :: 0 <= j < k && s.obligations[j].id == p
  {
    hide Sound, Evolve;
    EvolveActive(Unstarted, events[0]);
    var first := Evolve(Unstarted, events[0]).value.inquiry;
    StartSound(events[0], first);
    StartProvenance(events[0], first);
    FoldKeepsProvenance(first, events[1..], s);
    forall k | 0 <= k < |s.obligations|
      ensures s.obligations[k].scope == s.context.scope && s.obligations[k].status.Open?
              && forall p :: p in s.obligations[k].parents ==> exists j :: 0 <= j < k && s.obligations[j].id == p
    {
      assert Grounded(s.obligations, s.context.scope, k);
    }
  }

  /** A ready plan in the ledger selected, when it was logged, an obligation that was open and
      whose exact fingerprint and revision its attempt key names. */
  lemma ReadyPlansSelectedOpenObligations(events: seq<Event>, t: Inquiry, k: nat)
    requires Fold(Unstarted, events) == Some(Active(t)) && k < |events|
    requires events[k].command.action.RecordStepPlan? && events[k].command.action.plan.selection.Some?
    ensures var chosen := events[k].command.action.plan.selection.value;
      exists s, o :: Fold(Unstarted, events[..k]) == Some(Active(s)) && SelectsOpen(s, o, chosen)
  {
    hide Evolve, SelectsOpen, Judge;
    var before, e, after := events[..k], events[k], events[k+1..];
    assert events == (before + [e]) + after;
    FoldSplits(Unstarted, before + [e], after);
    FoldLast(Unstarted, before, e);
    var a := Fold(Unstarted, before).value;
    PlansNeedAnInquiry(a, e);
    EvolveActive(a, e);
    RecordFrame(a.inquiry, e, Evolve(a, e).value.inquiry);
    var o := FreshPlanSelectsOpen(a.inquiry, e.command.action);
  }

  lemma FreshPlanSelectsOpen(s: Inquiry, a: Action) returns (o: Obligation)
    requires a.RecordStepPlan? && a.plan.selection.Some? && Judge(s, a).Fresh?
    ensures SelectsOpen(s, o, a.plan.selection.value)
  {
    hide CurrentStatus, FingerprintOf;
    o := FindBy(s.obligations, ObligationId, a.plan.selection.value.obligationId).value;
  }

  /** The selection names this open obligation by its exact attempt key. */
  predicate SelectsOpen(s: Inquiry, o: Obligation, chosen: Selection) {
    && o in s.obligations && chosen.obligationId == o.id && CurrentStatus(s, o.id) == Some(Open)
    && chosen.key.obligation == FingerprintOf(o) && chosen.key.bindingRevision == o.scope.bindingRevision
  }

  lemma PlansNeedAnInquiry(a: Aggregate, e: Event)
    requires Evolve(a, e).Some? && e.command.action.RecordStepPlan?
    ensures a.Active?
  {}

  // ------------------------------------------------------------ idempotence

  /** Commands that append one identified record outside the effect requests. */
  predicate Appends(a: Action) {
    a.RecordStepPlan? || a.AdmitClaim? || a.OpenObligation? || a.RecordDisposition? || a.ChangeGuard?
      || a.RecordWarrant?
  }

  predicate OnRecord(s: Inquiry, a: Action)
    requires Appends(a)
  {
    match a
    case RecordStepPlan(p) => p in s.plans
    case AdmitClaim(c) => c in s.claims
    case OpenObligation(o) => o in s.obligations
    case RecordDisposition(d) => d in s.dispositions
    case ChangeGuard(g) => g in s.guards
    case RecordWarrant(w) => w in s.warrants
  }

  lemma OnRecordIsKnown(s: Inquiry, a: Action)
    requires RecordRules(s) && DistinctKeys(s.plans, PlanId) && Appends(a) && OnRecord(s, a)
    ensures Judge(s, a).Known?
  {
    hide PlanRules, LawfulEvidence, Fingerprints, CurrentStatus, DispositionsOf, LatestGuard, DistinctKeys;
    match a
    case RecordStepPlan(p) => FindUnique(s.plans, PlanId, p);
    case AdmitClaim(c) => FindUnique(s.claims, ClaimId, c);
    case OpenObligation(o) => FindUnique(s.obligations, ObligationId, o);
    case RecordDisposition(d) => FindUnique(s.dispositions, DispositionId, d);
    case ChangeGuard(g) => FindUnique(s.guards, GuardId, g);
    case RecordWarrant(w) => FindUnique(s.warrants, WarrantId, w);
  }

  lemma JoinsRecord(s: Inquiry, e: Event)
    requires Appends(e.command.action)
    ensures OnRecord(RecordStep(s, e), e.command.action)
  {
    var t := RecordStep(s, e);
    match e.command.action
    case RecordStepPlan(p) => assert t.plans[|s.plans|] == p;
    case AdmitClaim(c) => assert t.claims[|s.claims|] == c;
    case OpenObligation(o) => assert t.obligations[|s.obligations|] == o;
    case RecordDisposition(d) => assert t.dispositions[|s.dispositions|] == d;
    case ChangeGuard(g) => assert t.guards[|s.guards|] == g;
    case RecordWarrant(w) => assert t.warrants[|s.warrants|] == w;
  }

  lemma AppendedIsOnRecord(s: Inquiry, e: Event, t: Inquiry, u: Inquiry)
    requires Appends(e.command.action) && Evolve(Active(s), e) == Some(Active(t)) && Moves(t, u)
    ensures OnRecord(u, e.command.action)
  {
    hide Judge, EventFor, RequestsMove, Evolve;
    RecordFrame(s, e, t);
    JoinsRecord(s, e);
    assert OnRecord(t, e.command.action);
  }

  /** Deciding again a plan, claim, obligation, disposition, guard change or warrant the ledger has
      recorded yields no events in every later state. */
  lemma RecordedCommandsAreIdempotent(before: seq<Event>, e: Event, after: seq<Event>, t: Inquiry, again: Command)
    requires Fold(Unstarted, before + [e] + after) == Some(Active(t)) && Appends(e.command.action)
    requires again.action == e.command.action && again.inquiryId == t.id
    ensures Decide(Active(t), again) == Nothing
  {
    hide Evolve, Moves, Sound, Judge, OnRecord;
    FoldSplits(Unstarted, before + [e], after);
    FoldLast(Unstarted, before, e);
    var a := Fold(Unstarted, before).value;
    RecordsNeedAnInquiry(a, e);
    EvolveActive(a, e);
    var u := Evolve(a, e).value.inquiry;
    LedgerMoves(before + [e], u, after, t);
    AppendedIsOnRecord(a.inquiry, e, u, t);
    SoundRules(t);
    OnRecordIsKnown(t, e.command.action) by { PlanKeys(t); }
  }

  lemma PlanKeys(s: Inquiry)
    requires EffectRules(s)
    ensures DistinctKeys(s.plans, PlanId)
  {}

  lemma RecordsNeedAnInquiry(a: Aggregate, e: Event)
    requires Evolve(a, e).Some? && Appends(e.command.action)
    ensures a.Active?
  {}
}
