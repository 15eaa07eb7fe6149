/** Histories of obligations and guards in every reachable aggregate: one lawful predecessor
    chain per obligation with owned evidence, and strictly alternating guard changes. */
module Standing {
  import opened Sequences
  import opened InquiryModel
  import opened Transitions
  import opened EffectLifecycle
  import opened ClaimConflicts

  // ------------------------------------------------------------ the histories

  /** Step `k` extends the tail before it along a lawful edge and never reaches IMPOSSIBLE. */
  predicate LawfulStep(o: Obligation, h: seq<Disposition>, k: nat)
    requires k < |h|
  {
    && h[k].predecessor == (if k == 0 then None else Some(h[k-1].id))
    && LawfulEdge(if k == 0 then o.status else h[k-1].status, h[k].status)
    && !h[k].status.Impossible?
  }

  predicate LawfulHistory(o: Obligation, h: seq<Disposition>) {
    o.status.Open? && forall k :: 0 <= k < |h| ==> LawfulStep(o, h, k)
  }

  /** A satisfying step cites evidence, all of it owned for its exact obligation. */
  predicate Evidenced(s: Inquiry, d: Disposition) {
    var o := FindBy(s.obligations, ObligationId, d.obligationId);
    o.Some? && (d.status.Satisfied? ==>
      d.evidence != [] && forall e :: e in d.evidence ==> e in LawfulEvidence(s, o.value))
  }

  predicate AlternatingStep(h: seq<GuardChange>, k: nat)
    requires k < |h|
  {
    if k == 0 then h[k].predecessor.None?
    else h[k].predecessor == Some(h[k-1].id) && h[k].standing != h[k-1].standing
  }

  predicate Alternating(h: seq<GuardChange>) {
    forall k :: 0 <= k < |h| ==> AlternatingStep(h, k)
  }

  ghost predicate StandingInvariant(s: Inquiry) {
    && (forall o :: o in s.obligations ==> LawfulHistory(o, DispositionsOf(s.dispositions, o.id)))
    && (forall d :: d in s.dispositions ==> Evidenced(s, d))
    && (forall c :: Alternating(GuardHistory(s.guards, c)))
  }

  // ------------------------------------------------------------ growth

  lemma DispositionsOfNext(ds: seq<Disposition>, d: Disposition, id: Id)
    ensures DispositionsOf(ds + [d], id)
         == if d.obligationId == id then DispositionsOf(ds, id) + [d] else DispositionsOf(ds, id)
  {
    assert (ds + [d])[..|ds|] == ds;
  }

  lemma {:induction false} NoDispositions(ds: seq<Disposition>, id: Id)
    requires forall d :: d in ds ==> d.obligationId != id
    ensures DispositionsOf(ds, id) == []
  {
    if ds != [] {
      assert ds[|ds|-1] in ds;
      NoDispositions(ds[..|ds|-1], id);
    }
  }

  lemma GuardHistoryNext(gs: seq<GuardChange>, g: GuardChange, c: Id)
    ensures GuardHistory(gs + [g], c) == if g.condition == c then GuardHistory(gs, c) + [g] else GuardHistory(gs, c)
  {
    assert (gs + [g])[..|gs|] == gs;
  }

  /** Owned evidence is never lost: warrants are append-only, acceptances and plans are fixed. */
  lemma EvidencePersists(s: Inquiry, t: Inquiry, o: Obligation, e: Id)
    requires Moves(s, t) && e in LawfulEvidence(s, o)
    ensures e in LawfulEvidence(t, o)
  {
    hide RequestsMove, FindBy, FingerprintOf;
    if w :| w in s.warrants && w.hard && w.proposition == o.carrier && w.scope == o.scope && w.id == e {
      assert w in t.warrants;
    } else {
      var r :| r in s.requests && r.accepted.Some? && ResolvesFor(s, r, o) && r.accepted.value == e;
      var q := RequestKept(s, t, r);
      FindPrefix(s.plans, t.plans, PlanId, r.request.stepPlanId);
      assert ResolvesFor(t, q, o);
    }
  }

  lemma EvidencedPersists(s: Inquiry, t: Inquiry, d: Disposition)
    requires Moves(s, t) && Evidenced(s, d)
    ensures Evidenced(t, d)
  {
    hide LawfulEvidence, RequestsMove;
    FindPrefix(s.obligations, t.obligations, ObligationId, d.obligationId);
    var o := FindBy(s.obligations, ObligationId, d.obligationId).value;
    forall e | e in LawfulEvidence(s, o) ensures e in LawfulEvidence(t, o) { EvidencePersists(s, t, o, e); }
  }

  lemma DerivedObligationsOpen(s: Inquiry, claim: Claim)
    ensures forall o :: o in DerivedObligations(s, claim) ==> o.status.Open?
  {
    hide DerivedConflicts, FingerprintOf, Discharged, SortBy;
    var candidates := Attack(s, claim) + ConflictObligations(DerivedConflicts(s, claim));
    NewObligationsFresh(candidates, Fingerprints(s));
    SortPermutes(NewObligations(candidates, Fingerprints(s)), ObligationBefore);
  }

  /** Obligations only join an aggregate open, and not together with a disposition. */
  lemma NewcomersAreOpen(s: Inquiry, e: Event, t: Inquiry, o: Obligation)
    requires Evolve(Active(s), e) == Some(Active(t)) && o in t.obligations && o !in s.obligations
    ensures o.status.Open? && t.dispositions == s.dispositions
  {
    hide Evolve, DerivedObligations, DerivedConflicts, Fingerprints, FindBy;
    RecordFrame(s, e, t);
    if e.command.action.AdmitClaim? { DerivedObligationsOpen(s, e.command.action.claim); }
  }

  lemma NewcomersHaveNoHistory(s: Inquiry, e: Event, t: Inquiry, o: Obligation)
    requires Sound(s) && Sound(t) && Evolve(Active(s), e) == Some(Active(t)) && o in t.obligations
    requires o !in s.obligations
    ensures o.status.Open? && t.dispositions == s.dispositions && DispositionsOf(t.dispositions, o.id) == []
  {
    hide Sound, Evolve, RecordRules, EffectRules, RequestsMove, DispositionsOf;
    NewcomersAreOpen(s, e, t, o);
    EvolveSound(s, e, t);
    SoundRules(s);
    SoundRules(t);
    forall d | d in s.dispositions ensures d.obligationId != o.id { OwnerIsNotNew(s, t, d, o); }
    NoDispositions(s.dispositions, o.id);
  }

  lemma OwnerIsNotNew(s: Inquiry, t: Inquiry, d: Disposition, o: Obligation)
    requires RecordRules(s) && RecordRules(t) && s.obligations <= t.obligations
    requires d in s.dispositions && o in t.obligations && o !in s.obligations
    ensures d.obligationId != o.id
  {
    hide PlanRules;
    var x := FindBy(s.obligations, ObligationId, d.obligationId).value;
    assert x in t.obligations;
    OnlyOne(t.obligations, ObligationId, x, o);
  }

  // ------------------------------------------------------------ one reduction

  lemma DispositionKeeps(s: Inquiry, d: Disposition, t: Inquiry)
    requires Sound(s) && StandingInvariant(s) && Moves(s, t) && JudgeDisposition(s, d).Fresh?
    requires t.obligations == s.obligations && t.dispositions == s.dispositions + [d] && t.guards == s.guards
    ensures StandingInvariant(t)
  {
    hide Lifecycle, LawfulEvidence, EffectRules, Moves;
    SoundRules(s);
    forall o | o in t.obligations ensures LawfulHistory(o, DispositionsOf(t.dispositions, o.id)) {
      DispositionsOfNext(s.dispositions, d, o.id);
      var h := DispositionsOf(s.dispositions, o.id);
      assert LawfulHistory(o, h);
      if d.obligationId == o.id { HistoryExtends(s, o, d); }
    }
    forall x | x in t.dispositions ensures Evidenced(t, x) {
      if x != d { assert Evidenced(s, x); } else { JudgedEvidence(s, d); }
      EvidencedPersists(s, t, x);
    }
  }

  lemma JudgedEvidence(s: Inquiry, d: Disposition)
    requires JudgeDisposition(s, d).Fresh?
    ensures Evidenced(s, d)
  {
    hide LawfulEvidence;
  }

  lemma HistoryExtends(s: Inquiry, o: Obligation, d: Disposition)
    requires RecordRules(s) && o in s.obligations && d.obligationId == o.id && JudgeDisposition(s, d).Fresh?
    requires LawfulHistory(o, DispositionsOf(s.dispositions, o.id))
    ensures LawfulHistory(o, DispositionsOf(s.dispositions, o.id) + [d])
  {
    hide LawfulEvidence, PlanRules, DispositionsOf;
    FindUnique(s.obligations, ObligationId, o);
    var h := DispositionsOf(s.dispositions, o.id);
    var h' := h + [d];
    forall k | 0 <= k < |h'| ensures LawfulStep(o, h', k) {
      if k < |h| { assert LawfulStep(o, h, k); }
    }
  }

  lemma AlternationExtends(h: seq<GuardChange>, g: GuardChange)
    requires Alternating(h)
    requires if h == [] then g.predecessor.None?
        else g.predecessor == Some(h[|h|-1].id) && g.standing != h[|h|-1].standing
    ensures Alternating(h + [g])
  {
    var h' := h + [g];
    forall k | 0 <= k < |h'| ensures AlternatingStep(h', k) {
      if k < |h| { assert AlternatingStep(h, k); }
    }
  }

  lemma GuardKeeps(s: Inquiry, g: GuardChange, t: Inquiry)
    requires StandingInvariant(s) && Moves(s, t) && JudgeGuard(s, g).Fresh?
    requires t.obligations == s.obligations && t.dispositions == s.dispositions && t.guards == s.guards + [g]
    ensures StandingInvariant(t)
  {
    hide LawfulEvidence, LawfulHistory, Moves, DispositionsOf, Evidenced;
    forall c ensures Alternating(GuardHistory(t.guards, c)) {
      GuardHistoryNext(s.guards, g, c);
      assert Alternating(GuardHistory(s.guards, c));
      if g.condition == c { AlternationExtends(GuardHistory(s.guards, c), g); }
    }
    forall x | x in t.dispositions ensures Evidenced(t, x) { EvidencedPersists(s, t, x); }
  }

  lemma OthersKeep(s: Inquiry, e: Event, t: Inquiry)
    requires Sound(s) && Sound(t) && StandingInvariant(s) && Moves(s, t) && Evolve(Active(s), e) == Some(Active(t))
    requires t.dispositions == s.dispositions && t.guards == s.guards
    ensures StandingInvariant(t)
  {
    hide LawfulEvidence, Evidenced, Moves, DispositionsOf, Sound, Evolve, Alternating;
    forall o | o in t.obligations ensures LawfulHistory(o, DispositionsOf(t.dispositions, o.id)) {
      if o !in s.obligations { NewcomersHaveNoHistory(s, e, t, o); }
    }
    forall x | x in t.dispositions ensures Evidenced(t, x) { EvidencedPersists(s, t, x); }
  }

  lemma StandingKept(s: Inquiry, e: Event, t: Inquiry)
    requires Sound(s) && StandingInvariant(s) && Evolve(Active(s), e) == Some(Active(t))
    ensures StandingInvariant(t)
  {
    hide Sound, Evolve, StandingInvariant, JudgeDisposition, JudgeGuard, Moves, Lifecycle;
    RecordFrame(s, e, t);
    EvolveSound(s, e, t);
    match e.command.action
    case RecordDisposition(d) => DispositionKeeps(s, d, t);
    case ChangeGuard(g) => GuardKeeps(s, g, t);
    case _ => OthersKeep(s, e, t);
  }

  lemma {:induction false} FoldKeepsStanding(s: Inquiry, events: seq<Event>, t: Inquiry)
    requires Sound(s) && StandingInvariant(s) && Fold(Active(s), events) == Some(Active(t))
    ensures StandingInvariant(t)
    decreases events
  {
    hide Sound, Evolve, StandingInvariant;
    if events != [] {
      EvolveActive(Active(s), events[0]);
      var mid := Evolve(Active(s), events[0]).value.inquiry;
      EvolveSound(s, events[0], mid);
      StandingKept(s, events[0], mid);
      FoldKeepsStanding(mid, events[1..], t);
    }
  }

  lemma StartStanding(e: Event, s: Inquiry)
    requires Evolve(Unstarted, e) == Some(Active(s))
    ensures StandingInvariant(s)
  {}

  lemma LedgerStanding(events: seq<Event>, s: Inquiry)
    requires Fold(Unstarted, events) == Some(Active(s))
    ensures StandingInvariant(s)
  {
    hide Sound, Evolve, StandingInvariant;
    EvolveActive(Unstarted, events[0]);
    var first := Evolve(Unstarted, events[0]).value.inquiry;
    StartSound(events[0], first);
    StartStanding(events[0], first);
    FoldKeepsStanding(first, events[1..], s);
  }

  // ------------------------------------------------------------ main results

  /** In every reachable aggregate an obligation's dispositions form one predecessor chain
      along lawful edges that never reaches IMPOSSIBLE, so its standing never does either;
      each satisfying step cites evidence the aggregate still owns for that obligation. */
  lemma ObligationHistoriesAreLawful(events: seq<Event>, s: Inquiry, o: Obligation)
    requires Fold(Unstarted, events) == Some(Active(s)) && o in s.obligations
    ensures var h := DispositionsOf(s.dispositions, o.id);
      && (forall k :: 0 <= k < |h| ==> LawfulStep(o, h, k))
      && (forall k :: 0 <= k < |h| && h[k].status.Satisfied? ==>
            h[k].evidence != [] && forall e :: e in h[k].evidence ==> e in LawfulEvidence(s, o))
      && CurrentStatus(s, o.id).Some? && CurrentStatus(s, o.id) != Some(Impossible)
  {
    hide Fold, LawfulEvidence, Lifecycle;
    LedgerStanding(events, s);
    LedgerSound(events, s);
    SoundRules(s);
    FindUnique(s.obligations, ObligationId, o);
    var h := DispositionsOf(s.dispositions, o.id);
    assert LawfulHistory(o, h);
    assert h != [] ==> LawfulStep(o, h, |h| - 1);
    assert CurrentStatus(s, o.id) == Some(StatusAfter(o, h));
    forall k | 0 <= k < |h| && h[k].status.Satisfied?
      ensures h[k].evidence != [] && forall e :: e in h[k].evidence ==> e in LawfulEvidence(s, o)
    {
      DispositionsOfMember(s.dispositions, o.id, k);
      assert Evidenced(s, h[k]);
    }
  }

  lemma {:induction false} DispositionsOfMember(ds: seq<Disposition>, id: Id, k: nat)
    requires k < |DispositionsOf(ds, id)|
    ensures DispositionsOf(ds, id)[k] in ds && DispositionsOf(ds, id)[k].obligationId == id
  {
    var front := DispositionsOf(ds[..|ds|-1], id);
    if k < |front| { DispositionsOfMember(ds[..|ds|-1], id, k); }
  }

  /** The dictionary of last changes holds exactly the tail of each condition's history. */
  lemma {:induction false} LastChangeIsTail(gs: seq<GuardChange>, c: Id)
    ensures c in LastChanges(gs) <==> LatestGuard(gs, c).Some?
    ensures c in LastChanges(gs) ==> LatestGuard(gs, c) == Some(LastChanges(gs)[c])
  {
    if gs != [] { LastChangeIsTail(gs[..|gs|-1], c); }
  }

  lemma {:induction false} AlternationParity(h: seq<GuardChange>, k: nat)
    requires Alternating(h) && k < |h|
    ensures h[k].standing == if k % 2 == 0 then h[0].standing else !h[0].standing
  {
    if k > 0 {
      AlternationParity(h, k - 1);
      assert AlternatingStep(h, k);
    }
  }

  /** Each condition's history alternates, so it stands exactly when its last change says so:
      when the number of changes since the first is even and the first was standing, or odd
      and it was not. */
  lemma StandingContextsFollowHistory(events: seq<Event>, s: Inquiry, c: Id)
    requires Fold(Unstarted, events) == Some(Active(s))
    ensures var h := GuardHistory(s.guards, c);
      && Alternating(h)
      && (c in StandingContexts(s.guards) <==> h != [] && h[|h|-1].standing)
      && (c in StandingContexts(s.guards) <==> h != [] && (h[0].standing <==> |h| % 2 == 1))
  {
    hide Fold, LastChanges;
    LedgerStanding(events, s);
    LastChangeIsTail(s.guards, c);
    var h := GuardHistory(s.guards, c);
    if h != [] { AlternationParity(h, |h| - 1); }
  }
}
