/** The deterministic command decider, the event reducer and replay as its fold. */
module Transitions {
  import opened Sequences
  import opened InquiryModel

  datatype Action =
    | StartInquiry(manifest: Id, context: Context)
    | RecordStepPlan(plan: StepPlan)
    | RequestEffect(request: Request)
    | PlanAttempt(attemptPlan: AttemptPlan)
    | StartAttempt(attemptId: Id)
    | RecordNoAttempt(noAttempt: NoAttempt)
    | RecordOutcome(requestId: Id, outcome: Outcome)
    | RecordDecode(requestId: Id, decode: Decode)
    | AcceptResult(requestId: Id, decodeId: Id)
    | AdmitClaim(claim: Claim)
    | OpenObligation(obligation: Obligation)
    | RecordDisposition(disposition: Disposition)
    | ChangeGuard(change: GuardChange)
    | RecordWarrant(warrant: Warrant)
    | RecordOther(detail: Id, discharged: set<(Id, Scope)>)
  {
    /** The commands of the persisted effect protocol. */
    predicate Effect() {
      RequestEffect? || PlanAttempt? || StartAttempt? || RecordNoAttempt? || RecordOutcome?
      || RecordDecode? || AcceptResult?
    }
  }

  datatype Command = Command(eventId: Id, inquiryId: Id, at: int, action: Action)

  /** An event repeats its command's data; a claim admission adds its derived bundle. */
  datatype Event = Event(command: Command, conflicts: seq<Conflict>, obligations: seq<Obligation>)

  datatype Aggregate = Unstarted | Active(inquiry: Inquiry)

  datatype DomainError = IdentityConflict | LifecycleError | InvalidCommand
  datatype Judgement = Known | Fresh | Bad(error: DomainError)
  datatype Decision = Nothing | Emits(event: Event) | Rejects(error: DomainError)

  // ------------------------------------------------------------ claim consequences

  predicate Opposite(a: Polarity, b: Polarity) {
    (a.Positive? && b.Negative?) || (a.Negative? && b.Positive?)
  }

  /** Equal structural keys and opposite polarities. */
  predicate Opposing(left: Claim, right: Claim) {
    KeyOf(left).Some? && KeyOf(left) == KeyOf(right) && Opposite(left.polarity, right.polarity)
  }

  function SortedPair(a: Id, b: Id): (Id, Id) {
    if Before(a, b) then (a, b) else (b, a)
  }

  function ConflictOf(left: Claim, right: Claim): Conflict {
    var ids := SortedPair(left.id, right.id);
    Conflict(Digest(ConflictName, [ids.0, ids.1]), ids.0, ids.1, left.scope, left.proposition)
  }

  function StructuralConflict(left: Claim, right: Claim): Option<Conflict> {
    if Opposing(left, right) then Some(ConflictOf(left, right)) else None
  }

  function ConflictObligation(c: Conflict): Obligation {
    Obligation(
      Digest(ConflictDuty, [c.id]), LocalizeConflict, c.id,
      [Argument(LeftClaim, c.first), Argument(RightClaim, c.second)], c.scope, [], [100], Open)
  }

  function AttackKind(role: Role): Option<Kind> {
    match role
    case Necessity => Some(NecessityCounterexample)
    case Sufficiency => Some(SufficiencyCounterexample)
    case Prerequisite => Some(PrerequisiteBypass)
    case OtherRole(_) => None
  }

  function KindCode(k: Kind): nat {
    match k
    case LocalizeConflict => 0 case NecessityCounterexample => 1
    case SufficiencyCounterexample => 2 case PrerequisiteBypass => 3
    case DischargeOpenDependency => 4 case OtherKind(n) => 5 + n
  }

  /** The identity omits the argument name, the fingerprint does not. */
  function MandatoryAttack(c: Claim): Option<Obligation> {
    var kind := AttackKind(c.role);
    if kind.None? || c.polarity.Negative? then None
    else
      var carrier := if c.proposition.Some? then c.proposition.value else c.id;
      var name := if c.proposition.Some? then PropositionName else ClaimName;
      Some(Obligation(
        Digest(AttackDuty, [carrier, Text(KindCode(kind.value)), c.scope.id, c.scope.bindingRevision, c.scope.rest]),
        kind.value, carrier, [Argument(name, carrier)], c.scope, [], [90], Open))
  }

  predicate Discharged(s: Inquiry, c: Claim) {
    c.proposition.Some? && (c.proposition.value, c.scope) in s.discharged
  }

  function Attack(s: Inquiry, c: Claim): seq<Obligation> {
    var attack := MandatoryAttack(c);
    if attack.None? || Discharged(s, c) then [] else [attack.value]
  }

  /** Conflicts of a new claim with the recorded ones, skipping identities already known. */
  function NewConflicts(recorded: seq<Claim>, claim: Claim, known: set<Id>): seq<Conflict> {
    if recorded == [] then []
    else
      var c := StructuralConflict(recorded[0], claim);
      if c.Some? && c.value.id !in known then [c.value] + NewConflicts(recorded[1..], claim, known + {c.value.id})
      else NewConflicts(recorded[1..], claim, known)
  }

  function NewObligations(candidates: seq<Obligation>, known: set<Fingerprint>): seq<Obligation> {
    if candidates == [] then []
    else
      var f := FingerprintOf(candidates[0]);
      if f in known then NewObligations(candidates[1..], known)
      else [candidates[0]] + NewObligations(candidates[1..], known + {f})
  }

  function ConflictObligations(conflicts: seq<Conflict>): seq<Obligation> {
    seq(|conflicts|, i requires 0 <= i < |conflicts| => ConflictObligation(conflicts[i]))
  }

  function ConflictIds(s: Inquiry): set<Id> { set c | c in s.conflicts :: c.id }
  function Fingerprints(s: Inquiry): set<Fingerprint> { set o | o in s.obligations :: FingerprintOf(o) }

  predicate ConflictBefore(a: Conflict, b: Conflict) { Before(a.id, b.id) }
  predicate ObligationBefore(a: Obligation, b: Obligation) { Before(a.id, b.id) }

  function DerivedConflicts(s: Inquiry, claim: Claim): seq<Conflict> {
    SortBy(NewConflicts(s.claims, claim, ConflictIds(s)), ConflictBefore)
  }

  function DerivedObligations(s: Inquiry, claim: Claim): seq<Obligation> {
    var candidates := Attack(s, claim) + ConflictObligations(DerivedConflicts(s, claim));
    SortBy(NewObligations(candidates, Fingerprints(s)), ObligationBefore)
  }

  /** The program's loop that grows the conflict list and its identity set. */
  method CollectConflicts(recorded: seq<Claim>, claim: Claim, known: set<Id>) returns (conflicts: seq<Conflict>)
    ensures conflicts == NewConflicts(recorded, claim, known)
  {
    hide StructuralConflict;
    var knownIds := known;
    conflicts := [];
    for i := 0 to |recorded|
      invariant conflicts + NewConflicts(recorded[i..], claim, knownIds) == NewConflicts(recorded, claim, known)
    {
      ghost var rest := recorded[i+1..];
      assert recorded[i..][0] == recorded[i] && recorded[i..][1..] == rest;
      var conflict := StructuralConflict(recorded[i], claim);
      if conflict.Some? && conflict.value.id !in knownIds {
        knownIds := knownIds + {conflict.value.id};
        ghost var more := NewConflicts(rest, claim, knownIds);
        assert conflicts + ([conflict.value] + more) == (conflicts + [conflict.value]) + more;
        conflicts := conflicts + [conflict.value];
      }
    }
  }

  /** The loop that keeps the candidates whose fingerprint is new. */
  method CollectObligations(candidates: seq<Obligation>, known: set<Fingerprint>) returns (obligations: seq<Obligation>)
    ensures obligations == NewObligations(candidates, known)
  {
    hide FingerprintOf;
    var knownFingerprints := known;
    obligations := [];
    for i := 0 to |candidates|
      invariant obligations + NewObligations(candidates[i..], knownFingerprints) == NewObligations(candidates, known)
    {
      ghost var rest := candidates[i+1..];
      assert candidates[i..][0] == candidates[i] && candidates[i..][1..] == rest;
      var f := FingerprintOf(candidates[i]);
      if f !in knownFingerprints {
        knownFingerprints := knownFingerprints + {f};
        ghost var more := NewObligations(rest, knownFingerprints);
        assert obligations + ([candidates[i]] + more) == (obligations + [candidates[i]]) + more;
        obligations := obligations + [candidates[i]];
      }
    }
  }

  /** The exact conflict and attack bundle of a newly admitted claim. */
  method DeriveClaimConsequences(s: Inquiry, claim: Claim)
    returns (conflicts: seq<Conflict>, obligations: seq<Obligation>)
    ensures conflicts == DerivedConflicts(s, claim)
    ensures obligations == DerivedObligations(s, claim)
  {
    conflicts := CollectConflicts(s.claims, claim, ConflictIds(s));
    conflicts := SortBy(conflicts, ConflictBefore);
    obligations := CollectObligations(Attack(s, claim) + ConflictObligations(conflicts), Fingerprints(s));
    obligations := SortBy(obligations, ObligationBefore);
  }

  // ------------------------------------------------------------ decide

  /** The plan selects an owned obligation by its exact fingerprint and revision. */
  predicate OwnsExactly(s: Inquiry, p: Selection) {
    var o := FindBy(s.obligations, ObligationId, p.obligationId);
    o.Some? && p.key.obligation == FingerprintOf(o.value) && p.key.bindingRevision == o.value.scope.bindingRevision
  }

  function JudgePlan(s: Inquiry, plan: StepPlan): Judgement {
    var existing := FindBy(s.plans, PlanId, plan.id);
    if existing.Some? then if existing.value == plan then Known else Bad(IdentityConflict)
    else if plan.policy != s.context.schedulerPolicy then Bad(InvalidCommand)
    else if plan.selection.None? then Fresh
    else if CurrentStatus(s, plan.selection.value.obligationId) != Some(Open) then Bad(InvalidCommand)
    else if !OwnsExactly(s, plan.selection.value) then Bad(InvalidCommand)
    else Fresh
  }

  function JudgeRequest(s: Inquiry, request: Request): Judgement {
    var existing := FindBy(s.requests, RequestId, request.id);
    if existing.Some? then if existing.value.request == request then Known else Bad(IdentityConflict)
    else
      var plan := FindBy(s.plans, PlanId, request.stepPlanId);
      if plan.None? || plan.value.selection.None? || !OwnsExactly(s, plan.value.selection.value) then
        Bad(LifecycleError)
      else Fresh
  }

  function JudgeAttemptPlan(s: Inquiry, plan: AttemptPlan): Judgement {
    var r := FindBy(s.requests, RequestId, plan.requestId);
    if r.None? then Bad(InvalidCommand)
    else
      var existing := FindBy(Flatten(s.requests, Attempts), AttemptId, plan.id);
      if existing.Some? then if existing.value.plan == plan then Known else Bad(IdentityConflict)
      else if r.value.accepted.Some? then Bad(LifecycleError)
      else Fresh
  }

  /** The first request holding an attempt with this identity. */
  function Containing(rs: seq<RequestState>, attemptId: Id): (r: Option<RequestState>)
    ensures r.Some? ==> r.value in rs && FindBy(r.value.attempts, AttemptId, attemptId).Some?
    ensures r.None? ==> forall x :: x in rs ==> FindBy(x.attempts, AttemptId, attemptId).None?
  {
    if rs == [] then None
    else if FindBy(rs[0].attempts, AttemptId, attemptId).Some? then Some(rs[0])
    else Containing(rs[1..], attemptId)
  }

  function JudgeStart(s: Inquiry, attemptId: Id): Judgement {
    var r := Containing(s.requests, attemptId);
    if r.None? then Bad(LifecycleError)
    else
      var a := FindBy(r.value.attempts, AttemptId, attemptId).value;
      if a.start.Some? then Known
      else if r.value.accepted.Some? || a.outcome.Some? then Bad(LifecycleError)
      else Fresh
  }

  function JudgeNoAttempt(s: Inquiry, d: NoAttempt): Judgement {
    var r := FindBy(s.requests, RequestId, d.requestId);
    if r.None? then Bad(InvalidCommand)
    else if d.stepPlanId != r.value.request.stepPlanId then Bad(LifecycleError)
    else
      var existing := FindBy(Flatten(s.requests, NoAttempts), NoAttemptId, d.id);
      if existing.Some? then if existing.value == d then Known else Bad(IdentityConflict)
      else if r.value.accepted.Some? then Bad(LifecycleError)
      else Fresh
  }

  function JudgeOutcome(s: Inquiry, requestId: Id, outcome: Outcome): Judgement {
    var r := FindBy(s.requests, RequestId, requestId);
    if r.None? then Bad(InvalidCommand)
    else
      var a := FindBy(r.value.attempts, AttemptId, outcome.attemptId);
      if a.None? || a.value.start.None? || a.value.plan.route.id != outcome.routeId then Bad(LifecycleError)
      else if a.value.outcome.Some? then if a.value.outcome.value == outcome then Known else Bad(LifecycleError)
      else if outcome.Returned? && FindBy(Flatten(s.requests, Returns), ReturnId, outcome.external.id).Some?
      then Bad(IdentityConflict)
      else Fresh
  }

  function JudgeDecode(s: Inquiry, requestId: Id, decode: Decode): Judgement {
    var r := FindBy(s.requests, RequestId, requestId);
    if r.None? then Bad(InvalidCommand)
    else
      var existing := FindBy(Flatten(s.requests, Decodes), DecodeId, decode.id);
      if existing.Some? then if existing.value == decode then Known else Bad(IdentityConflict)
      else if !Captured(r.value, decode.returnId) then Bad(LifecycleError)
      else Fresh
  }

  function JudgeAccept(s: Inquiry, requestId: Id, decodeId: Id): Judgement {
    var r := FindBy(s.requests, RequestId, requestId);
    if r.None? then Bad(InvalidCommand)
    else if r.value.accepted.Some? then if r.value.accepted.value == decodeId then Known else Bad(LifecycleError)
    else
      var d := FindBy(r.value.decodes, DecodeId, decodeId);
      if d.None? || !d.value.Decoded? then Bad(LifecycleError) else Fresh
  }

  function JudgeClaim(s: Inquiry, claim: Claim): Judgement {
    var existing := FindBy(s.claims, ClaimId, claim.id);
    if existing.Some? then if existing.value == claim then Known else Bad(IdentityConflict)
    else if !claim.provisional || claim.scope != s.context.scope then Bad(InvalidCommand)
    else Fresh
  }

  function JudgeObligation(s: Inquiry, o: Obligation): Judgement {
    var existing := FindBy(s.obligations, ObligationId, o.id);
    if existing.Some? then if existing.value == o then Known else Bad(IdentityConflict)
    else if FingerprintOf(o) in Fingerprints(s) then Known
    else if !o.status.Open? || o.scope != s.context.scope then Bad(InvalidCommand)
    else if exists p :: p in o.parents && FindBy(s.obligations, ObligationId, p).None? then Bad(InvalidCommand)
    else Fresh
  }

  predicate LawfulEdge(before: Status, after: Status) {
    match before
    case Open => after.Blocked? || after.Satisfied? || after.Impossible? || after.Unresolved?
    case Blocked => after.Open? || after.Satisfied? || after.Unresolved?
    case _ => after.Open?
  }

  /** The request's ready plan selects this obligation by its exact attempt key. */
  predicate ResolvesFor(s: Inquiry, r: RequestState, o: Obligation) {
    var plan := FindBy(s.plans, PlanId, r.request.stepPlanId);
    && plan.Some? && plan.value.selection.Some?
    && plan.value.selection.value.obligationId == o.id
    && plan.value.selection.value.key.obligation == FingerprintOf(o)
    && plan.value.selection.value.key.bindingRevision == o.scope.bindingRevision
  }

  /** Evidence the state owns for one exact obligation. */
  function LawfulEvidence(s: Inquiry, o: Obligation): set<Id> {
    (set w | w in s.warrants && w.hard && w.proposition == o.carrier && w.scope == o.scope :: w.id)
    + (set r | r in s.requests && r.accepted.Some? && ResolvesFor(s, r, o) :: r.accepted.value)
  }

  function Tail<T>(h: seq<T>, key: T -> Id): Option<Id> {
    if h == [] then None else Some(key(h[|h|-1]))
  }

  function JudgeDisposition(s: Inquiry, d: Disposition): Judgement {
    var o := FindBy(s.obligations, ObligationId, d.obligationId);
    if o.None? then Bad(InvalidCommand)
    else
      var existing := FindBy(s.dispositions, DispositionId, d.id);
      if existing.Some? then if existing.value == d then Known else Bad(IdentityConflict)
      else
        var history := DispositionsOf(s.dispositions, d.obligationId);
        var current := StatusAfter(o.value, history);
        if d.predecessor != Tail(history, DispositionId) then Bad(InvalidCommand)
        else if d.status == current || d.status.Impossible? then Bad(InvalidCommand)
        else if d.status.Satisfied?
                && (d.evidence == [] || exists e :: e in d.evidence && e !in LawfulEvidence(s, o.value))
        then Bad(InvalidCommand)
        else if !LawfulEdge(current, d.status) then Bad(InvalidCommand)
        else Fresh
  }

  function JudgeGuard(s: Inquiry, g: GuardChange): Judgement {
    var existing := FindBy(s.guards, GuardId, g.id);
    if existing.Some? then if existing.value == g then Known else Bad(IdentityConflict)
    else
      var latest := LatestGuard(s.guards, g.condition);
      if g.scope != s.context.scope then Bad(InvalidCommand)
      else if g.predecessor != (if latest.Some? then Some(latest.value.id) else None) then Bad(InvalidCommand)
      else if latest.Some? && latest.value.standing == g.standing then Bad(InvalidCommand)
      else Fresh
  }

  function JudgeWarrant(s: Inquiry, w: Warrant): Judgement {
    var existing := FindBy(s.warrants, WarrantId, w.id);
    if existing.None? then Fresh else if existing.value == w then Known else Bad(IdentityConflict)
  }

  /** What an active inquiry makes of an action: already recorded, new, or refused. */
  function Judge(s: Inquiry, a: Action): Judgement {
    match a
    case StartInquiry(manifest, context) =>
      if s.manifest == manifest && s.context == context then Known else Bad(IdentityConflict)
    case RecordStepPlan(plan) => JudgePlan(s, plan)
    case RequestEffect(request) => JudgeRequest(s, request)
    case PlanAttempt(plan) => JudgeAttemptPlan(s, plan)
    case StartAttempt(id) => JudgeStart(s, id)
    case RecordNoAttempt(d) => JudgeNoAttempt(s, d)
    case RecordOutcome(id, outcome) => JudgeOutcome(s, id, outcome)
    case RecordDecode(id, decode) => JudgeDecode(s, id, decode)
    case AcceptResult(id, decodeId) => JudgeAccept(s, id, decodeId)
    case AdmitClaim(claim) => JudgeClaim(s, claim)
    case OpenObligation(o) => JudgeObligation(s, o)
    case RecordDisposition(d) => JudgeDisposition(s, d)
    case ChangeGuard(g) => JudgeGuard(s, g)
    case RecordWarrant(w) => JudgeWarrant(s, w)
    case RecordOther(_, _) => Fresh
  }

  function EventFor(s: Inquiry, c: Command): Event {
    if c.action.AdmitClaim? then
      Event(c, DerivedConflicts(s, c.action.claim), DerivedObligations(s, c.action.claim))
    else Event(c, [], [])
  }

  function Decide(state: Aggregate, c: Command): Decision {
    match state
    case Unstarted => if c.action.StartInquiry? then Emits(Event(c, [], [])) else Rejects(InvalidCommand)
    case Active(s) =>
      if c.inquiryId != s.id then Rejects(if c.action.StartInquiry? then IdentityConflict else InvalidCommand)
      else
        match Judge(s, c.action)
        case Known => Nothing
        case Fresh => Emits(EventFor(s, c))
        case Bad(error) => Rejects(error)
  }

  // ------------------------------------------------------------ evolve

  function ReplaceRequest(rs: seq<RequestState>, r: RequestState): seq<RequestState> {
    seq(|rs|, i requires 0 <= i < |rs| => if rs[i].request.id == r.request.id then r else rs[i])
  }

  function WithRequest(s: Inquiry, r: RequestState): Inquiry {
    s.(requests := ReplaceRequest(s.requests, r), sequence := s.sequence + 1)
  }

  function StartIn(attempts: seq<Attempt>, id: Id, start: Start): seq<Attempt> {
    seq(|attempts|, i requires 0 <= i < |attempts| =>
      if attempts[i].plan.id == id then Attempt(attempts[i].plan, Some(start), None) else attempts[i])
  }

  function EndIn(attempts: seq<Attempt>, id: Id, outcome: Outcome): seq<Attempt> {
    seq(|attempts|, i requires 0 <= i < |attempts| =>
      if attempts[i].plan.id == id then attempts[i].(outcome := Some(outcome)) else attempts[i])
  }

  /** The request an effect event other than `RequestEffect` changes. */
  function Target(s: Inquiry, a: Action): (r: Option<RequestState>)
    requires a.Effect() && !a.RequestEffect?
    ensures r.Some? ==> r.value in s.requests
  {
    match a
    case PlanAttempt(plan) => FindBy(s.requests, RequestId, plan.requestId)
    case StartAttempt(id) => Containing(s.requests, id)
    case RecordNoAttempt(d) => FindBy(s.requests, RequestId, d.requestId)
    case RecordOutcome(id, _) => FindBy(s.requests, RequestId, id)
    case RecordDecode(id, _) => FindBy(s.requests, RequestId, id)
    case AcceptResult(id, _) => FindBy(s.requests, RequestId, id)
  }

  /** The reducer's own checks on that request and its replacement. */
  function Advance(s: Inquiry, r: RequestState, c: Command): Option<RequestState>
    requires c.action.Effect() && !c.action.RequestEffect?
  {
    match c.action
    case PlanAttempt(plan) =>
      if FindBy(Flatten(s.requests, Attempts), AttemptId, plan.id).Some? || r.accepted.Some? then None
      else Some(r.(attempts := r.attempts + [Attempt(plan, None, None)]))
    case StartAttempt(id) =>
      var a := FindBy(r.attempts, AttemptId, id);
      if a.None? || a.value.start.Some? || r.accepted.Some? then None
      else Some(r.(attempts := StartIn(r.attempts, id, Start(c.eventId, c.at))))
    case RecordNoAttempt(d) =>
      if d.stepPlanId != r.request.stepPlanId then None
      else if FindBy(Flatten(s.requests, NoAttempts), NoAttemptId, d.id).Some? || r.accepted.Some? then None
      else Some(r.(noAttempts := r.noAttempts + [d]))
    case RecordOutcome(_, outcome) =>
      var a := FindBy(r.attempts, AttemptId, outcome.attemptId);
      if a.None? || a.value.start.None? || a.value.outcome.Some? || a.value.plan.route.id != outcome.routeId then None
      else Some(r.(attempts := EndIn(r.attempts, a.value.plan.id, outcome)))
    case RecordDecode(_, decode) =>
      if FindBy(Flatten(s.requests, Decodes), DecodeId, decode.id).Some? || !Captured(r, decode.returnId) then None
      else Some(r.(decodes := r.decodes + [decode]))
    case AcceptResult(_, decodeId) =>
      var d := FindBy(r.decodes, DecodeId, decodeId);
      if r.accepted.Some? || d.None? || !d.value.Decoded? then None
      else Some(r.(accepted := Some(decodeId)))
  }

  /** The successor for an effect event, before the record rules are checked. */
  function EffectStep(s: Inquiry, c: Command): Option<Inquiry>
    requires c.action.Effect()
  {
    if c.action.RequestEffect? then
      var request := c.action.request;
      if FindBy(s.requests, RequestId, request.id).Some? || FindBy(s.plans, PlanId, request.stepPlanId).None? then None
      else Some(s.(requests := s.requests + [RequestState(request, [], [], [], None)], sequence := s.sequence + 1))
    else
      var r := Target(s, c.action);
      if r.None? then None
      else
        var next := Advance(s, r.value, c);
        if next.None? then None else Some(WithRequest(s, next.value))
  }

  /** The successor for the events whose matching decision is recomputed. */
  function RecordStep(s: Inquiry, e: Event): Inquiry {
    var s1 := s.(sequence := s.sequence + 1);
    match e.command.action
    case RecordStepPlan(plan) => s1.(plans := s.plans + [plan])
    case AdmitClaim(claim) =>
      s1.(claims := s.claims + [claim],
          conflicts := s.conflicts + e.conflicts, obligations := s.obligations + e.obligations)
    case OpenObligation(o) => s1.(obligations := s.obligations + [o])
    case RecordDisposition(d) => s1.(dispositions := s.dispositions + [d])
    case ChangeGuard(g) => s1.(guards := s.guards + [g])
    case RecordWarrant(w) => s1.(warrants := s.warrants + [w])
    case RecordOther(_, discharged) => s1.(discharged := discharged)
    case _ => s1
  }

  function Step(s: Inquiry, e: Event): Option<Inquiry> {
    if e.command.action.Effect() then EffectStep(s, e.command)
    else if Decide(Active(s), e.command) == Emits(e) then Some(RecordStep(s, e))
    else None
  }

  /** `None` when the reducer refuses the event. */
  function Evolve(state: Aggregate, e: Event): Option<Aggregate> {
    match state
    case Unstarted =>
      if e.command.action.StartInquiry? then
        Some(Active(Inquiry(
          e.command.inquiryId, e.command.action.manifest, e.command.action.context, 1,
          [], [], [], [], [], [], [], [], {})))
      else None
    case Active(s) =>
      if e.command.inquiryId != s.id then None
      else
        var next := Step(s, e);
        if next.Some? && Lifecycle(next.value) then Some(Active(next.value)) else None
  }

  // ------------------------------------------------------------ replay

  function Fold(state: Aggregate, events: seq<Event>): Option<Aggregate>
    decreases events
  {
    if events == [] then Some(state)
    else
      var next := Evolve(state, events[0]);
      if next.None? then None else Fold(next.value, events[1..])
  }

  /** The program's replay loop; it stops at the first event the reducer refuses. */
  method Replay(events: seq<Event>, state: Aggregate) returns (rebuilt: Option<Aggregate>)
    ensures rebuilt == Fold(state, events)
  {
    var current := state;
    for i := 0 to |events|
      invariant Fold(current, events[i..]) == Fold(state, events)
    {
      assert events[i..][0] == events[i] && events[i..][1..] == events[i+1..];
      var next := Evolve(current, events[i]);
      if next.None? { return None; }
      current := next.value;
    }
    assert events[|events|..] == [];
    return Some(current);
  }

  lemma {:induction false} FoldSplits(state: Aggregate, first: seq<Event>, second: seq<Event>)
    ensures Fold(state, first + second)
         == (var mid := Fold(state, first); if mid.None? then None else Fold(mid.value, second))
    decreases first
  {
    if first == [] {
      assert first + second == second;
    } else {
      assert (first + second)[0] == first[0] && (first + second)[1..] == first[1..] + second;
      var next := Evolve(state, first[0]);
      if next.Some? { FoldSplits(next.value, first[1..], second); }
    }
  }

  /** Committing one more event is one more reduction. */
  lemma FoldLast(state: Aggregate, events: seq<Event>, e: Event)
    ensures Fold(state, events + [e])
         == (var mid := Fold(state, events); if mid.None? then None else Evolve(mid.value, e))
  {
    FoldSplits(state, events, [e]);
    var mid := Fold(state, events);
    if mid.Some? && Evolve(mid.value, e).Some? {
      assert [e][1..] == [];
      assert Fold(Evolve(mid.value, e).value, []) == Evolve(mid.value, e);
    }
  }
}
