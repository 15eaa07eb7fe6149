/** Immutable records of an inquiry: plans, effects, claims, obligations and guards, with the
    lookups and well-formedness rules of the aggregate state. */
module InquiryModel {
  import opened Sequences

  // ------------------------------------------------------------ identities

  datatype Namespace =
    | ConflictName | ConflictDuty | AttackDuty
    | EventName | ReturnName | DecodeName | ResultName | RefusalName | DecoderName

  /** An identity is supplied text or the digest of its exact parts; digests do not collide. */
  datatype Id = Text(code: nat) | Digest(namespace: Namespace, parts: seq<Id>)

  function Rank(n: Namespace): nat {
    match n
    case ConflictName => 0 case ConflictDuty => 1 case AttackDuty => 2 case EventName => 3
    case ReturnName => 4 case DecodeName => 5 case ResultName => 6 case RefusalName => 7 case DecoderName => 8
  }

  /** The total order used when two identities are sorted. */
  predicate Before(a: Id, b: Id)
    decreases a, 1
  {
    match a
    case Text(m) => b.Text? ==> m <= b.code
    case Digest(n, p) =>
      b.Digest? && (Rank(n) < Rank(b.namespace) || (n == b.namespace && BeforeAll(p, b.parts)))
  }

  predicate BeforeAll(p: seq<Id>, q: seq<Id>)
    decreases p, 0
  {
    p == [] || (q != [] && if p[0] == q[0] then BeforeAll(p[1..], q[1..]) else Before(p[0], q[0]))
  }

  lemma {:induction false} BeforeIsTotal(a: Id, b: Id)
    ensures Before(a, b) || Before(b, a)
    ensures Before(a, b) && Before(b, a) ==> a == b
    decreases a, 1
  {
    if a.Digest? && b.Digest? { BeforeAllIsTotal(a.parts, b.parts); }
  }

  lemma {:induction false} BeforeAllIsTotal(p: seq<Id>, q: seq<Id>)
    ensures BeforeAll(p, q) || BeforeAll(q, p)
    ensures BeforeAll(p, q) && BeforeAll(q, p) ==> p == q
    decreases p, 0
  {
    if p != [] && q != [] {
      if p[0] == q[0] {
        BeforeAllIsTotal(p[1..], q[1..]);
        assert p == [p[0]] + p[1..] && q == [q[0]] + q[1..];
      } else {
        BeforeIsTotal(p[0], q[0]);
      }
    }
  }

  lemma {:induction false} BeforeTransitive(a: Id, b: Id, c: Id)
    requires Before(a, b) && Before(b, c)
    ensures Before(a, c)
    decreases a, 1
  {
    if a.Digest? && b.Digest? && c.Digest? && a.namespace == b.namespace == c.namespace {
      BeforeAllTransitive(a.parts, b.parts, c.parts);
    }
    if a.Digest? && b.Digest? && c.Digest? { RankPins(a.namespace, b.namespace); RankPins(b.namespace, c.namespace); }
  }

  lemma RankPins(m: Namespace, n: Namespace)
    ensures Rank(m) == Rank(n) ==> m == n
  {}

  lemma {:induction false} BeforeAllTransitive(p: seq<Id>, q: seq<Id>, r: seq<Id>)
    requires BeforeAll(p, q) && BeforeAll(q, r)
    ensures BeforeAll(p, r)
    decreases p, 0
  {
    if p != [] {
      if p[0] == q[0] && q[0] == r[0] {
        BeforeAllTransitive(p[1..], q[1..], r[1..]);
      } else if p[0] != q[0] && q[0] != r[0] {
        BeforeTransitive(p[0], q[0], r[0]);
        BeforeIsTotal(p[0], q[0]);
      }
    }
  }

  // ------------------------------------------------------------ claims and obligations

  datatype Scope = Scope(id: Id, bindingRevision: Id, rest: Id)
  datatype Role = Necessity | Sufficiency | Prerequisite | OtherRole(code: nat)
  datatype Polarity = Positive | Negative | Unspecified

  /** `args` is the canonical form of the bound arguments, `content` the fields no rule reads. */
  datatype Claim = Claim(
    id: Id, role: Role, args: Id, scope: Scope, provisional: bool,
    proposition: Option<Id>, polarity: Polarity, content: Id)

  datatype StructuralKey = StructuralKey(proposition: Id, role: Role, args: Id, scope: Scope)

  function KeyOf(c: Claim): Option<StructuralKey> {
    if c.proposition.None? || c.polarity.Unspecified? then None
    else Some(StructuralKey(c.proposition.value, c.role, c.args, c.scope))
  }

  datatype Conflict = Conflict(id: Id, first: Id, second: Id, scope: Scope, proposition: Option<Id>)

  datatype Kind =
    | LocalizeConflict | NecessityCounterexample | SufficiencyCounterexample | PrerequisiteBypass
    | DischargeOpenDependency | OtherKind(code: nat)
  datatype ArgumentName = LeftClaim | RightClaim | PropositionName | ClaimName | OtherName(code: nat)
  datatype Argument = Argument(name: ArgumentName, value: Id)
  datatype Status = Open | Blocked | Satisfied | Impossible | Unresolved

  datatype Obligation = Obligation(
    id: Id, kind: Kind, carrier: Id, args: seq<Argument>, scope: Scope,
    parents: seq<Id>, priority: seq<int>, status: Status)

  /** Kind, arguments up to their order, and scope with its binding revision. */
  datatype Fingerprint = Fingerprint(kind: Kind, args: multiset<Argument>, scope: Scope)

  function FingerprintOf(o: Obligation): Fingerprint {
    Fingerprint(o.kind, multiset(o.args), o.scope)
  }

  datatype Disposition = Disposition(
    id: Id, obligationId: Id, status: Status, evidence: seq<Id>, predecessor: Option<Id>, reason: Id)

  datatype GuardChange = GuardChange(
    id: Id, condition: Id, scope: Scope, standing: bool, predecessor: Option<Id>, reason: Id)

  /** A warrant decision as an opaque append-only record. */
  datatype Warrant = Warrant(id: Id, hard: bool, proposition: Id, scope: Scope)

  // ------------------------------------------------------------ plans and effects

  datatype AttemptKey = AttemptKey(obligation: Fingerprint, contract: Id, bindingRevision: Id)
  datatype Selection = Selection(obligationId: Id, key: AttemptKey)

  /** A plan is ready exactly when it selects an obligation and attempt key. */
  datatype StepPlan = StepPlan(id: Id, policy: Id, selection: Option<Selection>, rest: Id)

  datatype Request = Request(id: Id, stepPlanId: Id, adapterId: Id, input: Id, rest: Id)
  datatype Route = Route(id: Id, adapterId: Id, adapterVersion: Id, rest: Id)
  datatype AttemptPlan = AttemptPlan(id: Id, requestId: Id, route: Route)

  datatype ExternalReturn = ExternalReturn(id: Id, attemptId: Id, routeId: Id, capturedAt: int, raw: Id)

  datatype Failure = NotPresented | CaptureFailed | PresentationUnknown | Cancelled
  datatype Outcome =
    | Ended(attemptId: Id, routeId: Id, failure: Failure, detail: Id)
    | Returned(attemptId: Id, routeId: Id, external: ExternalReturn)
  {
    predicate Linked() {
      Returned? ==> external.attemptId == attemptId && external.routeId == routeId
    }
  }

  datatype NoAttempt = NoAttempt(id: Id, requestId: Id, stepPlanId: Id, detail: Id)

  datatype CanonicalResult = CanonicalResult(id: Id, body: Id)
  datatype DecodeFailure = Malformed | UnsupportedDecode | FailedDecode
  datatype Decode =
    | Decoded(id: Id, returnId: Id, decoder: Id, result: CanonicalResult)
    | NotDecoded(id: Id, returnId: Id, decoder: Id, failure: DecodeFailure, detail: Id)

  datatype Start = Start(eventId: Id, at: int)
  datatype Attempt = Attempt(plan: AttemptPlan, start: Option<Start>, outcome: Option<Outcome>)

  datatype RequestState = RequestState(
    request: Request, attempts: seq<Attempt>, noAttempts: seq<NoAttempt>,
    decodes: seq<Decode>, accepted: Option<Id>)

  datatype Context = Context(scope: Scope, schedulerPolicy: Id)

  /** `discharged` abstracts the active hard lemmas: the propositions and scopes they close. */
  datatype Inquiry = Inquiry(
    id: Id, manifest: Id, context: Context, sequence: nat,
    plans: seq<StepPlan>, requests: seq<RequestState>,
    claims: seq<Claim>, conflicts: seq<Conflict>, obligations: seq<Obligation>,
    dispositions: seq<Disposition>, guards: seq<GuardChange>,
    warrants: seq<Warrant>, discharged: set<(Id, Scope)>)

  // ------------------------------------------------------------ lookups by identity

  /** The first record with the given identity. */
  function FindBy<T>(s: seq<T>, key: T -> Id, id: Id): (r: Option<T>)
    ensures r.Some? ==> r.value in s && key(r.value) == id
    ensures r.None? ==> forall x :: x in s ==> key(x) != id
  {
    if s == [] then None else if key(s[0]) == id then Some(s[0]) else FindBy(s[1..], key, id)
  }

  predicate DistinctKeys<T>(s: seq<T>, key: T -> Id) {
    forall i, j :: 0 <= i < j < |s| ==> key(s[i]) != key(s[j])
  }

  lemma {:induction false} FindPrefix<T>(s: seq<T>, t: seq<T>, key: T -> Id, id: Id)
    requires s <= t && FindBy(s, key, id).Some?
    ensures FindBy(t, key, id) == FindBy(s, key, id)
  {
    assert s[0] == t[0];
    if key(s[0]) != id { FindPrefix(s[1..], t[1..], key, id); }
  }

  lemma FindUnique<T>(s: seq<T>, key: T -> Id, x: T)
    requires DistinctKeys(s, key) && x in s
    ensures FindBy(s, key, key(x)) == Some(x)
  {
    var r := FindBy(s, key, key(x));
    var i :| 0 <= i < |s| && s[i] == x;
    assert r.Some?;
    var j :| 0 <= j < |s| && s[j] == r.value;
  }

  /** The items of every request, in request order. */
  function Flatten<T>(rs: seq<RequestState>, part: RequestState -> seq<T>): seq<T> {
    if rs == [] then [] else part(rs[0]) + Flatten(rs[1..], part)
  }

  lemma {:induction false} FlattenHas<T>(rs: seq<RequestState>, part: RequestState -> seq<T>, x: T)
    ensures x in Flatten(rs, part) <==> exists i :: 0 <= i < |rs| && x in part(rs[i])
  {
    if rs != [] {
      FlattenHas(rs[1..], part, x);
      if i :| 0 <= i < |rs[1..]| && x in part(rs[1..][i]) {
        assert x in part(rs[i+1]);
      }
      if i :| 0 <= i < |rs| && x in part(rs[i]) {
        assert i > 0 ==> rs[1..][i-1] == rs[i];
      }
    }
  }

  lemma KeysDiffer<T>(head: seq<T>, tail: seq<T>, key: T -> Id, h: T, k: T)
    requires DistinctKeys(head + tail, key) && h in head && k in tail
    ensures key(h) != key(k)
  {
    var a :| 0 <= a < |head| && head[a] == h;
    var b :| 0 <= b < |tail| && tail[b] == k;
    assert (head + tail)[a] == h && (head + tail)[|head| + b] == k;
  }

  /** Distinct identities across all requests pin both the request and the item. */
  lemma {:induction false} FlattenUnique<T>(rs: seq<RequestState>,
    part: RequestState -> seq<T>, key: T -> Id, i: nat, j: nat, x: T, y: T)
    requires DistinctKeys(Flatten(rs, part), key)
    requires i < |rs| && j < |rs| && x in part(rs[i]) && y in part(rs[j]) && key(x) == key(y)
    ensures i == j && x == y
  {
    var head, tail := part(rs[0]), Flatten(rs[1..], part);
    if i == 0 && j == 0 {
      var a :| 0 <= a < |head| && head[a] == x;
      var b :| 0 <= b < |head| && head[b] == y;
      assert (head + tail)[a] == x && (head + tail)[b] == y;
    } else if i == 0 || j == 0 {
      var (h, k, n) := if i == 0 then (x, y, j) else (y, x, i);
      assert rs[1..][n-1] == rs[n];
      FlattenHas(rs[1..], part, k);
      KeysDiffer(head, tail, key, h, k);
      assert false;
    } else {
      forall a, b | 0 <= a < b < |tail| ensures key(tail[a]) != key(tail[b]) {
        assert (head + tail)[|head| + a] == tail[a] && (head + tail)[|head| + b] == tail[b];
      }
      FlattenUnique(rs[1..], part, key, i - 1, j - 1, x, y);
    }
  }

  function PlanId(p: StepPlan): Id { p.id }
  function RequestId(r: RequestState): Id { r.request.id }
  function AttemptId(a: Attempt): Id { a.plan.id }
  function NoAttemptId(d: NoAttempt): Id { d.id }
  function DecodeId(d: Decode): Id { d.id }
  function ReturnId(x: ExternalReturn): Id { x.id }
  function ResultId(x: CanonicalResult): Id { x.id }
  function ClaimId(c: Claim): Id { c.id }
  function ConflictId(c: Conflict): Id { c.id }
  function ObligationId(o: Obligation): Id { o.id }
  function DispositionId(d: Disposition): Id { d.id }
  function GuardId(g: GuardChange): Id { g.id }
  function WarrantId(w: Warrant): Id { w.id }

  function Attempts(r: RequestState): seq<Attempt> { r.attempts }
  function NoAttempts(r: RequestState): seq<NoAttempt> { r.noAttempts }
  function Decodes(r: RequestState): seq<Decode> { r.decodes }

  function ReturnsIn(attempts: seq<Attempt>): seq<ExternalReturn> {
    if attempts == [] then []
    else
      var outcome := attempts[0].outcome;
      (if outcome.Some? && outcome.value.Returned? then [outcome.value.external] else [])
      + ReturnsIn(attempts[1..])
  }

  function Returns(r: RequestState): seq<ExternalReturn> { ReturnsIn(r.attempts) }

  function AcceptedResult(r: RequestState): seq<CanonicalResult> {
    if r.accepted.None? then []
    else
      var d := FindBy(r.decodes, DecodeId, r.accepted.value);
      if d.Some? && d.value.Decoded? then [d.value.result] else []
  }

  lemma {:induction false} ReturnsHave(attempts: seq<Attempt>, x: ExternalReturn)
    ensures x in ReturnsIn(attempts) <==>
              exists a :: a in attempts && a.outcome.Some? && a.outcome.value.Returned? && a.outcome.value.external == x
  {
    if attempts != [] {
      ReturnsHave(attempts[1..], x);
      assert attempts == [attempts[0]] + attempts[1..];
    }
  }

  /** A return with this identity was captured by the request. */
  predicate Captured(r: RequestState, returnId: Id) {
    exists x :: x in Returns(r) && x.id == returnId
  }

  // ------------------------------------------------------------ record rules

  predicate AttemptRules(a: Attempt) {
    a.outcome.Some? ==> a.start.Some? && a.outcome.value.Linked()
  }

  /** The cardinality and reference rules of one request's record. */
  predicate RequestRules(r: RequestState) {
    && (forall a :: a in r.attempts ==> AttemptRules(a))
    && DistinctKeys(r.attempts, AttemptId)
    && DistinctKeys(r.noAttempts, NoAttemptId)
    && DistinctKeys(Returns(r), ReturnId)
    && DistinctKeys(r.decodes, DecodeId)
    && (forall d :: d in r.decodes ==> Captured(r, d.returnId))
    && (r.accepted.Some? ==>
          var d := FindBy(r.decodes, DecodeId, r.accepted.value);
          d.Some? && d.value.Decoded?)
  }

  /** A ready plan selects an owned obligation by its exact fingerprint and revision. */
  predicate PlanRules(s: Inquiry, p: StepPlan) {
    && p.policy == s.context.schedulerPolicy
    && (p.selection.Some? ==>
          var o := FindBy(s.obligations, ObligationId, p.selection.value.obligationId);
          && o.Some?
          && p.selection.value.key.obligation == FingerprintOf(o.value)
          && p.selection.value.key.bindingRevision == o.value.scope.bindingRevision)
  }

  /** The effect part of the aggregate rules. */
  predicate EffectRules(s: Inquiry) {
    && DistinctKeys(s.requests, RequestId)
    && DistinctKeys(s.plans, PlanId)
    && (forall r :: r in s.requests ==> FindBy(s.plans, PlanId, r.request.stepPlanId).Some?)
    && DistinctKeys(Flatten(s.requests, Attempts), AttemptId)
    && DistinctKeys(Flatten(s.requests, Returns), ReturnId)
    && DistinctKeys(Flatten(s.requests, Decodes), DecodeId)
    && DistinctKeys(Flatten(s.requests, AcceptedResult), ResultId)
    && (forall r :: r in s.requests ==> RequestRules(r))
  }

  /** The claim, obligation, plan and guard part. */
  predicate RecordRules(s: Inquiry) {
    && DistinctKeys(s.claims, ClaimId)
    && DistinctKeys(s.conflicts, ConflictId)
    && DistinctKeys(s.obligations, ObligationId)
    && DistinctKeys(s.dispositions, DispositionId)
    && DistinctKeys(s.guards, GuardId)
    && DistinctKeys(s.warrants, WarrantId)
    && (forall c :: c in s.conflicts ==>
          FindBy(s.claims, ClaimId, c.first).Some? && FindBy(s.claims, ClaimId, c.second).Some?)
    && (forall d :: d in s.dispositions ==> FindBy(s.obligations, ObligationId, d.obligationId).Some?)
    && (forall p :: p in s.plans ==> PlanRules(s, p))
  }

  predicate Lifecycle(s: Inquiry) { EffectRules(s) && RecordRules(s) }

  // ------------------------------------------------------------ derived views

  function DispositionsOf(ds: seq<Disposition>, obligationId: Id): seq<Disposition> {
    if ds == [] then []
    else
      var last := ds[|ds|-1];
      DispositionsOf(ds[..|ds|-1], obligationId) + if last.obligationId == obligationId then [last] else []
  }

  /** The standing of an obligation: its last disposition, or its own status before any. */
  function StatusAfter(o: Obligation, history: seq<Disposition>): Status {
    if history == [] then o.status else history[|history|-1].status
  }

  function CurrentStatus(s: Inquiry, obligationId: Id): Option<Status> {
    match FindBy(s.obligations, ObligationId, obligationId)
    case None => None
    case Some(o) => Some(StatusAfter(o, DispositionsOf(s.dispositions, obligationId)))
  }

  function GuardHistory(gs: seq<GuardChange>, condition: Id): seq<GuardChange> {
    if gs == [] then []
    else
      var last := gs[|gs|-1];
      GuardHistory(gs[..|gs|-1], condition) + if last.condition == condition then [last] else []
  }

  function LatestGuard(gs: seq<GuardChange>, condition: Id): Option<GuardChange> {
    var h := GuardHistory(gs, condition);
    if h == [] then None else Some(h[|h|-1])
  }

  /** The dictionary of last changes, filled in history order. */
  function LastChanges(gs: seq<GuardChange>): map<Id, GuardChange> {
    if gs == [] then map[] else LastChanges(gs[..|gs|-1])[gs[|gs|-1].condition := gs[|gs|-1]]
  }

  function StandingContexts(gs: seq<GuardChange>): set<Id> {
    set c | c in LastChanges(gs) && LastChanges(gs)[c].standing
  }
}
