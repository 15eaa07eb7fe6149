/** Persisted effect executors as step machines over a compare-and-swap ledger: any number of
    calls interleave with each other and with other writers, and may crash at any step. */
module EffectExecutor {
  import opened Sequences
  import opened InquiryModel
  import opened Transitions
  import opened EffectLedger
  import opened EffectLifecycle

  // ------------------------------------------------------------ one call

  datatype Call = Call(inquiryId: Id, requestId: Id, attemptId: Id, adapterId: Id, version: Id, accept: bool)

  datatype Preflight = Supported | Unsupported(diagnostic: Id)
  datatype Performance = Refused(diagnostic: Id) | Broke(diagnostic: Id) | NotBytes(diagnostic: Id) | Bytes(raw: Id)
  datatype Decoding = Semantic(body: Id) | Diagnosed(failure: DecodeFailure, detail: Id)

  /** What a step learns from outside: route validation, the clock and the adapter. */
  datatype Answers = Answers(
    valid: bool, startedAt: int, endedAt: int, decodedAt: int, acceptedAt: int,
    preflight: Preflight, performance: Performance, decoding: Decoding)

  function EventId(subject: Id, tag: nat): Id { Digest(EventName, [subject, Text(tag)]) }
  function ReturnIdOf(attemptId: Id, raw: Id): Id { Digest(ReturnName, [attemptId, raw]) }
  function DecodeIdOf(returnId: Id, version: Id): Id { Digest(DecodeName, [returnId, version]) }
  function ResultIdOf(decodeId: Id): Id { Digest(ResultName, [decodeId]) }
  function RefusalIdOf(attemptId: Id): Id { Digest(RefusalName, [attemptId]) }

  function RefusalCommand(c: Call, r: RequestState, diagnostic: Id, at: int): Command {
    Command(EventId(c.attemptId, 1), c.inquiryId, at,
            RecordNoAttempt(NoAttempt(RefusalIdOf(c.attemptId), c.requestId, r.request.stepPlanId, diagnostic)))
  }

  function StartCommand(c: Call, at: int): Command {
    Command(EventId(c.attemptId, 2), c.inquiryId, at, StartAttempt(c.attemptId))
  }

  function EndCommand(c: Call, a: Attempt, tag: nat, failure: Failure, detail: Id, at: int): Command {
    Command(EventId(c.attemptId, tag), c.inquiryId, at,
            RecordOutcome(c.requestId, Ended(c.attemptId, a.plan.route.id, failure, detail)))
  }

  function CaptureCommand(c: Call, a: Attempt, raw: Id, at: int): Command {
    var id := ReturnIdOf(c.attemptId, raw);
    Command(EventId(id, 6), c.inquiryId, at,
            RecordOutcome(c.requestId,
              Returned(c.attemptId, a.plan.route.id, ExternalReturn(id, c.attemptId, a.plan.route.id, at, raw))))
  }

  function DecodeOf(c: Call, returnId: Id, answer: Decoding): Decode {
    var id, decoder := DecodeIdOf(returnId, c.version), Digest(DecoderName, [c.adapterId, c.version]);
    match answer
    case Semantic(body) => Decoded(id, returnId, decoder, CanonicalResult(ResultIdOf(id), body))
    case Diagnosed(failure, detail) => NotDecoded(id, returnId, decoder, failure, detail)
  }

  function DecodeCommand(c: Call, returnId: Id, answer: Decoding, at: int): Command {
    Command(EventId(DecodeIdOf(returnId, c.version), 7), c.inquiryId, at,
            RecordDecode(c.requestId, DecodeOf(c, returnId, answer)))
  }

  function AcceptCommand(c: Call, decodeId: Id, at: int): Command {
    Command(EventId(decodeId, 8), c.inquiryId, at, AcceptResult(c.requestId, decodeId))
  }

  /** What the call does once an append has folded its command. */
  datatype Stage = Refusing | Starting | Ending | Capturing | Recording(decodeId: Id) | Accepting

  datatype Pc =
    | Entry
    | Preflighting(view: Inquiry)
    | Performing(view: Inquiry)
    | Interpreting(view: Inquiry)
    | Reading(stage: Stage, command: Command, tries: nat)
    | Committing(stage: Stage, command: Command, tries: nat, expected: nat, event: Event, next: Inquiry)
    | Done(result: Inquiry)
    | Raised

  predicate Halted(pc: Pc) { pc.Done? || pc.Raised? }

  /** The request and attempt of the call, when the aggregate owns both. */
  function Locate(s: Inquiry, c: Call): (r: Option<(RequestState, Attempt)>)
    ensures r.Some? ==> r.value.0 in s.requests && r.value.0.request.id == c.requestId
    ensures r.Some? ==> r.value.1 in r.value.0.attempts && r.value.1.plan.id == c.attemptId
  {
    var r := FindBy(s.requests, RequestId, c.requestId);
    if r.None? then None
    else
      var a := FindBy(r.value.attempts, AttemptId, c.attemptId);
      if a.None? then None else Some((r.value, a.value))
  }

  function ReadsReturn(d: Decode): Id { d.returnId }

  function Begin(s: Inquiry, c: Call, valid: bool): Pc {
    var at := Locate(s, c);
    if at.None? then Raised
    else
      var (r, a) := at.value;
      if r.request.adapterId != c.adapterId || a.plan.route.adapterId != c.adapterId
         || a.plan.route.adapterVersion != c.version || !valid
      then Raised
      else if r.accepted.Some? then Done(s)
      else if a.outcome.Some? && !a.outcome.value.Returned? then Done(s)
      else if a.start.None? then Preflighting(s)
      else AfterStart(s, c)
  }

  function AfterStart(s: Inquiry, c: Call): Pc {
    var at := Locate(s, c);
    if at.None? || at.value.1.start.None? then Raised
    else if at.value.1.outcome.None? then Performing(s)
    else AfterOutcome(s, c)
  }

  function AfterOutcome(s: Inquiry, c: Call): Pc {
    var at := Locate(s, c);
    if at.None? then Raised
    else if at.value.1.outcome.None? || !at.value.1.outcome.value.Returned? then Done(s)
    else Interpreting(s)
  }

  function AfterDecode(s: Inquiry, c: Call, d: Decode, at: int): Pc {
    if c.accept && d.Decoded? then Reading(Accepting, AcceptCommand(c, d.id, at), 0) else Done(s)
  }

  function Perform(c: Call, a: Attempt, x: Answers): Pc {
    match x.performance
    case Refused(d) => Reading(Ending, EndCommand(c, a, 3, NotPresented, d, x.endedAt), 0)
    case Broke(d) => Reading(Ending, EndCommand(c, a, 4, PresentationUnknown, d, x.endedAt), 0)
    case NotBytes(d) => Reading(Ending, EndCommand(c, a, 5, CaptureFailed, d, x.endedAt), 0)
    case Bytes(raw) => Reading(Capturing, CaptureCommand(c, a, raw, x.endedAt), 0)
  }

  function Interpret(s: Inquiry, c: Call, r: RequestState, returnId: Id, x: Answers): Pc {
    var existing := FindBy(r.decodes, ReadsReturn, returnId);
    if existing.Some? then AfterDecode(s, c, existing.value, x.acceptedAt)
    else Reading(Recording(DecodeIdOf(returnId, c.version)), DecodeCommand(c, returnId, x.decoding, x.decodedAt), 0)
  }

  function Resume(s: Inquiry, c: Call, stage: Stage, x: Answers): Pc {
    match stage
    case Refusing => Done(s)
    case Starting => AfterStart(s, c)
    case Ending => Done(s)
    case Capturing => AfterOutcome(s, c)
    case Recording(id) =>
      var at := Locate(s, c);
      if at.None? then Raised
      else
        var d := FindBy(at.value.0.decodes, DecodeId, id);
        if d.None? then Raised else AfterDecode(s, c, d.value, x.acceptedAt)
    case Accepting => Done(s)
  }

  datatype Progress = Progress(pc: Pc, appended: seq<Event>)

  /** Rebuild, decide and evolve one command; an empty decision is already applied. */
  function Read(ledger: seq<Event>, c: Call, stage: Stage, command: Command, tries: nat, x: Answers): Pc {
    var state := Fold(Unstarted, ledger);
    if state.None? then Raised
    else
      match Decide(state.value, command)
      case Rejects(_) => Raised
      case Nothing => if state.value.Active? then Resume(state.value.inquiry, c, stage, x) else Raised
      case Emits(e) =>
        var next := Evolve(state.value, e);
        if next.None? || next.value.Unstarted? then Raised
        else Committing(stage, command, tries, |ledger|, e, next.value.inquiry)
  }

  /** One step of a call: at most one access to the ledger or the adapter. */
  function Next(ledger: seq<Event>, c: Call, pc: Pc, x: Answers): Progress {
    match pc
    case Entry =>
      var state := Fold(Unstarted, ledger);
      if state.None? || state.value.Unstarted? then Progress(Raised, [])
      else Progress(Begin(state.value.inquiry, c, x.valid), [])
    case Preflighting(view) =>
      var at := Locate(view, c);
      if at.None? then Progress(Raised, [])
      else if x.preflight.Supported? then Progress(Reading(Starting, StartCommand(c, x.startedAt), 0), [])
      else Progress(Reading(Refusing, RefusalCommand(c, at.value.0, x.preflight.diagnostic, x.startedAt), 0), [])
    case Performing(view) =>
      var at := Locate(view, c);
      if at.None? then Progress(Raised, []) else Progress(Perform(c, at.value.1, x), [])
    case Interpreting(view) =>
      var at := Locate(view, c);
      if at.None? || at.value.1.outcome.None? || !at.value.1.outcome.value.Returned? then Progress(Raised, [])
      else Progress(Interpret(view, c, at.value.0, at.value.1.outcome.value.external.id, x), [])
    case Reading(stage, command, tries) => Progress(Read(ledger, c, stage, command, tries, x), [])
    case Committing(stage, command, tries, expected, event, next) =>
      if |ledger| == expected then Progress(Resume(next, c, stage, x), [event])
      else if tries >= 2 then Progress(Raised, [])
      else Progress(Reading(stage, command, tries + 1), [])
    case _ => Progress(pc, [])
  }

  // ------------------------------------------------------------ many calls

  datatype Process = Process(call: Call, pc: Pc, began: nat)

  /** One adapter call: by which process and at which ledger length. */
  datatype Invocation = Invocation(process: nat, at: nat)

  /** `authors` names the process that committed each event; other writers have none. */
  datatype System = System(
    ledger: seq<Event>, authors: seq<Option<nat>>, processes: seq<Process>, invocations: seq<Invocation>)

  datatype Move =
    | Environment(event: Event)
    | Spawn(call: Call)
    | Run(process: nat, answers: Answers)
    | Crash(process: nat)

  const NOTHING := System([], [], [], [])

  function RunProcess(sys: System, i: nat, x: Answers): System
    requires i < |sys.processes|
  {
    var p := sys.processes[i];
    var progress := Next(sys.ledger, p.call, p.pc, x);
    System(
      sys.ledger + progress.appended,
      sys.authors + seq(|progress.appended|, _ => Some(i)),
      sys.processes[i := p.(pc := progress.pc)],
      sys.invocations + if p.pc.Performing? then [Invocation(i, |sys.ledger|)] else [])
  }

  /** The store admits another writer's event when the whole ledger still replays. */
  function Apply(sys: System, m: Move): Option<System> {
    match m
    case Environment(e) =>
      if Fold(Unstarted, sys.ledger + [e]).None? then None
      else Some(sys.(ledger := sys.ledger + [e], authors := sys.authors + [None]))
    case Spawn(c) => Some(sys.(processes := sys.processes + [Process(c, Entry, |sys.ledger|)]))
    case Run(i, x) => if i < |sys.processes| then Some(RunProcess(sys, i, x)) else None
    case Crash(i) =>
      if i < |sys.processes| then Some(sys.(processes := sys.processes[i := sys.processes[i].(pc := Raised)])) else None
  }

  function RunAll(sys: System, moves: seq<Move>): Option<System>
    decreases moves
  {
    if moves == [] then Some(sys)
    else
      var next := Apply(sys, moves[0]);
      if next.None? then None else RunAll(next.value, moves[1..])
  }

  // ------------------------------------------------------------ what every run keeps

  predicate Replays(ledger: seq<Event>) { Fold(Unstarted, ledger).Some? }

  predicate Current(ledger: seq<Event>, s: Inquiry) { Fold(Unstarted, ledger) == Some(Active(s)) }

  /** The view is the fold of a ledger prefix no shorter than when the call began. */
  ghost predicate Seen(ledger: seq<Event>, began: nat, view: Inquiry) {
    exists v :: began <= v <= |ledger| && Current(ledger[..v], view)
  }

  /** The call's attempt is there, and its planned route names the call's adapter and version. */
  predicate Located(s: Inquiry, c: Call) {
    Locate(s, c).Some? && var route := Locate(s, c).value.1.plan.route;
      route.adapterId == c.adapterId && route.adapterVersion == c.version
  }

  /** A decode as an executor writes it for this route. */
  predicate MadeFor(route: Route, d: Decode) {
    && d.id == DecodeIdOf(d.returnId, route.adapterVersion)
    && d.decoder == Digest(DecoderName, [route.adapterId, route.adapterVersion])
    && (d.Decoded? ==> d.result.id == ResultIdOf(d.id))
  }

  predicate CapturedReturn(s: Inquiry, c: Call, returnId: Id) {
    Located(s, c) && var a := Locate(s, c).value.1;
      a.start.Some? && a.outcome.Some? && a.outcome.value.Returned? && a.outcome.value.external.id == returnId
  }

  /** The decodes of the attempt's return that calls use: the first one recorded, and their own. */
  predicate Usable(r: RequestState, a: Attempt, d: Decode) {
    && a.start.Some? && a.outcome.Some? && a.outcome.value.Returned?
    && d in r.decodes && d.returnId == a.outcome.value.external.id
    && (FindBy(r.decodes, ReadsReturn, d.returnId) == Some(d) || MadeFor(a.plan.route, d))
  }

  /** The request holds a usable decode of this identity. */
  predicate ReadsOwnReturn(s: Inquiry, c: Call, decodeId: Id) {
    Located(s, c) && var (r, a) := Locate(s, c).value;
      exists d :: d in r.decodes && Usable(r, a, d) && d.id == decodeId
  }

  /** The commands a call may issue for its own attempt. */
  predicate Fits(s: Inquiry, c: Call, a: Action) {
    && Located(s, c)
    && match a
       case StartAttempt(id) => id == c.attemptId
       case RecordNoAttempt(d) => d.requestId == c.requestId && d.id == RefusalIdOf(c.attemptId)
       case RecordOutcome(id, o) => id == c.requestId && o.attemptId == c.attemptId
       case RecordDecode(id, d) =>
         id == c.requestId && CapturedReturn(s, c, d.returnId) && MadeFor(Locate(s, c).value.1.plan.route, d)
       case AcceptResult(id, d) => id == c.requestId && ReadsOwnReturn(s, c, d)
       case _ => false
  }

  /** The event identity a call derives for a command of its attempt. */
  predicate Labelled(c: Call, command: Command) {
    match command.action
    case StartAttempt(_) => command.eventId == EventId(c.attemptId, 2)
    case RecordNoAttempt(_) => command.eventId == EventId(c.attemptId, 1)
    case RecordOutcome(_, o) =>
      if o.Returned? then
        command.eventId == EventId(o.external.id, 6) && o.external.id == ReturnIdOf(c.attemptId, o.external.raw)
      else exists tag: nat :: 3 <= tag <= 5 && command.eventId == EventId(c.attemptId, tag)
    case RecordDecode(_, d) => command.eventId == EventId(d.id, 7)
    case AcceptResult(_, id) => command.eventId == EventId(id, 8)
    case _ => false
  }

  ghost predicate FitsNow(ledger: seq<Event>, c: Call, command: Command) {
    command.action.Effect() && Labelled(c, command) && exists s :: Current(ledger, s) && Fits(s, c, command.action)
  }

  /** Each stage appends its own kind of command. */
  predicate StageFits(stage: Stage, a: Action) {
    match stage
    case Refusing => a.RecordNoAttempt?
    case Starting => a.StartAttempt?
    case Ending => a.RecordOutcome?
    case Capturing => a.RecordOutcome?
    case Recording(id) => a.RecordDecode? && a.decode.id == id
    case Accepting => a.AcceptResult?
  }

  ghost predicate PcGood(ledger: seq<Event>, c: Call, began: nat, pc: Pc) {
    match pc
    case Preflighting(view) => Seen(ledger, began, view) && Located(view, c)
    case Performing(view) =>
      Seen(ledger, began, view) && Located(view, c)
      && Locate(view, c).value.1.start.Some? && Locate(view, c).value.1.outcome.None?
    case Interpreting(view) => Seen(ledger, began, view) && Located(view, c) && Locate(view, c).value.1.start.Some?
    case Reading(stage, command, _) => FitsNow(ledger, c, command) && StageFits(stage, command.action)
    case Committing(stage, command, _, expected, e, next) =>
      FitsNow(ledger, c, command) && StageFits(stage, command.action) && e.command == command
        && began <= expected <= |ledger|
      && Current(ledger[..expected] + [e], next)
    case _ => true
  }

  predicate HasStart(ledger: seq<Event>, attemptId: Id, before: nat)
    requires before <= |ledger|
  {
    exists k :: 0 <= k < before && ledger[k].command.action == StartAttempt(attemptId)
  }

  predicate HasOutcome(ledger: seq<Event>, attemptId: Id, before: nat)
    requires before <= |ledger|
  {
    exists k :: 0 <= k < before && ledger[k].command.action.RecordOutcome?
      && ledger[k].command.action.outcome.attemptId == attemptId
  }

  /** The attempt's start precedes the call of the adapter, and no outcome preceded the process. */
  predicate InvocationGood(sys: System, v: Invocation) {
    v.process < |sys.processes| && v.at <= |sys.ledger|
    && var p := sys.processes[v.process];
       p.began <= v.at && HasStart(sys.ledger, p.call.attemptId, v.at)
         && !HasOutcome(sys.ledger, p.call.attemptId, p.began)
  }

  ghost predicate AuthorGood(sys: System, k: nat)
    requires k < |sys.ledger| == |sys.authors|
  {
    sys.authors[k].Some? ==>
      && sys.authors[k].value < |sys.processes|
      && FitsNow(sys.ledger, sys.processes[sys.authors[k].value].call, sys.ledger[k].command)
  }

  ghost predicate SystemInvariant(sys: System) {
    && Replays(sys.ledger) && |sys.authors| == |sys.ledger|
    && (forall i :: 0 <= i < |sys.processes| ==>
          var p := sys.processes[i]; p.began <= |sys.ledger| && PcGood(sys.ledger, p.call, p.began, p.pc))
    && (forall v :: v in sys.invocations ==> InvocationGood(sys, v))
    && (forall k :: 0 <= k < |sys.ledger| ==> AuthorGood(sys, k))
  }

  // ------------------------------------------------------------ growth of the ledger

  lemma PrefixKept(ledger: seq<Event>, more: seq<Event>, v: nat)
    requires v <= |ledger|
    ensures (ledger + more)[..v] == ledger[..v]
  {}

  lemma SeenGrows(ledger: seq<Event>, more: seq<Event>, began: nat, view: Inquiry)
    requires Seen(ledger, began, view)
    ensures Seen(ledger + more, began, view)
  {
    hide Current;
    var v :| began <= v <= |ledger| && Current(ledger[..v], view);
    PrefixKept(ledger, more, v);
  }

  /** A later aggregate of the same ledger still holds the call's attempt, moved forward. */
  lemma LocateMoves(s: Inquiry, t: Inquiry, c: Call)
    requires Moves(s, t) && Sound(s) && Sound(t) && Locate(s, c).Some?
    ensures Locate(t, c).Some?
    ensures RequestMoves(Locate(s, c).value.0, Locate(t, c).value.0)
    ensures AttemptMoves(Locate(s, c).value.1, Locate(t, c).value.1)
  {
    hide Lifecycle, FindBy, Flatten, RequestRules;
    SoundRules(s);
    SoundRules(t);
    var (r, a) := Locate(s, c).value;
    var q := RequestKept(s, t, r);
    RequestFound(t, q);
    var b := AttemptKept(r, q, a);
    RulesOf(t, q);
    UniqueAttempt(q, b);
  }

  lemma UniqueAttempt(q: RequestState, b: Attempt)
    requires RequestRules(q) && b in q.attempts
    ensures FindBy(q.attempts, AttemptId, b.plan.id) == Some(b)
  {
    FindUnique(q.attempts, AttemptId, b);
  }

  lemma FitsMoves(s: Inquiry, t: Inquiry, c: Call, a: Action)
    requires Moves(s, t) && Sound(s) && Sound(t) && Fits(s, c, a)
    ensures Fits(t, c, a)
  {
    hide Moves, Sound, Locate;
    LocateMoves(s, t, c);
    if a.AcceptResult? {
      var (r, x) := Locate(s, c).value;
      var (q, y) := Locate(t, c).value;
      var d :| d in r.decodes && Usable(r, x, d) && d.id == a.decodeId;
      UsableMoves(r, x, q, y, d);
    }
  }

  lemma UsableMoves(r: RequestState, a: Attempt, q: RequestState, b: Attempt, d: Decode)
    requires RequestMoves(r, q) && AttemptMoves(a, b) && Usable(r, a, d)
    ensures Usable(q, b, d)
  {
    if FindBy(r.decodes, ReadsReturn, d.returnId) == Some(d) {
      FindPrefix(r.decodes, q.decodes, ReadsReturn, d.returnId);
    }
  }

  lemma FoldedBefore(ledger: seq<Event>, v: nat, s: Inquiry) returns (t: Inquiry)
    requires Replays(ledger) && v <= |ledger| && Current(ledger[..v], s)
    ensures Current(ledger, t) && Moves(s, t) && Sound(s) && Sound(t)
  {
    hide Moves, Sound, Evolve, Fold;
    assert ledger == ledger[..v] + ledger[v..];
    FoldSplits(Unstarted, ledger[..v], ledger[v..]);
    t := StaysActive(s, ledger[v..]);
    LedgerMoves(ledger[..v], s, ledger[v..], t);
  }

  lemma {:induction false} StaysActive(s: Inquiry, events: seq<Event>) returns (t: Inquiry)
    requires Fold(Active(s), events).Some?
    ensures Fold(Active(s), events) == Some(Active(t))
    decreases |events|
  {
    hide Evolve;
    if events == [] {
      t := s;
    } else {
      EvolveActive(Active(s), events[0]);
      t := StaysActive(Evolve(Active(s), events[0]).value.inquiry, events[1..]);
    }
  }

  lemma SeenBefore(ledger: seq<Event>, began: nat, view: Inquiry) returns (t: Inquiry)
    requires Replays(ledger) && Seen(ledger, began, view)
    ensures Current(ledger, t) && Moves(view, t) && Sound(view) && Sound(t)
  {
    hide Moves, Sound, Fold;
    var v :| began <= v <= |ledger| && Current(ledger[..v], view);
    t := FoldedBefore(ledger, v, view);
  }

  lemma FitsNowGrows(ledger: seq<Event>, more: seq<Event>, c: Call, command: Command)
    requires FitsNow(ledger, c, command) && Replays(ledger + more)
    ensures FitsNow(ledger + more, c, command)
  {
    hide Fits, Fold, Moves, Sound;
    var s :| Current(ledger, s) && Fits(s, c, command.action);
    assert (ledger + more)[..|ledger|] == ledger;
    var t := FoldedBefore(ledger + more, |ledger|, s);
    FitsMoves(s, t, c, command.action);
  }

  lemma PcGoodGrows(ledger: seq<Event>, more: seq<Event>, c: Call, began: nat, pc: Pc)
    requires PcGood(ledger, c, began, pc) && Replays(ledger + more)
    ensures PcGood(ledger + more, c, began, pc)
  {
    hide Seen, FitsNow, Located, Current, Replays, Locate;
    match pc
    case Preflighting(view) => SeenGrows(ledger, more, began, view);
    case Performing(view) => SeenGrows(ledger, more, began, view);
    case Interpreting(view) => SeenGrows(ledger, more, began, view);
    case Reading(_, command, _) => FitsNowGrows(ledger, more, c, command);
    case Committing(_, command, _, expected, _, _) =>
      FitsNowGrows(ledger, more, c, command);
      PrefixKept(ledger, more, expected);
    case _ =>
  }

  // ------------------------------------------------------------ one step of one call

  lemma AfterStartGood(ledger: seq<Event>, c: Call, began: nat, s: Inquiry)
    requires Replays(ledger) && Seen(ledger, began, s) && Located(s, c)
    ensures PcGood(ledger, c, began, AfterStart(s, c)) && PcGood(ledger, c, began, AfterOutcome(s, c))
  {
    hide Seen, Replays, Locate, Sound, Moves, Current;
    var t := SeenBefore(ledger, began, s);
    var (r, a) := Locate(s, c).value;
    AttemptRulesOf(s, r, a);
  }

  lemma BeginGood(ledger: seq<Event>, c: Call, began: nat, s: Inquiry, valid: bool)
    requires Replays(ledger) && Seen(ledger, began, s)
    ensures PcGood(ledger, c, began, Begin(s, c, valid))
  {
    hide Seen, Replays, Locate, AfterStart, AfterOutcome;
    if Located(s, c) { AfterStartGood(ledger, c, began, s); }
  }

  lemma ViewFits(ledger: seq<Event>, c: Call, began: nat, view: Inquiry, command: Command)
    requires Replays(ledger) && Seen(ledger, began, view) && Fits(view, c, command.action) && command.action.Effect()
    requires Labelled(c, command)
    ensures FitsNow(ledger, c, command)
  {
    hide Labelled, Seen, Replays, Fits, Sound, Moves, Current;
    var t := SeenBefore(ledger, began, view);
    FitsMoves(view, t, c, command.action);
  }

  lemma AfterDecodeGood(ledger: seq<Event>, c: Call, began: nat, s: Inquiry, d: Decode, at: int)
    requires Replays(ledger) && Seen(ledger, began, s) && ReadsOwnReturn(s, c, d.id)
    ensures PcGood(ledger, c, began, AfterDecode(s, c, d, at))
  {
    hide Seen, Replays, Located, FitsNow, Current, Locate;
    if c.accept && d.Decoded? { ViewFits(ledger, c, began, s, AcceptCommand(c, d.id, at)); }
  }

  lemma ResumeGood(ledger: seq<Event>, c: Call, began: nat, s: Inquiry, stage: Stage, x: Answers)
    requires Replays(ledger) && Seen(ledger, began, s) && Located(s, c)
    requires stage.Recording? ==> ReadsOwnReturn(s, c, stage.decodeId)
    ensures PcGood(ledger, c, began, Resume(s, c, stage, x))
  {
    hide Seen, Replays, Located, ReadsOwnReturn, FitsNow, Current, AfterStart, AfterOutcome, AfterDecode;
    match stage
    case Starting => AfterStartGood(ledger, c, began, s);
    case Capturing => AfterStartGood(ledger, c, began, s);
    case Recording(id) =>
      var at := Locate(s, c);
      if at.Some? {
        var d := FindBy(at.value.0.decodes, DecodeId, id);
        if d.Some? { AfterDecodeGood(ledger, c, began, s, d.value, x.acceptedAt); }
      }
    case _ =>
  }

  lemma PerformGood(ledger: seq<Event>, c: Call, began: nat, view: Inquiry, a: Attempt, x: Answers)
    requires Replays(ledger) && Seen(ledger, began, view) && Located(view, c)
    ensures PcGood(ledger, c, began, Perform(c, a, x))
  {
    hide Seen, Replays, Located, FitsNow, Current;
    ViewFits(ledger, c, began, view, Perform(c, a, x).command);
  }

  lemma InterpretGood(ledger: seq<Event>, c: Call, began: nat, view: Inquiry, x: Answers)
    requires Replays(ledger) && Seen(ledger, began, view) && Located(view, c)
    requires Locate(view, c).value.1.start.Some? && Locate(view, c).value.1.outcome.Some?
          && Locate(view, c).value.1.outcome.value.Returned?
    ensures PcGood(ledger, c, began,
        Interpret(view, c, Locate(view, c).value.0, Locate(view, c).value.1.outcome.value.external.id, x))
  {
    hide Seen, Replays, FitsNow, Current, AfterDecode, Locate, ReadsOwnReturn, FindBy;
    LocatedHas(view, c);
    var (r, a) := Locate(view, c).value;
    var id := a.outcome.value.external.id;
    var existing := FindBy(r.decodes, ReadsReturn, id);
    if existing.Some? {
      FirstReader(view, c, existing.value);
      AfterDecodeGood(ledger, c, began, view, existing.value, x.acceptedAt);
    } else {
      ViewFits(ledger, c, began, view, DecodeCommand(c, id, x.decoding, x.decodedAt));
    }
  }

  lemma FirstReader(s: Inquiry, c: Call, d: Decode)
    requires Located(s, c) && Locate(s, c).value.1.start.Some? && Locate(s, c).value.1.outcome.Some?
    requires Locate(s, c).value.1.outcome.value.Returned?
    requires var (r, a) := Locate(s, c).value;
      FindBy(r.decodes, ReadsReturn, a.outcome.value.external.id) == Some(d)
    ensures ReadsOwnReturn(s, c, d.id)
  {
    hide Locate;
    var (r, a) := Locate(s, c).value;
    assert d in r.decodes && ReadsReturn(d) == d.returnId;
    assert Usable(r, a, d);
  }

  lemma WholeSeen(ledger: seq<Event>, began: nat, s: Inquiry)
    requires Current(ledger, s) && began <= |ledger|
    ensures Seen(ledger, began, s)
  {
    assert ledger[..|ledger|] == ledger;
  }

  lemma FitsNowLocated(ledger: seq<Event>, c: Call, command: Command, s: Inquiry)
    requires FitsNow(ledger, c, command) && Current(ledger, s)
    ensures Located(s, c)
  {}

  /** A recorded decode of the attempt's own return is in the call's own request. */
  lemma RecordedReads(s: Inquiry, c: Call, a: Action)
    requires Sound(s) && a.RecordDecode? && Fits(s, c, a) && Recorded(s, a)
    ensures ReadsOwnReturn(s, c, a.decode.id)
  {
    hide Lifecycle, Flatten, FindBy, RequestRules, Captured, Locate;
    var (r, x) := Locate(s, c).value;
    CapturedBy(r, x);
    var h :| h in s.requests && Holds(h, a);
    ReadersAreLocal(s, r, h, a.decode);
  }

  lemma ReadGood(ledger: seq<Event>, c: Call, began: nat, stage: Stage, command: Command, tries: nat, x: Answers)
    requires Replays(ledger) && FitsNow(ledger, c, command) && began <= |ledger| && StageFits(stage, command.action)
    ensures PcGood(ledger, c, began, Read(ledger, c, stage, command, tries, x))
  {
    hide Seen, Located, Evolve, Resume, Fold, Fits, Judge, Recorded, Sound, ReadsOwnReturn;
    var s :| Current(ledger, s) && Fits(s, c, command.action);
    FitsNowLocated(ledger, c, command, s);
    WholeSeen(ledger, began, s);
    match Decide(Active(s), command)
    case Rejects(_) =>
    case Nothing =>
      LedgerSound(ledger, s);
      KnownMeansRecorded(s, command.action);
      if stage.Recording? { RecordedReads(s, c, command.action); }
      ResumeGood(ledger, c, began, s, stage, x);
    case Emits(e) =>
      assert ledger[..|ledger|] == ledger;
      FoldLast(Unstarted, ledger, e);
  }

  lemma CommitGood(ledger: seq<Event>, c: Call, began: nat, pc: Pc, x: Answers)
    requires Replays(ledger) && pc.Committing? && PcGood(ledger, c, began, pc) && |ledger| == pc.expected
    ensures var grown := ledger + [pc.event];
      Replays(grown) && PcGood(grown, c, began, Resume(pc.next, c, pc.stage, x)) && FitsNow(grown, c, pc.event.command)
  {
    hide Seen, Located, Resume, Fold, Fits, Recorded, Sound, ReadsOwnReturn;
    var grown := ledger + [pc.event];
    assert ledger[..pc.expected] == ledger;
    assert Current(grown, pc.next);
    FitsNowGrows(ledger, [pc.event], c, pc.command);
    WholeSeen(grown, began, pc.next);
    FitsNowLocated(grown, c, pc.command, pc.next);
    LoggedIsRecorded(grown, pc.next, |ledger|);
    LedgerSound(grown, pc.next);
    if pc.stage.Recording? { RecordedReads(pc.next, c, pc.command.action); }
    ResumeGood(grown, c, began, pc.next, pc.stage, x);
  }

  lemma SameLedger(ledger: seq<Event>)
    ensures ledger + [] == ledger
  {}

  /** A step keeps the ledger replayable and the call's own facts, and commits only commands
      that fit its attempt. */
  lemma NextGood(ledger: seq<Event>, c: Call, began: nat, pc: Pc, x: Answers)
    requires Replays(ledger) && began <= |ledger| && PcGood(ledger, c, began, pc)
    ensures var progress := Next(ledger, c, pc, x);
      && |progress.appended| <= 1 && Replays(ledger + progress.appended)
      && PcGood(ledger + progress.appended, c, began, progress.pc)
      && (progress.appended != [] ==> FitsNow(ledger + progress.appended, c, progress.appended[0].command))
  {
    hide Seen, Locate, Located, FitsNow, Resume, Fold, Read, Begin, Perform, Interpret, Replays, Current;
    SameLedger(ledger);
    match pc
    case Entry =>
      var s := EntryState(ledger);
      if s.Some? {
        WholeSeen(ledger, began, s.value);
        BeginGood(ledger, c, began, s.value, x.valid);
      }
    case Preflighting(view) => PreflightGood(ledger, c, began, view, x);
    case Performing(view) => PerformGood(ledger, c, began, view, Locate(view, c).value.1, x) by { LocatedHas(view, c); }
    case Interpreting(view) =>
      LocatedHas(view, c);
      var a := Locate(view, c).value.1;
      if a.outcome.Some? && a.outcome.value.Returned? { InterpretGood(ledger, c, began, view, x); }
    case Reading(stage, command, tries) => ReadGood(ledger, c, began, stage, command, tries, x);
    case Committing(_, _, _, _, _, _) =>
      if |ledger| == pc.expected { CommitGood(ledger, c, began, pc, x); }
    case _ =>
  }

  lemma LocatedHas(s: Inquiry, c: Call)
    requires Located(s, c)
    ensures Locate(s, c).Some?
  {}

  lemma EntryState(ledger: seq<Event>) returns (s: Option<Inquiry>)
    ensures var state := Fold(Unstarted, ledger);
      s == if state.Some? && state.value.Active? then Some(state.value.inquiry) else None
    ensures s.Some? ==> Current(ledger, s.value)
  {
    var state := Fold(Unstarted, ledger);
    s := if state.Some? && state.value.Active? then Some(state.value.inquiry) else None;
  }

  lemma PreflightGood(ledger: seq<Event>, c: Call, began: nat, view: Inquiry, x: Answers)
    requires Replays(ledger) && Seen(ledger, began, view) && Located(view, c)
    ensures PcGood(ledger, c, began, Next(ledger, c, Preflighting(view), x).pc)
  {
    hide Seen, Replays, FitsNow, Current, Locate;
    ViewFits(ledger, c, began, view, Next(ledger, c, Preflighting(view), x).pc.command);
  }
}
