/** Whole calls of the persisted executor: the imperative program, its agreement with the step
    machine, and what one uninterrupted call settles. */
module ExecutorRuns {
  import opened Sequences
  import opened InquiryModel
  import opened Transitions
  import opened EffectLifecycle
  import opened EffectExecutor

  // ------------------------------------------------------------ a call run to its end

  function TriesLeft(tries: nat): nat { if tries <= 2 then 3 - tries else 0 }

  function StageRank(stage: Stage): nat {
    match stage
    case Accepting => 1
    case Recording(_) => 10
    case Capturing => 21
    case Ending => 21
    case Starting => 31
    case Refusing => 31
  }

  /** Every step of a call brings it closer to its end. */
  function Remaining(pc: Pc): nat {
    match pc
    case Entry => 50
    case Preflighting(_) => 40
    case Performing(_) => 30
    case Interpreting(_) => 20
    case Reading(stage, _, tries) => StageRank(stage) + 2 * TriesLeft(tries) + 1
    case Committing(stage, _, tries, _, _, _) => StageRank(stage) + 2 * TriesLeft(tries)
    case _ => 0
  }

  lemma NextFalls(ledger: seq<Event>, c: Call, pc: Pc, x: Answers)
    requires !Halted(pc)
    ensures Remaining(Next(ledger, c, pc, x).pc) < Remaining(pc)
  {
    hide Fold, Locate, FindBy, Decide, Evolve;
  }

  predicate TouchesLedger(pc: Pc) { pc.Entry? || pc.Reading? || pc.Committing? }

  /** Another writer's next batch lands when the ledger with it still replays. */
  function Arrive(ledger: seq<Event>, arrivals: seq<seq<Event>>): (seq<Event>, seq<seq<Event>>) {
    if arrivals == [] then (ledger, [])
    else if Fold(Unstarted, ledger + arrivals[0]).Some? then (ledger + arrivals[0], arrivals[1..])
    else (ledger, arrivals[1..])
  }

  datatype Final = Final(ledger: seq<Event>, arrivals: seq<seq<Event>>, pc: Pc)

  /** The rest of a call, with one scheduled batch landing before each ledger access. */
  function Drive(ledger: seq<Event>, arrivals: seq<seq<Event>>, c: Call, pc: Pc, x: Answers): Final
    decreases Remaining(pc)
  {
    if Halted(pc) then Final(ledger, arrivals, pc)
    else
      NextFalls(ledger, c, pc, x);
      var (seen, left) := if TouchesLedger(pc) then Arrive(ledger, arrivals) else (ledger, arrivals);
      NextFalls(seen, c, pc, x);
      var progress := Next(seen, c, pc, x);
      Drive(seen + progress.appended, left, c, progress.pc, x)
  }

  // ------------------------------------------------------------ append with three tries

  datatype Folded = Folded(ledger: seq<Event>, arrivals: seq<seq<Event>>, state: Option<Inquiry>)

  /** What the retry loop leaves: the aggregate with the command applied, or an exception. */
  function AppendCommand(ledger: seq<Event>, arrivals: seq<seq<Event>>, command: Command, tries: nat): Folded
    decreases TriesLeft(tries)
  {
    if tries > 2 then Folded(ledger, arrivals, None)
    else
      var (seen, left) := Arrive(ledger, arrivals);
      var state := Fold(Unstarted, seen);
      if state.None? then Folded(seen, left, None)
      else
        match Decide(state.value, command)
        case Rejects(_) => Folded(seen, left, None)
        case Nothing => Folded(seen, left, if state.value.Active? then Some(state.value.inquiry) else None)
        case Emits(e) =>
          var next := Evolve(state.value, e);
          if next.None? || next.value.Unstarted? then Folded(seen, left, None)
          else
            var (now, later) := Arrive(seen, left);
            if |now| == |seen| then Folded(now + [e], later, Some(next.value.inquiry))
            else AppendCommand(now, later, command, tries + 1)
  }

  /** The loop is the machine's read and commit steps for one command. */
  lemma {:induction false} DriveAppends(ledger: seq<Event>, arrivals: seq<seq<Event>>, c: Call, stage: Stage,
    command: Command, tries: nat, x: Answers)
    requires tries <= 2
    ensures var f := AppendCommand(ledger, arrivals, command, tries);
      Drive(ledger, arrivals, c, Reading(stage, command, tries), x)
      == if f.state.Some? then Drive(f.ledger, f.arrivals, c, Resume(f.state.value, c, stage, x), x)
         else Final(f.ledger, f.arrivals, Raised)
    decreases TriesLeft(tries)
  {
    hide Fold, Decide, Evolve, Resume, Arrive;
    var pc := Reading(stage, command, tries);
    var (seen, left) := Arrive(ledger, arrivals);
    var read := Read(seen, c, stage, command, tries, x);
    SameLedger(seen);
    assert Drive(ledger, arrivals, c, pc, x) == Drive(seen, left, c, read, x);
    if read.Committing? {
      var (now, later) := Arrive(seen, left);
      var progress := Next(now, c, read, x);
      assert Drive(seen, left, c, read, x) == Drive(now + progress.appended, later, c, progress.pc, x);
      if |now| != |seen| {
        SameLedger(now);
        if tries < 2 {
          DriveAppends(now, later, c, stage, command, tries + 1, x);
        }
      }
    }
  }

  // ------------------------------------------------------------ the imperative program

  /** How the store answers an append: a lost race alone is worth another try. */
  datatype Receipt = Committed | Stale | Invalid

  /** An append that wins its race passes the store's own fold. */
  lemma WinnerFolds(ledger: seq<Event>, arrivals: seq<seq<Event>>, state: Aggregate, e: Event)
    requires Fold(Unstarted, ledger) == Some(state) && Evolve(state, e).Some?
    ensures var now := Arrive(ledger, arrivals).0;
      |now| == |ledger| ==> Fold(Unstarted, now + [e]).Some?
  {
    hide Fold, Evolve;
    var now := Arrive(ledger, arrivals).0;
    assert |now| == |ledger| ==> now == ledger;
    FoldLast(Unstarted, ledger, e);
  }

  /** The authoritative ledger; `arrivals` schedules what other writers commit meanwhile. */
  class EventLedger {
    var events: seq<Event>
    var arrivals: seq<seq<Event>>

    constructor (events: seq<Event>, arrivals: seq<seq<Event>>)
      ensures this.events == events && this.arrivals == arrivals
    {
      this.events, this.arrivals := events, arrivals;
    }

    method Interfere()
      modifies this
      ensures (events, arrivals) == Arrive(old(events), old(arrivals))
    {
      if arrivals != [] {
        var landed := Replay(events + arrivals[0], Unstarted);
        if landed.Some? { events := events + arrivals[0]; }
        arrivals := arrivals[1..];
      }
    }

    method RebuildState() returns (state: Option<Aggregate>)
      modifies this
      ensures (events, arrivals) == Arrive(old(events), old(arrivals))
      ensures state == Fold(Unstarted, events)
    {
      Interfere();
      state := Replay(events, Unstarted);
    }

    /** Compare-and-swap on the sequence number; the store then folds the event itself before it
        becomes durable. */
    method Append(expected: nat, event: Event) returns (receipt: Receipt)
      modifies this
      ensures var (seen, left) := Arrive(old(events), old(arrivals));
        && arrivals == left
        && events == (if receipt.Committed? then seen + [event] else seen)
        && (receipt.Stale? <==> |seen| != expected)
        && (receipt.Committed? <==> |seen| == expected && Fold(Unstarted, seen + [event]).Some?)
    {
      Interfere();
      if |events| != expected { return Stale; }
      var candidate := Replay(events + [event], Unstarted);
      if candidate.None? { return Invalid; }
      events := events + [event];
      return Committed;
    }
  }

  class PersistedEffectExecutor {
    const ledger: EventLedger

    constructor (ledger: EventLedger)
      ensures this.ledger == ledger
    {
      this.ledger := ledger;
    }

    /** Append one idempotent command, retrying only optimistic races, at most three times. */
    method Append(command: Command) returns (state: Option<Inquiry>)
      modifies ledger
      ensures Folded(ledger.events, ledger.arrivals, state)
           == AppendCommand(old(ledger.events), old(ledger.arrivals), command, 0)
    {
      hide Fold, Decide, Evolve, Arrive;
      var tries := 0;
      while tries < 3
        invariant 0 <= tries <= 3
        invariant AppendCommand(ledger.events, ledger.arrivals, command, tries)
               == AppendCommand(old(ledger.events), old(ledger.arrivals), command, 0)
      {
        var rebuilt := ledger.RebuildState();
        if rebuilt.None? { return None; }
        var decision := Decide(rebuilt.value, command);
        match decision
        case Rejects(_) => return None;
        case Nothing => return if rebuilt.value.Active? then Some(rebuilt.value.inquiry) else None;
        case Emits(event) =>
          var next := Evolve(rebuilt.value, event);
          if next.None? || next.value.Unstarted? { return None; }
          WinnerFolds(ledger.events, ledger.arrivals, rebuilt.value, event);
          var receipt := ledger.Append(|ledger.events|, event);
          match receipt {
            case Committed => return Some(next.value.inquiry);
            case Invalid => return None;
            case Stale =>
          }
          tries := tries + 1;
      }
      return None;
    }

    /** Accept a recorded successful decode when the caller asked for it. */
    method Accept(state: Inquiry, c: Call, decode: Decode, x: Answers) returns (result: Pc)
      modifies ledger
      ensures Final(ledger.events, ledger.arrivals, result)
           == Drive(old(ledger.events), old(ledger.arrivals), c, AfterDecode(state, c, decode, x.acceptedAt), x)
    {
      hide Next, Arrive, AppendCommand;
      if !c.accept || !decode.Decoded? { return Done(state); }
      var command := AcceptCommand(c, decode.id, x.acceptedAt);
      DriveAppends(ledger.events, ledger.arrivals, c, Accepting, command, 0, x);
      var accepted := Append(command);
      if accepted.None? { return Raised; }
      return Done(accepted.value);
    }

    /** Decode the captured return unless it already is, then accept. */
    method Interpret(state: Inquiry, c: Call, x: Answers) returns (result: Pc)
      modifies ledger
      ensures Final(ledger.events, ledger.arrivals, result)
           == Drive(old(ledger.events), old(ledger.arrivals), c, Interpreting(state), x)
    {
      hide Arrive, AppendCommand, Fold, AfterDecode, Locate;
      var located := Locate(state, c);
      SameLedger(ledger.events);
      if located.None? || located.value.1.outcome.None? || !located.value.1.outcome.value.Returned? { return Raised; }
      var returnId := located.value.1.outcome.value.external.id;
      var existing := FindBy(located.value.0.decodes, ReadsReturn, returnId);
      if existing.Some? {
        result := Accept(state, c, existing.value, x);
        return;
      }
      var decodeId := DecodeIdOf(returnId, c.version);
      var command := DecodeCommand(c, returnId, x.decoding, x.decodedAt);
      DriveAppends(ledger.events, ledger.arrivals, c, Recording(decodeId), command, 0, x);
      var next := Append(command);
      if next.None? { return Raised; }
      result := AcceptRecorded(next.value, c, decodeId, x);
    }

    method AcceptRecorded(state: Inquiry, c: Call, decodeId: Id, x: Answers) returns (result: Pc)
      modifies ledger
      ensures Final(ledger.events, ledger.arrivals, result)
           == Drive(old(ledger.events), old(ledger.arrivals), c, Resume(state, c, Recording(decodeId), x), x)
    {
      hide Arrive, Next, AfterDecode, Locate;
      var located := Locate(state, c);
      if located.None? { return Raised; }
      var recorded := FindBy(located.value.0.decodes, DecodeId, decodeId);
      if recorded.None? { return Raised; }
      result := Accept(state, c, recorded.value, x);
    }

    method FinishOutcome(state: Inquiry, c: Call, x: Answers) returns (result: Pc)
      modifies ledger
      ensures Final(ledger.events, ledger.arrivals, result)
           == Drive(old(ledger.events), old(ledger.arrivals), c, AfterOutcome(state, c), x)
    {
      hide Arrive, Next, Locate;
      var located := Locate(state, c);
      if located.None? { return Raised; }
      if located.value.1.outcome.None? || !located.value.1.outcome.value.Returned? { return Done(state); }
      result := Interpret(state, c, x);
    }

    /** Call the adapter once and log what came back. */
    method Perform(state: Inquiry, c: Call, x: Answers) returns (result: Pc)
      modifies ledger
      ensures Final(ledger.events, ledger.arrivals, result)
           == Drive(old(ledger.events), old(ledger.arrivals), c, Performing(state), x)
    {
      hide Arrive, AppendCommand, Fold, AfterOutcome, Locate;
      var located := Locate(state, c);
      SameLedger(ledger.events);
      if located.None? { return Raised; }
      var attempt := located.value.1;
      var stage, command;
      match x.performance {
        case Refused(d) => stage, command := Ending, EndCommand(c, attempt, 3, NotPresented, d, x.endedAt);
        case Broke(d) => stage, command := Ending, EndCommand(c, attempt, 4, PresentationUnknown, d, x.endedAt);
        case NotBytes(d) => stage, command := Ending, EndCommand(c, attempt, 5, CaptureFailed, d, x.endedAt);
        case Bytes(raw) => stage, command := Capturing, CaptureCommand(c, attempt, raw, x.endedAt);
      }
      DriveAppends(ledger.events, ledger.arrivals, c, stage, command, 0, x);
      var next := Append(command);
      if next.None? { return Raised; }
      if stage.Ending? { return Done(next.value); }
      result := FinishOutcome(next.value, c, x);
    }

    method FinishStart(state: Inquiry, c: Call, x: Answers) returns (result: Pc)
      modifies ledger
      ensures Final(ledger.events, ledger.arrivals, result)
           == Drive(old(ledger.events), old(ledger.arrivals), c, AfterStart(state, c), x)
    {
      hide Arrive, Next, AfterOutcome, Locate;
      var located := Locate(state, c);
      if located.None? || located.value.1.start.None? { return Raised; }
      if located.value.1.outcome.None? {
        result := Perform(state, c, x);
      } else {
        result := FinishOutcome(state, c, x);
      }
    }

    /** Check the adapter's capability, then log the start before anything is performed. */
    method StartOrRefuse(state: Inquiry, c: Call, x: Answers) returns (result: Pc)
      modifies ledger
      ensures Final(ledger.events, ledger.arrivals, result)
           == Drive(old(ledger.events), old(ledger.arrivals), c, Preflighting(state), x)
    {
      hide Arrive, AppendCommand, Fold, AfterStart, Locate;
      var located := Locate(state, c);
      SameLedger(ledger.events);
      if located.None? { return Raised; }
      if x.preflight.Unsupported? {
        var command := RefusalCommand(c, located.value.0, x.preflight.diagnostic, x.startedAt);
        DriveAppends(ledger.events, ledger.arrivals, c, Refusing, command, 0, x);
        var refused := Append(command);
        return if refused.None? then Raised else Done(refused.value);
      }
      var command := StartCommand(c, x.startedAt);
      DriveAppends(ledger.events, ledger.arrivals, c, Starting, command, 0, x);
      var started := Append(command);
      if started.None? { return Raised; }
      result := FinishStart(started.value, c, x);
    }

    /** Execute or resume one planned attempt. */
    method Execute(c: Call, x: Answers) returns (result: Pc)
      modifies ledger
      ensures Final(ledger.events, ledger.arrivals, result)
           == Drive(old(ledger.events), old(ledger.arrivals), c, Entry, x)
    {
      hide Arrive, AfterStart, Locate;
      var rebuilt := ledger.RebuildState();
      SameLedger(ledger.events);
      if rebuilt.None? || rebuilt.value.Unstarted? { return Raised; }
      var state := rebuilt.value.inquiry;
      var located := Locate(state, c);
      if located.None? { return Raised; }
      var (request, attempt) := located.value;
      if request.request.adapterId != c.adapterId || attempt.plan.route.adapterId != c.adapterId
         || attempt.plan.route.adapterVersion != c.version || !x.valid
      {
        return Raised;
      }
      if request.accepted.Some? { return Done(state); }
      if attempt.outcome.Some? && !attempt.outcome.value.Returned? { return Done(state); }
      if attempt.start.None? {
        result := StartOrRefuse(state, c, x);
      } else {
        result := FinishStart(state, c, x);
      }
    }
  }
}
