/** One Interaction turn (app/agent/interaction.py): sequence allocation,
    reserve-before-send, the five-message fuse, the two-attempt retry and the
    single fixed fallback. The model, the provider and the message table's
    failures are an adversarial script. */
module Interaction {
  import opened Wrappers
  import opened Text

  const MAX_VISIBLE_OUTBOUNDS: nat := 5
  const FALLBACK_REPLY := "desculpa, tive um problema… tenta de novo em instantes."
  const CONFIRMATION_ID := "pending-action-confirmation"
  const RESULT_ID := "execution-result-fallback"
  const FALLBACK_ID := "fallback"

  datatype EventKind = UserInbound | ExecutionResult | InternalEvent
  datatype TurnState = Done | WaitingExecution | Silent
  datatype Delivery = Reserved | Sent | Undelivered
  datatype Outcome = SkippedEmpty | SkippedLimit | Deduplicated | SendFailed | SentNotPersisted | SentAndPersisted

  /** What happens around one send: the reservation may roll back or commit
      with its acknowledgement lost, the provider accepts or rejects, and the
      later status update may fail. */
  datatype Net =
    | ReserveFails | ReserveUnknown
    | Accepted | AcceptedNotRecorded | Rejected | RejectedNotRecorded

  datatype Call =
    | Send(id: Option<string>, body: string, net: Net)
    | Dispatch(hasActiveRun: bool)
    | OtherTool

  datatype Ending = Finished(state: TurnState) | UsageLimit | Raised
  datatype Attempt = Attempt(calls: seq<Call>, ending: Ending, resultNet: Net)

  datatype Script = Script(first: Attempt, second: Attempt, confirmationNet: Net, fallbackNet: Net) {
    function At(i: nat): Attempt { if i == 0 then first else second }
  }

  /** What the turn was asked to do and what its context load found. */
  datatype Event = Event(
    kind: EventKind, requireVisible: bool, loaded: bool, activeRunLoaded: bool,
    stagedByThisRun: bool, confirmationBody: string, resultBody: string)

  /** The per-turn state, this run's rows of the message table, and the log of
      provider calls and acceptances. */
  datatype Turn = Turn(
    sequenceOf: map<string, nat>,
    reserved: set<nat>,
    outcomes: seq<Outcome>,
    hasActiveRun: bool,
    rows: map<nat, Delivery>,
    sends: seq<nat>,
    accepted: seq<nat>)

  const NEW_TURN := Turn(map[], {}, [], false, map[], [], [])

  /** A model run or fallback send, with what had been reserved and sent before it. */
  datatype Phase =
    | ModelRun(reserved: set<nat>, sends: nat)
    | ResultFallback(reserved: set<nat>, sends: nat)
    | FixedFallback(reserved: set<nat>, sends: nat)

  datatype End = Returned(state: Option<TurnState>) | Propagated
  datatype Report = Report(end: End, turn: Turn, phases: seq<Phase>)

  function CallKey(t: Turn, id: Option<string>): string {
    if id.Some? && id.value != "" then id.value else "call-" + Decimal(|t.sequenceOf| + 1)
  }

  function Allocate(t: Turn, id: Option<string>): (Turn, nat) {
    var key := CallKey(t, id);
    if key in t.sequenceOf then (t, t.sequenceOf[key])
    else
      var n := |t.sequenceOf| + 1;
      (t.(sequenceOf := t.sequenceOf[key := n]), n)
  }

  function Note(t: Turn, o: Outcome): Turn { t.(outcomes := t.outcomes + [o]) }

  /** The provider call and its bookkeeping, once the row is reserved. */
  function Deliver(t: Turn, n: nat, net: Net): (Turn, bool) {
    var sent := t.(sends := t.sends + [n]);
    match net
    case Rejected => (Note(sent, SendFailed).(rows := sent.rows[n := Undelivered]), true)
    case RejectedNotRecorded => (Note(sent, SendFailed), false)
    case AcceptedNotRecorded => (Note(sent, SentNotPersisted).(accepted := sent.accepted + [n]), true)
    case _ => (Note(sent, SentAndPersisted).(rows := sent.rows[n := Sent], accepted := sent.accepted + [n]), true)
  }

  /** A send under its sequence number: fuse, reservation, then the provider. */
  function SendNumbered(t: Turn, n: nat, net: Net): (Turn, bool) {
    if n > MAX_VISIBLE_OUTBOUNDS then (Note(t, SkippedLimit), true)
    else if net.ReserveFails? then (t, false)
    else if net.ReserveUnknown? then (if n in t.rows then t else t.(rows := t.rows[n := Reserved]), false)
    else if n in t.rows then (Note(t.(reserved := t.reserved + {n}), Deduplicated), true)
    else Deliver(t.(reserved := t.reserved + {n}, rows := t.rows[n := Reserved]), n, net)
  }

  predicate Blank(body: string) { Strip(body) == "" }

  /** One visible send; the flag is false when it raised. */
  function SendStep(t: Turn, id: Option<string>, body: string, net: Net): (Turn, bool) {
    if Blank(body) then (Note(t, SkippedEmpty), true)
    else
      var (u, n) := Allocate(t, id);
      SendNumbered(u, n, net)
  }

  function RunCall(kind: EventKind, t: Turn, c: Call): (Turn, bool) {
    match c
    case Send(id, body, net) => SendStep(t, id, body, net)
    case Dispatch(hasActiveRun) => (if kind.UserInbound? then t.(hasActiveRun := hasActiveRun) else t, true)
    case OtherTool => (t, true)
  }

  function RunCalls(kind: EventKind, t: Turn, calls: seq<Call>): (Turn, bool)
    decreases |calls|
  {
    if calls == [] then (t, true)
    else
      var (u, ok) := RunCall(kind, t, calls[0]);
      if ok then RunCalls(kind, u, calls[1..]) else (u, false)
  }

  predicate Visible(o: Outcome) { o.SentAndPersisted? || o.Deduplicated? || o.SentNotPersisted? }

  predicate Delivered(t: Turn) { exists i :: 0 <= i < |t.outcomes| && Visible(t.outcomes[i]) }

  predicate MustDeliver(e: Event) { e.requireVisible && e.kind.ExecutionResult? }

  function EffectiveState(e: Event, t: Turn, state: TurnState): TurnState {
    if e.kind.UserInbound? && state.WaitingExecution? && !t.hasActiveRun && !e.activeRunLoaded then Done else state
  }

  function Conclude(e: Event, t: Turn, state: TurnState, phases: seq<Phase>): Report {
    Report(Returned(if MustDeliver(e) && !Delivered(t) then None else Some(state)), t, phases)
  }

  function Fallback(s: Script, t: Turn, phases: seq<Phase>): Report {
    var (u, ok) := SendStep(t, Some(FALLBACK_ID), FALLBACK_REPLY, s.fallbackNet);
    Report(if ok then Returned(None) else Propagated, u, phases + [FixedFallback(t.reserved, |t.sends|)])
  }

  datatype Next = Stop(report: Report) | Retry(turn: Turn, phases: seq<Phase>)

  /** The attempt loop from attempt i on. */
  function Attempts(e: Event, s: Script, i: nat, t: Turn, phases: seq<Phase>): Report
    requires i <= 2
    decreases 2 - i
  {
    if i == 2 then Fallback(s, t, phases)
    else
      match AttemptStep(e, s, i, t, phases)
      case Stop(report) => report
      case Retry(u, ran) => Attempts(e, s, i + 1, u, ran)
  }

  function AttemptStep(e: Event, s: Script, i: nat, t: Turn, phases: seq<Phase>): Next {
    var (u, ok) := RunCalls(e.kind, t, s.At(i).calls);
    AfterModelRun(e, s, s.At(i), u, ok, phases + [ModelRun(t.reserved, |t.sends|)])
  }

  /** What follows one model run whose tool calls ended in u. */
  function AfterModelRun(e: Event, s: Script, a: Attempt, u: Turn, ok: bool, ran: seq<Phase>): Next {
    if !ok || a.ending.Raised? then
      if u.reserved != {} then Stop(Report(Returned(None), u, ran)) else Retry(u, ran)
    else if a.ending.UsageLimit? then
      if u.reserved != {} then Stop(Report(Returned(None), u, ran)) else Stop(Fallback(s, u, ran))
    else
      var (answer, v, phases) := AnswerStep(e, a, u, ran);
      if answer.Some? then Stop(answer.value)
      else if v.reserved != {} then Stop(Report(Returned(None), v, phases))
      else Retry(v, phases)
  }

  /** The answer to a model run that finished, replacing a silent result by the
      code-owned one; None when that send raised. */
  function AnswerStep(e: Event, a: Attempt, u: Turn, ran: seq<Phase>): (Option<Report>, Turn, seq<Phase>)
    requires a.ending.Finished?
  {
    if MustDeliver(e) && u.reserved == {} then
      var (v, sent) := SendStep(u, Some(RESULT_ID), e.resultBody, a.resultNet);
      var fell := ran + [ResultFallback(u.reserved, |u.sends|)];
      (if sent then Some(Conclude(e, v, Done, fell)) else None, v, fell)
    else (Some(Conclude(e, u, EffectiveState(e, u, a.ending.state), ran)), u, ran)
  }

  /** The code-owned confirmation of what this very execution staged. */
  function Confirmation(e: Event, s: Script, t: Turn): Report {
    var (u, ok) := SendStep(t, Some(CONFIRMATION_ID), e.confirmationBody, s.confirmationNet);
    if !ok then Report(Propagated, u, [])
    else Report(Returned(if Delivered(u) || !e.requireVisible then Some(Done) else None), u, [])
  }

  function RunTurn(e: Event, s: Script): Report {
    if !e.loaded then Report(Returned(None), NEW_TURN, [])
    else if e.kind.ExecutionResult? && e.stagedByThisRun then Confirmation(e, s, NEW_TURN)
    else Attempts(e, s, 0, NEW_TURN, [])
  }

  // ------------------------------------------------------- what one send amounts to

  /** A call id is numbered next if it is new, and keeps its number if it is known. */
  predicate Numbers(before: map<string, nat>, after: map<string, nat>, id: Option<string>, n: nat) {
    var key := if id.Some? && id.value != "" then id.value else "call-" + Decimal(|before| + 1);
    if key in before then n == before[key] && after == before
    else n == |before| + 1 && after == before[key := n]
  }

  /** The provider is called for n; its answer is logged, noted and put in the row. */
  predicate Calls(t: Turn, u: Turn, n: nat, net: Net, ok: bool) {
    && u == t.(sends := t.sends + [n], accepted := u.accepted, outcomes := u.outcomes, rows := u.rows)
    && match net
       case Accepted =>
         ok && u.accepted == t.accepted + [n] && u.outcomes == t.outcomes + [SentAndPersisted]
         && u.rows == t.rows[n := Sent]
       case AcceptedNotRecorded =>
         ok && u.accepted == t.accepted + [n] && u.outcomes == t.outcomes + [SentNotPersisted] && u.rows == t.rows
       case Rejected =>
         ok && u.accepted == t.accepted && u.outcomes == t.outcomes + [SendFailed] && u.rows == t.rows[n := Undelivered]
       case RejectedNotRecorded =>
         !ok && u.accepted == t.accepted && u.outcomes == t.outcomes + [SendFailed] && u.rows == t.rows
       case _ => true
  }

  /** A send that is not blank, under its number: over the fuse of five it is skipped;
      its reservation may fail, or commit and be reported as failed; a number already
      reserved is not sent again; and a new one is reserved, marked and called. */
  predicate SendsUnder(t: Turn, u: Turn, n: nat, net: Net, ok: bool) {
    if n > 5 then ok && u == t.(outcomes := t.outcomes + [SkippedLimit])
    else if net == ReserveFails then !ok && u == t
    else if net == ReserveUnknown then !ok && u == if n in t.rows then t else t.(rows := t.rows[n := Reserved])
    else if n in t.rows then
      ok && u == t.(reserved := t.reserved + {n}, outcomes := t.outcomes + [Deduplicated])
    else Calls(t.(reserved := t.reserved + {n}, rows := t.rows[n := Reserved]), u, n, net, ok)
  }

  ghost predicate SendsVisibly(t: Turn, u: Turn, id: Option<string>, body: string, net: Net, ok: bool) {
    if Strip(body) == "" then ok && u == t.(outcomes := t.outcomes + [SkippedEmpty])
    else
      exists n: nat ::
        Numbers(t.sequenceOf, u.sequenceOf, id, n) && SendsUnder(t.(sequenceOf := u.sequenceOf), u, n, net, ok)
  }

  lemma NumberedSends(t: Turn, n: nat, net: Net)
    ensures var (u, ok) := SendNumbered(t, n, net); SendsUnder(t, u, n, net, ok) && u.sequenceOf == t.sequenceOf
  {}

  /** ONE SEND does exactly that, whatever happens around it. */
  lemma SendStepSends(t: Turn, id: Option<string>, body: string, net: Net)
    ensures var (u, ok) := SendStep(t, id, body, net); SendsVisibly(t, u, id, body, net, ok)
  {
    if !Blank(body) {
      var (numbered, n) := Allocate(t, id);
      NumberedSends(numbered, n, net);
      assert Numbers(t.sequenceOf, numbered.sequenceOf, id, n);
    }
  }

  // ---------------------------------------------------------------- in place

  class InteractionDeps {
    var sequenceByToolCall: map<string, nat>
    var reservedSequences: set<nat>
    var outboundOutcomes: seq<Outcome>
    var dispatchHasActiveRun: bool
    var messages: map<nat, Delivery>
    var providerCalls: seq<nat>
    var providerAccepted: seq<nat>

    function State(): Turn reads this {
      Turn(sequenceByToolCall, reservedSequences, outboundOutcomes, dispatchHasActiveRun,
           messages, providerCalls, providerAccepted)
    }

    constructor ()
      ensures State() == NEW_TURN
    {
      sequenceByToolCall, reservedSequences, outboundOutcomes := map[], {}, [];
      dispatchHasActiveRun := false;
      messages, providerCalls, providerAccepted := map[], [], [];
    }

    method SequenceFor(id: Option<string>) returns (n: nat)
      modifies this`sequenceByToolCall
      ensures (State(), n) == Allocate(old(State()), id)
      ensures Numbers(old(sequenceByToolCall), sequenceByToolCall, id, n)
    {
      var key := CallKey(State(), id);
      if key !in sequenceByToolCall {
        sequenceByToolCall := sequenceByToolCall[key := |sequenceByToolCall| + 1];
      }
      n := sequenceByToolCall[key];
    }

    method RecordOutboundOutcome(o: Outcome)
      modifies this`outboundOutcomes
      ensures State() == Note(old(State()), o)
      ensures outboundOutcomes == old(outboundOutcomes) + [o]
    {
      outboundOutcomes := outboundOutcomes + [o];
    }

    /** The provider call for a reserved sequence number, and its bookkeeping. */
    method CallProvider(n: nat, net: Net) returns (ok: bool)
      modifies this`providerCalls, this`providerAccepted, this`messages, this`outboundOutcomes
      ensures (State(), ok) == Deliver(old(State()), n, net)
    {
      providerCalls := providerCalls + [n];
      if net.Rejected? || net.RejectedNotRecorded? {
        RecordOutboundOutcome(SendFailed);
        if net.RejectedNotRecorded? {
          return false;
        }
        messages := messages[n := Undelivered];
        return true;
      }
      providerAccepted := providerAccepted + [n];
      if net.AcceptedNotRecorded? {
        RecordOutboundOutcome(SentNotPersisted);
        return true;
      }
      messages := messages[n := Sent];
      RecordOutboundOutcome(SentAndPersisted);
      return true;
    }

    method SendVisible(id: Option<string>, body: string, net: Net) returns (ok: bool)
      modifies this
      ensures (State(), ok) == SendStep(old(State()), id, body, net)
    {
      if Blank(body) {
        RecordOutboundOutcome(SkippedEmpty);
        return true;
      }
      var n := SequenceFor(id);
      if n > MAX_VISIBLE_OUTBOUNDS {
        RecordOutboundOutcome(SkippedLimit);
        return true;
      }
      if net.ReserveFails? {
        return false;
      }
      var created := n !in messages;
      if created {
        messages := messages[n := Reserved];
      }
      if net.ReserveUnknown? {
        return false;
      }
      reservedSequences := reservedSequences + {n};
      if !created {
        RecordOutboundOutcome(Deduplicated);
        return true;
      }
      ok := CallProvider(n, net);
    }

    /** The model's tool calls of one attempt, stopping at the first that raises. */
    method RunTools(kind: EventKind, calls: seq<Call>) returns (ok: bool)
      modifies this
      ensures (State(), ok) == RunCalls(kind, old(State()), calls)
    {
      ok := true;
      for i := 0 to |calls|
        invariant RunCalls(kind, old(State()), calls) == RunCalls(kind, State(), calls[i..])
        invariant ok
      {
        match calls[i] {
          case Send(id, body, net) => ok := SendVisible(id, body, net);
          case Dispatch(active) => if kind == UserInbound { dispatchHasActiveRun := active; }
          case OtherTool =>
        }
        assert calls[i..][0] == calls[i] && calls[i..][1..] == calls[i + 1..];
        if !ok {
          return;
        }
      }
    }

    method SendConfirmation(e: Event, s: Script) returns (report: Report)
      modifies this
      ensures report == Confirmation(e, s, old(State()))
    {
      var ok := SendVisible(Some(CONFIRMATION_ID), e.confirmationBody, s.confirmationNet);
      if !ok {
        return Report(Propagated, State(), []);
      }
      var state := if Delivered(State()) || !e.requireVisible then Some(Done) else None;
      return Report(Returned(state), State(), []);
    }

    method SendFallback(s: Script, phases: seq<Phase>) returns (report: Report)
      modifies this
      ensures report == Fallback(s, old(State()), phases)
    {
      var tried := phases + [FixedFallback(reservedSequences, |providerCalls|)];
      var ok := SendVisible(Some(FALLBACK_ID), FALLBACK_REPLY, s.fallbackNet);
      return Report(if ok then Returned(None) else Propagated, State(), tried);
    }

    /** What one successful model run is answered with: a report, or nothing
        when the result fallback raised before reserving. */
    method Answer(e: Event, a: Attempt, ran: seq<Phase>) returns (answer: Option<Report>, phases: seq<Phase>)
      requires a.ending.Finished?
      modifies this
      ensures (answer, State(), phases) == AnswerStep(e, a, old(State()), ran)
    {
      phases := ran;
      var effective := a.ending.state;
      if e.requireVisible && e.kind == ExecutionResult && reservedSequences == {} {
        phases := phases + [ResultFallback({}, |providerCalls|)];
        var ok := SendVisible(Some(RESULT_ID), e.resultBody, a.resultNet);
        if !ok {
          return None, phases;
        }
        effective := Done;
      } else if e.kind == UserInbound && effective == WaitingExecution
                && !(dispatchHasActiveRun || e.activeRunLoaded) {
        effective := Done;
      }
      if e.requireVisible && e.kind == ExecutionResult && !Delivered(State()) {
        return Some(Report(Returned(None), State(), phases)), phases;
      }
      return Some(Report(Returned(Some(effective)), State(), phases)), phases;
    }
  }

  /** The turn as the source runs it, equal to its specification RunTurn. */
  method RunInteractionEvent(e: Event, s: Script) returns (report: Report)
    ensures report == RunTurn(e, s)
  {
    if !e.loaded {
      return Report(Returned(None), NEW_TURN, []);
    }
    var deps := new InteractionDeps();
    if e.kind == ExecutionResult && e.stagedByThisRun {
      report := deps.SendConfirmation(e, s);
      return;
    }
    var phases: seq<Phase> := [];
    for attempt := 0 to 2
      invariant RunTurn(e, s) == Attempts(e, s, attempt, deps.State(), phases)
    {
      phases := phases + [ModelRun(deps.reservedSequences, |deps.providerCalls|)];
      var a := s.At(attempt);
      var ok := deps.RunTools(e.kind, a.calls);
      if ok && a.ending.Finished? {
        var answer;
        answer, phases := deps.Answer(e, a, phases);
        if answer.Some? {
          return answer.value;
        }
      }
      if deps.reservedSequences != {} {
        return Report(Returned(None), deps.State(), phases);
      }
      if ok && a.ending == UsageLimit {
        break;
      }
    }
    report := deps.SendFallback(s, phases);
  }
}
