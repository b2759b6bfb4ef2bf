/** Confirming staged actions as a protocol: proposals, any number of concurrent
    confirmers, provider calls whose answer may be lost, expiry and crashes, in
    any interleaving. */
module Confirmations {
  import opened Wrappers
  import opened Table
  import opened PendingActions
  import opened Offers
  import Calendar
  import Text

  datatype Outcome = NothingPending | AmbiguousAction | AlreadyUsed | Completed | Retryable | Invalid

  /** Where a confirmer stands between its transactions and its provider call. */
  datatype Pc =
    | Choosing(wanted: Option<ActionId>)
    | Claiming(id: ActionId)
    | Checking(id: ActionId)
    | Calling(id: ActionId)
    | Settling(id: ActionId, acknowledged: bool)
    | Ended(outcome: Outcome)
    | Crashed

  /** One call of a confirmation service, made by an Interaction turn. */
  datatype Confirmer = Confirmer(contact: ContactId, kind: Kind, turn: TurnRef, message: string, pc: Pc)

  /** An Interaction turn for an inbound message: the actions its context loaded,
      the kinds whose confirmation tools it was offered, and how many actions
      there were then. */
  datatype Turn = Turn(contact: ContactId, message: string, loaded: set<ActionId>, offered: set<Kind>, known: nat)

  /** An execution run and the turn whose dispatch started it, if one did. */
  datatype Run = Run(contact: ContactId, source: Option<TurnRef>)

  /** The provider accepts or refuses, or its answer is lost. */
  datatype Reply = Accepted | Refused | Lost(executed: bool)

  datatype Sent = DraftSent(draft: string) | EventSent(request: Calendar.Request)

  /** An acknowledged provider call for an action, and what it carried. */
  datatype Ack = Ack(action: ActionId, sent: Sent)

  /** The table, its users, and the log of acknowledged calls and of effects. */
  datatype World = World(
    actions: seq<Action>, turns: seq<Turn>, runs: seq<Run>, confirmers: seq<Confirmer>,
    acks: seq<Ack>, effects: seq<ActionId>, now: Instant)

  const INIT := World([], [], [], [], [], [], 0)

  type Zones = string -> bool
  type Resolver = (string, string, string) -> Option<Calendar.Bounds>

  datatype Step =
    | Tick(elapsed: nat)
    | OpenTurn(contact: ContactId, message: string)
    | StartRun(contact: ContactId, source: Option<TurnRef>)
    | StageEvent(contact: ContactId, draft: Calendar.Draft, resolve: Resolver, run: RunId)
    | StageEmail(contact: ContactId, email: Email, run: RunId)
    | Confirm(turn: TurnRef, kind: Kind, wanted: Option<ActionId>)
    | ChooseAction(confirmer: nat)
    | ClaimChosen(confirmer: nat)
    | Check(confirmer: nat, connected: bool)
    | Call(confirmer: nat, reply: Reply)
    | Settle(confirmer: nat)
    | ExpireDue
    | Crash(confirmer: nat)

  /** The arguments of staging an e-mail, and what is staged if they are valid. */
  datatype Email = Email(draftId: string, to: string, subject: string)

  function EmailPayload(e: Email): Option<Payload> {
    var draft, subject, recipient := Text.Strip(e.draftId), Text.Strip(e.subject), Calendar.ValidateEmail(e.to);
    if recipient.Err? || draft == "" || |draft| > MAX_DRAFT_ID || subject == "" || |subject| > MAX_SUBJECT then None
    else Some(DraftPayload(draft, recipient.value, subject))
  }

  function NoBounds(): Resolver { (s: string, e: string, z: string) => None }

  /** The provider request of a payload; None when it is rejected locally. */
  function RequestFor(zones: Zones, p: Payload): Option<Sent> {
    match p
    case DraftPayload(draft, _, _) =>
      var clean := Text.Strip(draft);
      if clean == "" || |clean| > MAX_DRAFT_ID then None else Some(DraftSent(clean))
    case EventPayload(event) =>
      var request := Calendar.CreateRequest(Calendar.Library(zones, NoBounds()), event);
      if request.Err? then None else Some(EventSent(request.value))
  }

  function WithPc(w: World, k: nat, pc: Pc): World
    requires k < |w.confirmers|
  {
    w.(confirmers := w.confirmers[k := w.confirmers[k].(pc := pc)])
  }

  function NewTurn(w: World, contact: ContactId, message: string): Turn {
    Turn(contact, message, Loaded(w.actions, contact), Offered(w.actions, contact), |w.actions|)
  }

  function StageStep(w: World, contact: ContactId, payload: Payload, run: RunId): World
    requires run < |w.runs|
  {
    w.(actions := Stage(w.actions, contact, payload, Origin(Some(ExecutionTurn(run)), w.runs[run].source), w.now))
  }

  function StageEventStep(
    w: World, zones: Zones, contact: ContactId, draft: Calendar.Draft, resolve: Resolver, run: RunId)
    : World
    requires run < |w.runs|
  {
    var payload := Calendar.ValidateCreate(Calendar.Library(zones, resolve), draft);
    if payload.Err? then w else StageStep(w, contact, EventPayload(payload.value), run)
  }

  function StageEmailStep(w: World, contact: ContactId, email: Email, run: RunId): World
    requires run < |w.runs|
  {
    var payload := EmailPayload(email);
    if payload.None? then w else StageStep(w, contact, payload.value, run)
  }

  /** Listing, selecting and checking the stored hash; a row that fails the
      check is claimed and failed at once. */
  function ChooseStep(w: World, k: nat): World
    requires k < |w.confirmers| && w.confirmers[k].pc.Choosing?
  {
    var x := w.confirmers[k];
    match Choose(w.actions, x.contact, x.kind, x.pc.wanted, w.now)
    case Nothing => WithPc(w, k, Ended(NothingPending))
    case Ambiguous => WithPc(w, k, Ended(AmbiguousAction))
    case Chosen(id) =>
      if id < |w.actions| && PayloadHash(w.actions[id].payload) != w.actions[id].hash then
        var turn := InboundTurn(x.message);
        var (rows, claimed) := Claim(w.actions, id, x.contact, x.kind, turn, w.actions[id].hash, w.now);
        WithPc(if claimed then w.(actions := Fail(rows, id)) else w, k, Ended(Invalid))
      else WithPc(w, k, Claiming(id))
  }

  function ClaimStep(w: World, k: nat): World
    requires k < |w.confirmers| && w.confirmers[k].pc.Claiming? && w.confirmers[k].pc.id < |w.actions|
  {
    var x := w.confirmers[k];
    var hash := PayloadHash(w.actions[x.pc.id].payload);
    var (rows, claimed) := Claim(w.actions, x.pc.id, x.contact, x.kind, InboundTurn(x.message), hash, w.now);
    WithPc(w.(actions := rows), k, if claimed then Checking(x.pc.id) else Ended(AlreadyUsed))
  }

  /** A calendar payload that builds no request fails for good; a missing
      integration releases the claim. */
  function CheckStep(w: World, zones: Zones, k: nat, connected: bool): World
    requires k < |w.confirmers| && w.confirmers[k].pc.Checking? && w.confirmers[k].pc.id < |w.actions|
  {
    var id := w.confirmers[k].pc.id;
    var payload := w.actions[id].payload;
    if payload.EventPayload? && RequestFor(zones, payload).None? then
      WithPc(w.(actions := Fail(w.actions, id)), k, Ended(Invalid))
    else if !connected then WithPc(w.(actions := Release(w.actions, id)), k, Ended(Retryable))
    else WithPc(w, k, Calling(id))
  }

  function CallStep(w: World, zones: Zones, k: nat, reply: Reply): World
    requires k < |w.confirmers| && w.confirmers[k].pc.Calling? && w.confirmers[k].pc.id < |w.actions|
  {
    var id := w.confirmers[k].pc.id;
    var request := RequestFor(zones, w.actions[id].payload);
    if request.None? then WithPc(w, k, Settling(id, false))
    else
      match reply
      case Accepted =>
        WithPc(w.(acks := w.acks + [Ack(id, request.value)], effects := w.effects + [id]), k, Settling(id, true))
      case Refused => WithPc(w, k, Settling(id, false))
      case Lost(executed) =>
        WithPc(if executed then w.(effects := w.effects + [id]) else w, k, Settling(id, false))
  }

  function SettleStep(w: World, k: nat): World
    requires k < |w.confirmers| && w.confirmers[k].pc.Settling?
  {
    var id := w.confirmers[k].pc.id;
    if w.confirmers[k].pc.acknowledged then WithPc(w.(actions := Discard(w.actions, id)), k, Ended(Completed))
    else WithPc(w.(actions := Release(w.actions, id)), k, Ended(Retryable))
  }

  function NewConfirmer(t: Turn, turn: TurnRef, kind: Kind, wanted: Option<ActionId>): Confirmer {
    Confirmer(t.contact, kind, turn, t.message, Choosing(wanted))
  }

  /** The confirmer's action; every confirmer past choosing has one. */
  predicate Acts(w: World, k: nat) {
    k < |w.confirmers| && HasId(w.confirmers[k].pc) && w.confirmers[k].pc.id < |w.actions|
  }

  predicate HasId(pc: Pc) { pc.Claiming? || pc.Checking? || pc.Calling? || pc.Settling? }

  predicate Enabled(w: World, s: Step) {
    match s
    case StartRun(contact, source) =>
      source.Some? ==> source.value < |w.turns| && w.turns[source.value].contact == contact
    case StageEvent(contact, _, _, run) => run < |w.runs| && w.runs[run].contact == contact
    case StageEmail(contact, _, run) => run < |w.runs| && w.runs[run].contact == contact
    case Confirm(turn, kind, _) => turn < |w.turns| && kind in w.turns[turn].offered
    case ChooseAction(k) => k < |w.confirmers| && w.confirmers[k].pc.Choosing?
    case ClaimChosen(k) => Acts(w, k) && w.confirmers[k].pc.Claiming?
    case Check(k, _) => Acts(w, k) && w.confirmers[k].pc.Checking?
    case Call(k, _) => Acts(w, k) && w.confirmers[k].pc.Calling?
    case Settle(k) => Acts(w, k) && w.confirmers[k].pc.Settling?
    case Crash(k) => k < |w.confirmers|
    case _ => true
  }

  function Apply(zones: Zones, w: World, s: Step): World {
    if !Enabled(w, s) then w
    else
      match s
      case Tick(elapsed) => w.(now := w.now + elapsed)
      case OpenTurn(contact, message) =>
        w.(turns := w.turns + [NewTurn(w, contact, message)])
      case StartRun(contact, source) => w.(runs := w.runs + [Run(contact, source)])
      case StageEvent(contact, draft, resolve, run) => StageEventStep(w, zones, contact, draft, resolve, run)
      case StageEmail(contact, email, run) => StageEmailStep(w, contact, email, run)
      case Confirm(turn, kind, wanted) =>
        w.(confirmers := w.confirmers + [NewConfirmer(w.turns[turn], turn, kind, wanted)])
      case ChooseAction(k) => ChooseStep(w, k)
      case ClaimChosen(k) => ClaimStep(w, k)
      case Check(k, connected) => CheckStep(w, zones, k, connected)
      case Call(k, reply) => CallStep(w, zones, k, reply)
      case Settle(k) => SettleStep(w, k)
      case ExpireDue => w.(actions := Expire(w.actions, w.now))
      case Crash(k) => WithPc(w, k, Crashed)
  }

  function After(zones: Zones, w: World, steps: seq<Step>): World {
    if steps == [] then w else Apply(zones, After(zones, w, steps[..|steps| - 1]), steps[|steps| - 1])
  }

  // ------------------------------------------------------- one confirmation

  /** The steps of confirmer k with no other between. */
  function Uninterrupted(zones: Zones, w: World, k: nat, connected: bool, reply: Reply): World
    requires k < |w.confirmers| && w.confirmers[k].pc.Choosing?
  {
    var chosen := ChooseStep(w, k);
    if !chosen.confirmers[k].pc.Claiming? || chosen.confirmers[k].pc.id >= |chosen.actions| then chosen
    else AfterChoice(zones, chosen, k, connected, reply)
  }

  function AfterChoice(zones: Zones, w: World, k: nat, connected: bool, reply: Reply): World
    requires k < |w.confirmers| && w.confirmers[k].pc.Claiming? && w.confirmers[k].pc.id < |w.actions|
  {
    var claimed := ClaimStep(w, k);
    if !claimed.confirmers[k].pc.Checking? || claimed.confirmers[k].pc.id >= |claimed.actions| then claimed
    else AfterClaim(zones, claimed, k, connected, reply)
  }

  function AfterClaim(zones: Zones, w: World, k: nat, connected: bool, reply: Reply): World
    requires k < |w.confirmers| && w.confirmers[k].pc.Checking? && w.confirmers[k].pc.id < |w.actions|
  {
    var checked := CheckStep(w, zones, k, connected);
    if !checked.confirmers[k].pc.Calling? || checked.confirmers[k].pc.id >= |checked.actions| then checked
    else SettleStep(CallStep(checked, zones, k, reply), k)
  }

  /** The confirmation services as they run, over the table they share with every
      other session and the logs of what the provider did. */
  class ConfirmationService {
    const store: ActionStore
    var acks: seq<Ack>
    var effects: seq<ActionId>

    constructor (store: ActionStore)
      ensures this.store == store && acks == [] && effects == []
    {
      this.store := store;
      acks, effects := [], [];
    }

    function State(x: Confirmer): World
      reads this, store
    {
      World(store.actions, [], [], [x], acks, effects, store.now)
    }

    /** Claim, check, call and settle the selected action; what happens is the
        protocol's own steps in a row. */
    method ConfirmStaged(zones: Zones, x: Confirmer, connected: bool, reply: Reply) returns (outcome: Outcome)
      requires x.pc.Choosing?
      modifies store`actions, this`acks, this`effects
      ensures State(x.(pc := Ended(outcome))) == Uninterrupted(zones, old(State(x)), 0, connected, reply)
    {
      var pc := SelectAction(x);
      if pc.Ended? {
        return pc.outcome;
      }
      outcome := ExecuteChosen(zones, x.(pc := pc), connected, reply);
    }

    /** List, select and check the stored hash; a row that fails is claimed and failed. */
    method SelectAction(x: Confirmer) returns (pc: Pc)
      requires x.pc.Choosing?
      modifies store`actions
      ensures State(x.(pc := pc)) == ChooseStep(old(State(x)), 0)
      ensures pc.Ended? || (pc.Claiming? && pc.id < |store.actions|)
    {
      var candidates := store.ListPendingActions(x.contact);
      var selected := Select(store.actions, candidates, x.kind, x.pc.wanted);
      if selected.None? {
        var several := x.pc.wanted.None? && Count(candidates, OfKind(CreateEvent, store.actions)) > 1;
        var ambiguous := if x.kind.CreateEvent? then several else candidates != [];
        return Ended(if ambiguous then AmbiguousAction else NothingPending);
      }
      var id := selected.value;
      ListedAreRows(store.actions, candidates, id);
      var row := store.actions[id];
      if PayloadHash(row.payload) == row.hash {
        return Claiming(id);
      }
      var claimed := store.ClaimPendingAction(x.contact, x.kind, InboundTurn(x.message), Some(id), Some(row.hash));
      if claimed.Some? {
        store.FailPendingAction(id);
      }
      return Ended(Invalid);
    }

    method ExecuteChosen(zones: Zones, x: Confirmer, connected: bool, reply: Reply) returns (outcome: Outcome)
      requires x.pc.Claiming? && x.pc.id < |store.actions|
      modifies store`actions, this`acks, this`effects
      ensures State(x.(pc := Ended(outcome))) == AfterChoice(zones, old(State(x)), 0, connected, reply)
    {
      var id := x.pc.id;
      var expected := PayloadHash(store.actions[id].payload);
      var claimed := store.ClaimPendingAction(x.contact, x.kind, InboundTurn(x.message), Some(id), Some(expected));
      var pc := if claimed.Some? then Checking(id) else Ended(AlreadyUsed);
      assert State(x.(pc := pc)) == ClaimStep(old(State(x)), 0);
      if claimed.None? {
        return AlreadyUsed;
      }
      outcome := ExecuteClaimed(zones, x.(pc := pc), connected, reply);
    }

    method ExecuteClaimed(zones: Zones, x: Confirmer, connected: bool, reply: Reply) returns (outcome: Outcome)
      requires x.pc.Checking? && x.pc.id < |store.actions|
      modifies store`actions, this`acks, this`effects
      ensures State(x.(pc := Ended(outcome))) == AfterClaim(zones, old(State(x)), 0, connected, reply)
    {
      var id := x.pc.id;
      var payload := store.actions[id].payload;
      var request := RequestFor(zones, payload);
      if payload.EventPayload? && request.None? {
        store.FailPendingAction(id);
        return Invalid;
      }
      if !connected {
        store.ReleasePendingAction(id);
        return Retryable;
      }
      if request.None? || reply == Refused || reply == Lost(false) {
        store.ReleasePendingAction(id);
        return Retryable;
      }
      effects := effects + [id];
      if reply == Lost(true) {
        store.ReleasePendingAction(id);
        return Retryable;
      }
      acks := acks + [Ack(id, request.value)];
      store.DiscardPendingAction(id);
      return Completed;
    }
  }

  lemma ListedAreRows(rows: seq<Action>, listed: seq<ActionId>, id: ActionId)
    requires forall k :: 0 <= k < |listed| ==> listed[k] < |rows|
    requires id in listed
    ensures id < |rows|
  {}
}
