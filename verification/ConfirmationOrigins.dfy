/** Whose proposal a turn confirms: the turn column never tells, the source column
    does, and a turn can confirm what its own dispatch staged exactly when its
    confirmation tool was offered to it, by an older proposal or by a mere text. */
module ConfirmationOrigins {
  import opened Wrappers
  import opened PendingActions
  import opened Offers
  import opened Confirmations
  import opened ConfirmationProperties
  import opened ConfirmationTheorems
  import opened Text
  import Calendar

  // -------------------------------------------------------------- invariant

  /** The row names the run that staged it, and that run's dispatching turn,
      which was opened before the row was staged. */
  predicate OriginOk(w: World, i: ActionId)
    requires i < |w.actions|
  {
    var row := w.actions[i];
    && row.createdTurn.Some? && row.createdTurn.value.ExecutionTurn? && row.createdTurn.value.run < |w.runs|
    && row.contact == w.runs[row.createdTurn.value.run].contact
    && row.source == w.runs[row.createdTurn.value.run].source
    && (row.source.Some? ==> row.source.value < |w.turns| && w.turns[row.source.value].known <= i)
  }

  /** A loaded action of the turn has the kind. */
  ghost predicate HasLoaded(w: World, t: TurnRef, kind: Kind)
    requires t < |w.turns|
  {
    exists j: ActionId :: j in w.turns[t].loaded && j < |w.actions| && w.actions[j].kind == kind
  }

  /** A loaded action of the turn quotes the tag of the kind in one of its texts. */
  ghost predicate Quotes(w: World, t: TurnRef, kind: Kind)
    requires t < |w.turns|
  {
    exists j: ActionId :: j in w.turns[t].loaded && j < |w.actions| && Mentions(w.actions[j].payload, kind)
  }

  ghost predicate OfferOk(w: World, t: TurnRef, kind: Kind)
    requires t < |w.turns|
  {
    kind in w.turns[t].offered <==> HasLoaded(w, t, kind) || Quotes(w, t, kind)
  }

  ghost predicate TurnOk(w: World, t: TurnRef)
    requires t < |w.turns|
  {
    && w.turns[t].known <= |w.actions|
    && (forall j :: j in w.turns[t].loaded ==> j < w.turns[t].known && w.actions[j].contact == w.turns[t].contact)
    && (forall kind: Kind :: OfferOk(w, t, kind))
  }

  predicate RunOk(w: World, r: RunId)
    requires r < |w.runs|
  {
    w.runs[r].source.Some? ==> w.runs[r].source.value < |w.turns|
  }

  predicate CallerOk(w: World, x: Confirmer) {
    x.turn < |w.turns| && x.contact == w.turns[x.turn].contact && x.message == w.turns[x.turn].message
    && x.kind in w.turns[x.turn].offered
  }

  ghost predicate Origins(w: World) {
    && (forall i :: 0 <= i < |w.actions| ==> OriginOk(w, i))
    && (forall t :: 0 <= t < |w.turns| ==> TurnOk(w, t))
    && (forall r :: 0 <= r < |w.runs| ==> RunOk(w, r))
    && (forall k :: 0 <= k < |w.confirmers| ==> CallerOk(w, w.confirmers[k]))
  }

  ghost predicate Grows(w: World, v: World) {
    && w.turns <= v.turns && w.runs <= v.runs && |w.actions| <= |v.actions|
    && forall i :: 0 <= i < |w.actions| ==> v.actions[i] == w.actions[i].(status := v.actions[i].status)
  }

  lemma OfferStays(w: World, v: World, t: TurnRef, kind: Kind)
    requires t < |w.turns| && TurnOk(w, t) && Grows(w, v)
    ensures OfferOk(v, t, kind)
  {
    assert v.turns[t] == w.turns[t] && OfferOk(w, t, kind);
    if HasLoaded(w, t, kind) {
      var j: ActionId :| j in w.turns[t].loaded && j < |w.actions| && w.actions[j].kind == kind;
      assert v.actions[j].kind == kind;
    }
    if Quotes(w, t, kind) {
      var j: ActionId :| j in w.turns[t].loaded && j < |w.actions| && Mentions(w.actions[j].payload, kind);
      assert Mentions(v.actions[j].payload, kind);
    }
  }

  lemma TurnStays(w: World, v: World, t: TurnRef)
    requires t < |w.turns| && TurnOk(w, t) && Grows(w, v)
    ensures TurnOk(v, t)
  {
    forall kind: Kind ensures OfferOk(v, t, kind) { OfferStays(w, v, t, kind); }
  }

  /** Old rows, turns and runs stay as they should be; what is new must be checked. */
  lemma GrowthKeeps(w: World, v: World)
    requires Origins(w) && Grows(w, v)
    requires forall i :: |w.actions| <= i < |v.actions| ==> OriginOk(v, i)
    requires forall t :: |w.turns| <= t < |v.turns| ==> TurnOk(v, t)
    requires forall r :: |w.runs| <= r < |v.runs| ==> RunOk(v, r)
    requires forall k :: 0 <= k < |v.confirmers| ==>
               || CallerOk(v, v.confirmers[k])
               || (k < |w.confirmers| && v.confirmers[k] == w.confirmers[k].(pc := v.confirmers[k].pc))
    ensures Origins(v)
  {
    forall t | 0 <= t < |v.turns| ensures TurnOk(v, t) { if t < |w.turns| { TurnStays(w, v, t); } }
    forall i | 0 <= i < |v.actions| ensures OriginOk(v, i) { if i < |w.actions| { assert OriginOk(w, i); } }
    forall r | 0 <= r < |v.runs| ensures RunOk(v, r) { if r < |w.runs| { assert RunOk(w, r); } }
    forall k | 0 <= k < |v.confirmers| ensures CallerOk(v, v.confirmers[k]) {
      if k < |w.confirmers| { assert CallerOk(w, w.confirmers[k]); }
    }
  }

  lemma OpenKeeps(w: World, contact: ContactId, message: string)
    requires Origins(w)
    ensures Origins(w.(turns := w.turns + [NewTurn(w, contact, message)]))
  {
    var t := |w.turns|;
    var v := w.(turns := w.turns + [NewTurn(w, contact, message)]);
    assert v.turns[t] == NewTurn(w, contact, message);
    forall kind: Kind ensures OfferOk(v, t, kind) { NewOfferOk(w, v, contact, message, kind); }
    GrowthKeeps(w, v);
  }

  lemma NewOfferOk(w: World, v: World, contact: ContactId, message: string, kind: Kind)
    requires v == w.(turns := w.turns + [NewTurn(w, contact, message)])
    ensures OfferOk(v, |w.turns|, kind)
  {
    OfferedExactly(w.actions, contact, kind);
    assert v.turns[|w.turns|] == NewTurn(w, contact, message);
  }

  lemma StagingKeeps(w: World, contact: ContactId, payload: Payload, run: RunId)
    requires Origins(w) && run < |w.runs| && w.runs[run].contact == contact
    ensures Origins(StageStep(w, contact, payload, run))
  {
    assert RunOk(w, run);
    if w.runs[run].source.Some? { assert TurnOk(w, w.runs[run].source.value); }
    GrowthKeeps(w, StageStep(w, contact, payload, run));
  }

  predicate OnlyPositions(w: World, v: World) {
    && v.turns == w.turns && v.runs == w.runs && |v.actions| == |w.actions| && |v.confirmers| == |w.confirmers|
    && forall k :: 0 <= k < |v.confirmers| ==> v.confirmers[k] == w.confirmers[k].(pc := v.confirmers[k].pc)
  }

  /** A step of a confirmer, of time or of expiry opens, starts and stages nothing. */
  lemma OnlyPositionsMove(zones: Zones, w: World, s: Step)
    requires IsConfirmerStep(s) || s.Tick? || s.ExpireDue?
    ensures OnlyPositions(w, Apply(zones, w, s))
  {
    if Enabled(w, s) {
      match s
      case ChooseAction(k) => ChoosingMoves(w, k);
      case ClaimChosen(k) => ClaimingMoves(w, k);
      case Check(k, connected) => CheckingMoves(zones, w, k, connected);
      case _ => CallingMoves(zones, w, s);
    }
  }

  lemma ChoosingMoves(w: World, k: nat)
    requires k < |w.confirmers| && w.confirmers[k].pc.Choosing?
    ensures OnlyPositions(w, ChooseStep(w, k))
  {}

  lemma ClaimingMoves(w: World, k: nat)
    requires k < |w.confirmers| && w.confirmers[k].pc.Claiming? && w.confirmers[k].pc.id < |w.actions|
    ensures OnlyPositions(w, ClaimStep(w, k))
  {}

  lemma CheckingMoves(zones: Zones, w: World, k: nat, connected: bool)
    requires k < |w.confirmers| && w.confirmers[k].pc.Checking? && w.confirmers[k].pc.id < |w.actions|
    ensures OnlyPositions(w, CheckStep(w, zones, k, connected))
  {}

  lemma CallingMoves(zones: Zones, w: World, s: Step)
    requires Enabled(w, s) && (s.Call? || s.Settle? || s.Crash? || s.Tick? || s.ExpireDue?)
    ensures OnlyPositions(w, Apply(zones, w, s))
  {}

  lemma OtherStepKeepsOrigins(w: World, v: World)
    requires Origins(w) && Extends(w, v)
    requires v.turns == w.turns && v.runs == w.runs && |v.actions| == |w.actions| && |v.confirmers| == |w.confirmers|
    requires forall k :: 0 <= k < |v.confirmers| ==> v.confirmers[k] == w.confirmers[k].(pc := v.confirmers[k].pc)
    ensures Origins(v)
  {
    GrowthKeeps(w, v);
  }

  lemma StageStepKeepsOrigins(zones: Zones, w: World, s: Step)
    requires Origins(w) && (s.StageEmail? || s.StageEvent?) && Enabled(w, s)
    ensures Origins(Apply(zones, w, s))
  {
    if s.StageEmail? {
      var payload := EmailPayload(s.email);
      if payload.Some? { StagingKeeps(w, s.contact, payload.value, s.run); }
    } else {
      var payload := Calendar.ValidateCreate(Calendar.Library(zones, s.resolve), s.draft);
      if payload.Ok? { StagingKeeps(w, s.contact, EventPayload(payload.value), s.run); }
    }
  }

  lemma AskStepKeepsOrigins(zones: Zones, w: World, s: Step)
    requires Origins(w) && (s.OpenTurn? || s.StartRun? || s.Confirm?) && Enabled(w, s)
    ensures Origins(Apply(zones, w, s))
  {
    if s.OpenTurn? { OpenKeeps(w, s.contact, s.message); } else { GrowthKeeps(w, Apply(zones, w, s)); }
  }

  lemma StepKeepsOrigins(zones: Zones, w: World, s: Step)
    requires Inv(zones, w) && Origins(w)
    ensures Origins(Apply(zones, w, s)) && Grows(w, Apply(zones, w, s))
  {
    StepKeeps(zones, w, s);
    if Enabled(w, s) {
      if s.StageEmail? || s.StageEvent? {
        StageStepKeepsOrigins(zones, w, s);
      } else if s.OpenTurn? || s.StartRun? || s.Confirm? {
        AskStepKeepsOrigins(zones, w, s);
      } else {
        OnlyPositionsMove(zones, w, s);
        OtherStepKeepsOrigins(w, Apply(zones, w, s));
      }
    }
  }

  lemma {:induction false} RunKeepsOrigins(zones: Zones, w: World, steps: seq<Step>)
    requires Inv(zones, w) && Origins(w)
    ensures Origins(After(zones, w, steps)) && Grows(w, After(zones, w, steps))
  {
    if steps != [] {
      var init := steps[..|steps| - 1];
      RunKeepsOrigins(zones, w, init);
      RunKeeps(zones, w, init);
      StepKeepsOrigins(zones, After(zones, w, init), steps[|steps| - 1]);
    }
  }

  // ---------------------------------------------------------------- theorems

  /** THE TURN GATE NEVER REFUSES: in every reachable state a claim for an inbound
      message succeeds exactly when it would without the turn comparison. */
  lemma {:induction false} GateNeverRefuses(
    zones: Zones, steps: seq<Step>, id: ActionId, contact: ContactId, kind: Kind, message: string, hash: Digest,
    now: Instant)
    ensures var rows := After(zones, INIT, steps).actions;
            Claim(rows, id, contact, kind, InboundTurn(message), hash, now).1
            <==> (id < |rows| && Listed(rows[id], contact, now) && rows[id].kind == kind && rows[id].hash == hash)
  {
    RunKeepsOrigins(zones, INIT, steps);
    var w := After(zones, INIT, steps);
    if id < |w.actions| { assert OriginOk(w, id); }
  }

  /** The run that staged the action was dispatched by the turn. */
  predicate DispatchedBy(w: World, id: ActionId, t: TurnRef) {
    && id < |w.actions| && w.actions[id].createdTurn.Some? && w.actions[id].createdTurn.value.ExecutionTurn?
    && w.actions[id].createdTurn.value.run < |w.runs|
    && w.runs[w.actions[id].createdTurn.value.run].source == Some(t)
  }

  /** The confirmer is about to claim, for its turn, an action of that turn's own dispatch. */
  predicate ClaimsOwn(w: World, k: nat) {
    && Enabled(w, ClaimChosen(k)) && ClaimStep(w, k).confirmers[k].pc.Checking?
    && DispatchedBy(w, w.confirmers[k].pc.id, w.confirmers[k].turn)
  }

  /** A claim takes a proposal of its own turn exactly when it succeeds and the row
      stores that turn as its source: a comparison of the source columns would
      tell, where the one of the turn columns does not. */
  lemma {:induction false} OwnExactlyBySource(zones: Zones, steps: seq<Step>, k: nat)
    requires Enabled(After(zones, INIT, steps), ClaimChosen(k))
    ensures var w := After(zones, INIT, steps);
            var x := w.confirmers[k];
            var row := w.actions[x.pc.id];
            ClaimsOwn(w, k) <==> Listed(row, x.contact, w.now) && row.kind == x.kind && row.source == Some(x.turn)
  {
    RunKeeps(zones, INIT, steps);
    RunKeepsOrigins(zones, INIT, steps);
    var w := After(zones, INIT, steps);
    assert OriginOk(w, w.confirmers[k].pc.id) && RowOk(zones, w.actions[w.confirmers[k].pc.id]);
  }

  /** Payloads of the kind can be staged at all. */
  ghost predicate CanStage(zones: Zones, kind: Kind) {
    kind.SendEmail? || exists draft: Calendar.Draft, resolve: Resolver :: Accepts(zones, draft, resolve)
  }

  predicate Accepts(zones: Zones, draft: Calendar.Draft, resolve: Resolver) {
    Calendar.ValidateCreate(Calendar.Library(zones, resolve), draft).Ok?
  }

  ghost predicate ConfirmsOwnLater(zones: Zones, w: World, t: TurnRef, kind: Kind) {
    exists more: seq<Step>, k: nat :: OwnAfter(zones, w, more, k, t, kind)
  }

  predicate OwnAfter(zones: Zones, w: World, more: seq<Step>, k: nat, t: TurnRef, kind: Kind) {
    var v := After(zones, w, more);
    ClaimsOwn(v, k) && v.confirmers[k].turn == t && v.confirmers[k].kind == kind
  }

  /** Staging by a run of the turn, then confirming it by id, claims its own. */
  lemma StagedOwn(zones: Zones, w: World, t: TurnRef, kind: Kind, payload: Payload)
    requires t < |w.turns| && kind in w.turns[t].offered && payload.Kind() == kind
    requires 0 < |w.runs| && w.runs[|w.runs| - 1] == Run(w.turns[t].contact, Some(t))
    ensures var c, n, k := w.turns[t].contact, |w.actions|, |w.confirmers|;
            var asked := Apply(zones, StageStep(w, c, payload, |w.runs| - 1), Confirm(t, kind, Some(n)));
            var v := Apply(zones, asked, ChooseAction(k));
            ClaimsOwn(v, k) && v.confirmers[k].turn == t && v.confirmers[k].kind == kind
  {
    var c, n, k := w.turns[t].contact, |w.actions|, |w.confirmers|;
    var staged := StageStep(w, c, payload, |w.runs| - 1);
    var row := NewAction(c, payload, Origin(Some(ExecutionTurn(|w.runs| - 1)), Some(t)), w.now);
    assert staged.actions[n] == row;
    var asked := Apply(zones, staged, Confirm(t, kind, Some(n)));
    assert asked.confirmers[k] == Confirmer(c, kind, t, w.turns[t].message, Choosing(Some(n)));
    ListedComplete(staged.actions, c, w.now, n);
    assert ChooseStep(asked, k).confirmers[k].pc == Claiming(n);
  }

  lemma FoundLater(zones: Zones, w: World, more: seq<Step>, v: World, k: nat, t: TurnRef, kind: Kind)
    requires After(zones, w, more) == v && ClaimsOwn(v, k) && v.confirmers[k].turn == t && v.confirmers[k].kind == kind
    ensures ConfirmsOwnLater(zones, w, t, kind)
  {
    assert OwnAfter(zones, w, more, k, t, kind);
  }

  /** The world after the turn's dispatch has started a run. */
  function Dispatched(w: World, t: TurnRef): World
    requires t < |w.turns|
  {
    w.(runs := w.runs + [Run(w.turns[t].contact, Some(t))])
  }

  lemma ConfirmStagedOwn(zones: Zones, w: World, t: TurnRef, kind: Kind, stage: Step, payload: Payload)
    requires t < |w.turns| && kind in w.turns[t].offered && payload.Kind() == kind
    requires Apply(zones, w, StartRun(w.turns[t].contact, Some(t))) == Dispatched(w, t)
    requires Apply(zones, Dispatched(w, t), stage) == StageStep(Dispatched(w, t), w.turns[t].contact, payload, |w.runs|)
    ensures ConfirmsOwnLater(zones, w, t, kind)
  {
    var c, n, k := w.turns[t].contact, |w.actions|, |w.confirmers|;
    StagedOwn(zones, Dispatched(w, t), t, kind, payload);
    var more := [] + [StartRun(c, Some(t))];
    AfterAppend(zones, w, [], StartRun(c, Some(t)));
    AfterThree(zones, w, more, stage, Confirm(t, kind, Some(n)), ChooseAction(k));
    var asked := Apply(zones, StageStep(Dispatched(w, t), c, payload, |w.runs|), Confirm(t, kind, Some(n)));
    FoundLater(zones, w, more + [stage] + [Confirm(t, kind, Some(n))] + [ChooseAction(k)],
               Apply(zones, asked, ChooseAction(k)), k, t, kind);
  }

  lemma DispatchIs(zones: Zones, w: World, t: TurnRef)
    requires t < |w.turns|
    ensures Apply(zones, w, StartRun(w.turns[t].contact, Some(t))) == Dispatched(w, t)
  {}

  lemma EmailStagingIs(zones: Zones, w: World, contact: ContactId, run: RunId, email: Email)
    requires run < |w.runs| && w.runs[run].contact == contact && Acceptable(email)
    ensures Apply(zones, w, StageEmail(contact, email, run))
         == StageStep(w, contact, EmailPayload(email).value, run)
  {}

  lemma EventStagingIs(zones: Zones, w: World, contact: ContactId, run: RunId, draft: Calendar.Draft, resolve: Resolver)
    requires run < |w.runs| && w.runs[run].contact == contact && Accepts(zones, draft, resolve)
    ensures var p := Calendar.ValidateCreate(Calendar.Library(zones, resolve), draft).value;
            Apply(zones, w, StageEvent(contact, draft, resolve, run)) == StageStep(w, contact, EventPayload(p), run)
  {}

  lemma OfferedConfirmsOwn(zones: Zones, w: World, t: TurnRef, kind: Kind)
    requires t < |w.turns| && kind in w.turns[t].offered && CanStage(zones, kind)
    ensures ConfirmsOwnLater(zones, w, t, kind)
  {
    var c := w.turns[t].contact;
    DispatchIs(zones, w, t);
    if kind.SendEmail? {
      SomeAreAcceptable();
      var email :| Acceptable(email);
      EmailStagingIs(zones, Dispatched(w, t), c, |w.runs|, email);
      ConfirmStagedOwn(zones, w, t, kind, StageEmail(c, email, |w.runs|), EmailPayload(email).value);
    } else {
      var draft: Calendar.Draft, resolve: Resolver :| Accepts(zones, draft, resolve);
      EventStagingIs(zones, Dispatched(w, t), c, |w.runs|, draft, resolve);
      var p := Calendar.ValidateCreate(Calendar.Library(zones, resolve), draft).value;
      ConfirmStagedOwn(zones, w, t, kind, StageEvent(c, draft, resolve, |w.runs|), EventPayload(p));
    }
  }

  lemma OwnWasOffered(zones: Zones, w: World, t: TurnRef, kind: Kind)
    requires Inv(zones, w) && Origins(w) && t < |w.turns| && ConfirmsOwnLater(zones, w, t, kind)
    ensures kind in w.turns[t].offered
  {
    var more: seq<Step>, k: nat :| OwnAfter(zones, w, more, k, t, kind);
    RunKeepsOrigins(zones, w, more);
    var v := After(zones, w, more);
    assert CallerOk(v, v.confirmers[k]) && v.turns[t] == w.turns[t];
  }

  /** A TURN CAN CONFIRM WHAT ITS OWN DISPATCH STAGED exactly when it was offered
      the confirmation tool of that kind: when a proposal of the kind was pending
      or claimed as its context was loaded, or some such action, of either kind,
      quotes the kind's tag in its title, start, recipient or subject. */
  lemma {:induction false} OwnProposalExactly(zones: Zones, steps: seq<Step>, t: TurnRef, kind: Kind)
    requires t < |After(zones, INIT, steps).turns| && CanStage(zones, kind)
    ensures var w := After(zones, INIT, steps);
            && (ConfirmsOwnLater(zones, w, t, kind) <==> kind in w.turns[t].offered)
            && (kind in w.turns[t].offered <==> HasLoaded(w, t, kind) || Quotes(w, t, kind))
  {
    RunKeeps(zones, INIT, steps);
    RunKeepsOrigins(zones, INIT, steps);
    var w := After(zones, INIT, steps);
    assert TurnOk(w, t) && OfferOk(w, t, kind);
    if kind in w.turns[t].offered { OfferedConfirmsOwn(zones, w, t, kind); }
    if ConfirmsOwnLater(zones, w, t, kind) { OwnWasOffered(zones, w, t, kind); }
  }

  /** It does happen: the turn that is offered a staged e-mail can supersede it by
      its own dispatch and confirm the new one. */
  lemma OwnProposalIsReachable(zones: Zones, email: Email)
    requires Acceptable(email)
    ensures ConfirmsOwnLater(zones, After(zones, INIT, Offering(email)), 0, SendEmail)
  {
    StagedWorld(zones, email);
    OfferedConfirmsOwn(zones, After(zones, INIT, Offering(email)), 0, SendEmail);
  }

  /** A proposal of the kind that the turn had loaded is older and no longer live. */
  ghost predicate SupersedesLoaded(w: World, x: Confirmer) {
    && HasId(x.pc) && x.turn < |w.turns|
    && exists j: ActionId :: j in w.turns[x.turn].loaded && j < x.pc.id && j < |w.actions|
                             && w.actions[j].kind == x.kind && !Live(w.actions[j].status)
  }

  lemma OwnIsNewer(zones: Zones, w: World, k: nat)
    requires Inv(zones, w) && Origins(w) && ClaimsOwn(w, k)
    ensures var x := w.confirmers[k];
            && x.turn < |w.turns|
            && (SupersedesLoaded(w, x) <==> HasLoaded(w, x.turn, x.kind))
            && (HasLoaded(w, x.turn, x.kind) || Quotes(w, x.turn, x.kind))
  {
    var x := w.confirmers[k];
    assert CallerOk(w, x) && TurnOk(w, x.turn) && OriginOk(w, x.pc.id) && OfferOk(w, x.turn, x.kind);
    if HasLoaded(w, x.turn, x.kind) {
      var j: ActionId :| j in w.turns[x.turn].loaded && j < |w.actions| && w.actions[j].kind == x.kind;
      assert j < x.pc.id && w.actions[x.pc.id].status.Pending?;
      assert !Live(w.actions[j].status);
    }
  }

  /** What a turn confirms of its own superseded an older proposal it had loaded
      exactly if it had loaded one; if not, a loaded text quotes the kind's tag. */
  lemma {:induction false} OwnSupersededExactly(zones: Zones, steps: seq<Step>, k: nat)
    requires ClaimsOwn(After(zones, INIT, steps), k)
    ensures var w := After(zones, INIT, steps);
            var x := w.confirmers[k];
            && x.turn < |w.turns|
            && (SupersedesLoaded(w, x) <==> HasLoaded(w, x.turn, x.kind))
            && (!SupersedesLoaded(w, x) ==> Quotes(w, x.turn, x.kind))
  {
    RunKeeps(zones, INIT, steps);
    RunKeepsOrigins(zones, INIT, steps);
    OwnIsNewer(zones, After(zones, INIT, steps), k);
  }

  // ------------------------------------------- an offer made by a quoted text

  /** The event's title, as the summary quotes it, contains the e-mail tag. */
  predicate TitledAfterEmail(zones: Zones, draft: Calendar.Draft, resolve: Resolver) {
    && Accepts(zones, draft, resolve)
    && Within("tipo=send_email", Compact(AcceptedEvent(zones, draft, resolve).title, 120))
  }

  function AcceptedEvent(zones: Zones, draft: Calendar.Draft, resolve: Resolver): Calendar.Payload
    requires Accepts(zones, draft, resolve)
  {
    Calendar.ValidateCreate(Calendar.Library(zones, resolve), draft).value
  }

  /** An event is staged and a turn sees it. */
  function EventRun(draft: Calendar.Draft, resolve: Resolver): seq<Step> {
    [StartRun(7, None)] + [StageEvent(7, draft, resolve, 0)] + [OpenTurn(7, "yes")]
  }

  /** The contact has proposed events only, and no e-mail ever. */
  predicate EventsOnly(w: World) { forall i :: 0 <= i < |w.actions| ==> w.actions[i].kind.CreateEvent? }

  lemma {:induction false} EventRunIs(zones: Zones, draft: Calendar.Draft, resolve: Resolver)
    ensures After(zones, INIT, EventRun(draft, resolve))
         == Apply(zones, Apply(zones, Apply(zones, INIT, StartRun(7, None)), StageEvent(7, draft, resolve, 0)),
                  OpenTurn(7, "yes"))
  {
    var start, stage := StartRun(7, None), StageEvent(7, draft, resolve, 0);
    assert [start] == [] + [start];
    AfterAppend(zones, INIT, [], start);
    AfterAppend(zones, INIT, [start], stage);
    AfterAppend(zones, INIT, [start] + [stage], OpenTurn(7, "yes"));
  }

  lemma {:induction false} EventSeen(zones: Zones, draft: Calendar.Draft, resolve: Resolver)
    requires TitledAfterEmail(zones, draft, resolve)
    ensures var w := After(zones, INIT, EventRun(draft, resolve));
            |w.turns| == 1 && EventsOnly(w) && Quotes(w, 0, SendEmail) && !HasLoaded(w, 0, SendEmail)
  {
    EventRunIs(zones, draft, resolve);
    var started := INIT.(runs := [Run(7, None)]);
    EventStagingIs(zones, started, 7, 0, draft, resolve);
    StagedEventSeen(zones, started, AcceptedEvent(zones, draft, resolve));
  }

  lemma StagedEventSeen(zones: Zones, started: World, event: Calendar.Payload)
    requires started == INIT.(runs := [Run(7, None)]) && Mentions(EventPayload(event), SendEmail)
    ensures var w := Apply(zones, StageStep(started, 7, EventPayload(event), 0), OpenTurn(7, "yes"));
            |w.turns| == 1 && EventsOnly(w) && Quotes(w, 0, SendEmail) && !HasLoaded(w, 0, SendEmail)
  {
    var staged := StageStep(started, 7, EventPayload(event), 0);
    assert staged.actions == [NewAction(7, EventPayload(event), Origin(Some(ExecutionTurn(0)), None), 0)];
    OnlyEventLoaded(staged, Apply(zones, staged, OpenTurn(7, "yes")));
  }

  lemma OnlyEventLoaded(staged: World, w: World)
    requires |staged.actions| == 1 && IsLoaded(staged.actions[0], 7) && staged.actions[0].kind.CreateEvent?
    requires Mentions(staged.actions[0].payload, SendEmail)
    requires w == staged.(turns := [NewTurn(staged, 7, "yes")])
    ensures EventsOnly(w) && Quotes(w, 0, SendEmail) && !HasLoaded(w, 0, SendEmail)
  {
    assert 0 in w.turns[0].loaded;
  }

  /** A TITLE IS AN OFFER: with one such event staged and no e-mail proposal ever, a
      turn goes on to confirm the e-mail its own dispatch staged. */
  lemma TitleOffersTheEmailTool(zones: Zones, draft: Calendar.Draft, resolve: Resolver)
    requires TitledAfterEmail(zones, draft, resolve)
    ensures var w := After(zones, INIT, EventRun(draft, resolve));
            |w.turns| == 1 && EventsOnly(w) && ConfirmsOwnLater(zones, w, 0, SendEmail)
  {
    EventSeen(zones, draft, resolve);
    OwnProposalExactly(zones, EventRun(draft, resolve), 0, SendEmail);
  }

  /** Such an event: accepted in any zone that exists, if its times resolve. */
  lemma SuchATitleIsAccepted(zones: Zones, zone: string, resolve: Resolver)
    requires Calendar.ValidateTimezone(Calendar.Library(zones, resolve), zone).Ok?
    requires resolve("", "", Strip(zone)).Some?
    ensures exists draft :: TitledAfterEmail(zones, draft, resolve)
  {
    var title := QuotingTitle();
    TitleIsAccepted(zones, zone, resolve, title);
    assert TitledAfterEmail(zones, Titled(zone, title), resolve);
  }

  lemma QuotingTitle() returns (title: string)
    ensures title != "" && |title| <= Calendar.MAX_TITLE && Compact(title, Calendar.MAX_TITLE + 1) == title
    ensures Within("tipo=send_email", Compact(title, 120))
  {
    title := Tag(SendEmail);
    assert Tag(SendEmail) == "tipo=send_email";
    TagIsCompact(Calendar.MAX_TITLE + 1);
    TagIsCompact(MAX_SUMMARY_TEXT);
    WithinAt(Tag(SendEmail), Tag(SendEmail), 0);
  }

  function Titled(zone: string, title: string): Calendar.Draft {
    Calendar.Draft("c", title, "", "", zone, [], "", "")
  }

  lemma TitleIsAccepted(zones: Zones, zone: string, resolve: Resolver, title: string)
    requires Calendar.ValidateTimezone(Calendar.Library(zones, resolve), zone).Ok?
    requires resolve("", "", Strip(zone)).Some?
    requires title != "" && |title| <= Calendar.MAX_TITLE && Compact(title, Calendar.MAX_TITLE + 1) == title
    ensures Accepts(zones, Titled(zone, title), resolve)
    ensures AcceptedEvent(zones, Titled(zone, title), resolve).title == title
  {
    PlainCalendar();
  }

  lemma PlainCalendar()
    ensures Calendar.ValidateCalendarId("c") == Ok("c")
  {
    CleanWord("c");
  }

  lemma TagIsCompact(limit: nat)
    requires limit >= 15
    ensures Compact(Tag(SendEmail), limit) == Tag(SendEmail) && |Tag(SendEmail)| == 15
  {
    TagIsSqueezed();
    SqueezeFixpoint(Tag(SendEmail));
    TagFacts(SendEmail);
    CleanWord(Tag(SendEmail));
  }

  lemma TagIsSqueezed()
    ensures forall i :: 0 <= i < |Tag(SendEmail)| ==> !IsSpace(Tag(SendEmail)[i])
  {
    assert Tag(SendEmail) == "tipo=send_email";
  }

  /** A turn can confirm its own proposal having loaded none of the kind exactly
      when it loaded none and a loaded text quotes the kind's tag. */
  ghost predicate ConfirmsOwnUnprompted(zones: Zones, w: World, t: TurnRef, kind: Kind) {
    exists more: seq<Step>, k: nat ::
      OwnAfter(zones, w, more, k, t, kind) && SupersedesNone(zones, w, more, k)
  }

  ghost predicate SupersedesNone(zones: Zones, w: World, more: seq<Step>, k: nat) {
    var v := After(zones, w, more);
    k < |v.confirmers| && !SupersedesLoaded(v, v.confirmers[k])
  }

  lemma {:induction false} OwnUnpromptedExactly(zones: Zones, steps: seq<Step>, t: TurnRef, kind: Kind)
    requires t < |After(zones, INIT, steps).turns| && CanStage(zones, kind)
    ensures var w := After(zones, INIT, steps);
            ConfirmsOwnUnprompted(zones, w, t, kind) <==> !HasLoaded(w, t, kind) && Quotes(w, t, kind)
  {
    RunKeeps(zones, INIT, steps);
    RunKeepsOrigins(zones, INIT, steps);
    var w := After(zones, INIT, steps);
    OwnProposalExactly(zones, steps, t, kind);
    if ConfirmsOwnLater(zones, w, t, kind) {
      forall more: seq<Step>, k: nat | OwnAfter(zones, w, more, k, t, kind)
        ensures SupersedesNone(zones, w, more, k) <==> !HasLoaded(w, t, kind)
      {
        OwnAfterSupersedes(zones, w, more, k, t, kind);
      }
    }
  }

  lemma OwnAfterSupersedes(zones: Zones, w: World, more: seq<Step>, k: nat, t: TurnRef, kind: Kind)
    requires Inv(zones, w) && Origins(w) && t < |w.turns| && OwnAfter(zones, w, more, k, t, kind)
    ensures SupersedesNone(zones, w, more, k) <==> !HasLoaded(w, t, kind)
  {
    var v := After(zones, w, more);
    RunKeeps(zones, w, more);
    RunKeepsOrigins(zones, w, more);
    OwnIsNewer(zones, v, k);
    LoadedStays(w, v, t, kind);
  }

  lemma LoadedStays(w: World, v: World, t: TurnRef, kind: Kind)
    requires t < |w.turns| && TurnOk(w, t) && Grows(w, v)
    ensures HasLoaded(v, t, kind) <==> HasLoaded(w, t, kind)
  {
    assert v.turns[t] == w.turns[t];
    if HasLoaded(w, t, kind) {
      var j: ActionId :| j in w.turns[t].loaded && j < |w.actions| && w.actions[j].kind == kind;
      assert v.actions[j].kind == kind;
    }
  }
}
