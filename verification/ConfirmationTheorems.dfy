/** The promises of two-phase writes over whole runs, and their limits. */
module ConfirmationTheorems {
  import opened Wrappers
  import opened Table
  import opened PendingActions
  import opened Offers
  import opened Confirmations
  import opened ConfirmationProperties
  import Calendar
  import Text

  lemma {:induction false} Reachable(zones: Zones, steps: seq<Step>)
    ensures Inv(zones, After(zones, INIT, steps))
  {
    RunKeeps(zones, INIT, steps);
  }

  function AckOf(id: ActionId): Ack -> bool { (x: Ack) => x.action == id }

  lemma {:induction false} CountAcks(acks: seq<Ack>, id: ActionId)
    requires forall i, j :: 0 <= i < j < |acks| ==> acks[i].action != acks[j].action
    ensures Count(acks, AckOf(id)) == if exists i :: 0 <= i < |acks| && acks[i].action == id then 1 else 0
  {
    if acks != [] {
      var n := |acks| - 1;
      CountAcks(acks[..n], id);
      if exists i :: 0 <= i < n && acks[..n][i].action == id {
        var i :| 0 <= i < n && acks[..n][i].action == id;
        assert acks[i].action == id;
      } else {
        forall i | 0 <= i < n ensures acks[i].action != id { assert acks[..n][i] == acks[i]; }
      }
    }
  }

  /** AT MOST ONE ACKNOWLEDGED EXECUTION: whatever happens after an action was
      staged, the provider acknowledges at most one call for it, that call
      carried exactly the payload as staged, an executed action had one, and a
      pending, expired or failed one none - also when a new proposal cancelled
      it while the call was in flight. */
  lemma {:induction false} AtMostOneAcknowledgement(zones: Zones, steps: seq<Step>, more: seq<Step>, id: ActionId)
    requires id < |After(zones, INIT, steps).actions|
    ensures var staged := After(zones, INIT, steps).actions[id].payload;
            var v := After(zones, After(zones, INIT, steps), more);
            && id < |v.actions| && Count(v.acks, AckOf(id)) <= 1
            && (forall i :: 0 <= i < |v.acks| && v.acks[i].action == id ==>
                  match staged
                  case DraftPayload(draft, _, _) => v.acks[i].sent == DraftSent(draft)
                  case EventPayload(event) =>
                    v.acks[i].sent.EventSent? && Calendar.Carries(v.acks[i].sent.request, event))
            && (v.actions[id].status.Executed? ==> Count(v.acks, AckOf(id)) == 1)
            && (v.actions[id].status in {Status.Pending, Status.Expired, Status.Failed} ==>
                  Count(v.acks, AckOf(id)) == 0)
  {
    Reachable(zones, steps);
    RunKeeps(zones, After(zones, INIT, steps), more);
    var v := After(zones, After(zones, INIT, steps), more);
    CountAcks(v.acks, id);
    assert v.actions[id].status.Executed? ==> Acked(v, id);
    assert RowOk(zones, v.actions[id]);
  }

  /** The request of a staged event carries exactly its fields. */
  lemma AcknowledgedEventCarriesStagedFields(
    zones: Zones, draft: Calendar.Draft, resolve: Resolver, sent: Sent)
    requires Calendar.ValidateCreate(Calendar.Library(zones, resolve), draft).Ok?
    requires var p := Calendar.ValidateCreate(Calendar.Library(zones, resolve), draft).value;
             Some(sent) == RequestFor(zones, EventPayload(p))
    ensures var p := Calendar.ValidateCreate(Calendar.Library(zones, resolve), draft).value;
            sent.EventSent? && Calendar.Carries(sent.request, p)
  {
    StagedEventHasRequest(zones, draft, resolve);
  }

  lemma HoldersShare(p: Pc, q: Pc, id: ActionId)
    requires Holds(p, id) && Holds(q, id)
    ensures SharedHold(p, q)
  {}

  /** ONE CONFIRMER IN FLIGHT per action, and the action is claimed or was
      cancelled meanwhile. */
  lemma {:induction false} OneConfirmerInFlight(zones: Zones, steps: seq<Step>, id: ActionId, k: nat, m: nat)
    requires var w := After(zones, INIT, steps);
             k < |w.confirmers| && m < |w.confirmers| && Holds(w.confirmers[k].pc, id) && Holds(w.confirmers[m].pc, id)
    ensures var w := After(zones, INIT, steps);
            k == m && id < |w.actions| && (w.actions[id].status.Claimed? || w.actions[id].status.Cancelled?)
  {
    Reachable(zones, steps);
    var w := After(zones, INIT, steps);
    assert ConfirmerOk(w, w.confirmers[k]);
    HoldersShare(w.confirmers[k].pc, w.confirmers[m].pc, id);
    HoldersShare(w.confirmers[m].pc, w.confirmers[k].pc, id);
  }

  /** ONE LIVE PROPOSAL per contact and kind; so the calendar service never
      answers ambiguous, and no service ever finds a staged row invalid. */
  lemma {:induction false} OneLiveProposal(zones: Zones, steps: seq<Step>)
    ensures var w := After(zones, INIT, steps);
            && (forall i, j :: 0 <= i < j < |w.actions| && w.actions[i].status in {Status.Pending, Status.Claimed}
                               && w.actions[j].status in {Status.Pending, Status.Claimed} ==>
                 w.actions[i].contact != w.actions[j].contact || w.actions[i].kind != w.actions[j].kind)
            && (forall k :: 0 <= k < |w.confirmers| ==>
                 && w.confirmers[k].pc != Ended(Invalid)
                 && (w.confirmers[k].pc == Ended(AmbiguousAction) ==> w.confirmers[k].kind.SendEmail?))
  {
    Reachable(zones, steps);
    var w := After(zones, INIT, steps);
    forall k | 0 <= k < |w.confirmers| ensures ConfirmerOk(w, w.confirmers[k]) {}
  }

  /** A CLAIM happens strictly before the deadline set when the action was
      staged, only to a pending action, and only by a confirmer. */
  lemma {:induction false} ClaimsBeforeTheDeadline(zones: Zones, steps: seq<Step>, s: Step, id: ActionId)
    requires var w := After(zones, INIT, steps);
             && id < |w.actions| && !w.actions[id].status.Claimed?
             && id < |Apply(zones, w, s).actions| && Apply(zones, w, s).actions[id].status.Claimed?
    ensures var w := After(zones, INIT, steps);
            && w.actions[id].status.Pending? && w.now < w.actions[id].createdAt + 15 * 60 * 1_000_000
            && s.ClaimChosen? && w.actions[id].createdTurn != Some(InboundTurn(w.confirmers[s.confirmer].message))
  {
    Reachable(zones, steps);
    ClaimGate(zones, After(zones, INIT, steps), s, id);
  }

  lemma ClaimGate(zones: Zones, w: World, s: Step, id: ActionId)
    requires Inv(zones, w) && id < |w.actions| && !w.actions[id].status.Claimed?
    requires id < |Apply(zones, w, s).actions| && Apply(zones, w, s).actions[id].status.Claimed?
    ensures w.actions[id].status.Pending? && w.now < w.actions[id].createdAt + 15 * 60 * 1_000_000
    ensures s.ClaimChosen? && s.confirmer < |w.confirmers|
    ensures w.actions[id].createdTurn != Some(InboundTurn(w.confirmers[s.confirmer].message))
  {
    assert RowOk(zones, w.actions[id]);
  }

  /** The deadline, payload and owner of an action never change, however often
      it is released, and its four terminal statuses are final. */
  lemma {:induction false} StagedRowsAreFixed(zones: Zones, steps: seq<Step>, more: seq<Step>, id: ActionId)
    requires id < |After(zones, INIT, steps).actions|
    ensures var row := After(zones, INIT, steps).actions[id];
            var v := After(zones, After(zones, INIT, steps), more);
            && id < |v.actions| && v.actions[id] == row.(status := v.actions[id].status)
            && row.expiresAt == row.createdAt + 15 * 60 * 1_000_000
            && (row.status in {Status.Executed, Status.Cancelled, Status.Expired, Status.Failed} ==>
                 v.actions[id] == row)
  {
    Reachable(zones, steps);
    RunKeeps(zones, After(zones, INIT, steps), more);
    assert RowOk(zones, After(zones, INIT, steps).actions[id]);
  }

  // ----------------------------------------------------------------- effects

  function Is(id: ActionId): ActionId -> bool { (x: ActionId) => x == id }

  /** The step is a provider call for the action that is carried out although its
      answer is lost. */
  predicate ActsUnheard(w: World, s: Step, id: ActionId) {
    s.Call? && s.reply == Lost(true) && Enabled(w, s) && w.confirmers[s.confirmer].pc.id == id
  }

  /** How many steps of the run were such calls. */
  function UnheardActs(zones: Zones, steps: seq<Step>, id: ActionId): nat {
    if steps == [] then 0
    else
      var init := steps[..|steps| - 1];
      UnheardActs(zones, init, id)
      + if ActsUnheard(After(zones, INIT, init), steps[|steps| - 1], id) then 1 else 0
  }

  /** Only provider calls are logged. */
  lemma QuietStep(zones: Zones, w: World, s: Step)
    requires !s.Call?
    ensures Apply(zones, w, s).effects == w.effects && Apply(zones, w, s).acks == w.acks
  {}

  /** A call is logged as acknowledged, as an effect, as both or as neither. */
  lemma CallIsLogged(zones: Zones, w: World, k: nat, reply: Reply)
    requires Inv(zones, w) && Enabled(w, Call(k, reply))
    ensures var id := w.confirmers[k].pc.id;
            var v := Apply(zones, w, Call(k, reply));
            && v.effects == w.effects + (if reply.Accepted? || reply == Lost(true) then [id] else [])
            && (reply.Accepted? ==> |v.acks| == |w.acks| + 1 && v.acks == w.acks + [Ack(id, v.acks[|w.acks|].sent)])
            && (!reply.Accepted? ==> v.acks == w.acks)
  {
    assert RowOk(zones, w.actions[w.confirmers[k].pc.id]);
  }

  lemma EffectStep(zones: Zones, w: World, s: Step, id: ActionId)
    requires Inv(zones, w)
    ensures var v := Apply(zones, w, s);
            Count(v.effects, Is(id)) + Count(w.acks, AckOf(id))
            == Count(w.effects, Is(id)) + Count(v.acks, AckOf(id)) + if ActsUnheard(w, s, id) then 1 else 0
  {
    if !s.Call? {
      QuietStep(zones, w, s);
    } else if Enabled(w, s) {
      CallIsLogged(zones, w, s.confirmer, s.reply);
      CountAppend(w.effects, w.confirmers[s.confirmer].pc.id, Is(id));
      var v := Apply(zones, w, s);
      if s.reply.Accepted? { CountAppend(w.acks, v.acks[|w.acks|], AckOf(id)); }
    }
  }

  /** THE EFFECTS ARE ACCOUNTED FOR: over any run the provider acts for an action
      once for each acknowledged call and once for each call it carried out
      unheard, and not otherwise. */
  lemma {:induction false} EffectsAreAccountedFor(zones: Zones, steps: seq<Step>, id: ActionId)
    ensures var w := After(zones, INIT, steps);
            Count(w.effects, Is(id)) == Count(w.acks, AckOf(id)) + UnheardActs(zones, steps, id)
  {
    if steps != [] {
      var init := steps[..|steps| - 1];
      EffectsAreAccountedFor(zones, init, id);
      Reachable(zones, init);
      EffectStep(zones, After(zones, INIT, init), steps[|steps| - 1], id);
    }
  }

  /** AT MOST ONE EFFECT per action, exactly in the runs in which no call for it is
      carried out unheard, or one is and none is acknowledged. */
  lemma {:induction false} AtMostOneEffect(zones: Zones, steps: seq<Step>, id: ActionId)
    ensures var w := After(zones, INIT, steps);
            var unheard := UnheardActs(zones, steps, id);
            Count(w.effects, Is(id)) <= 1
            <==> unheard == 0 || (unheard == 1 && forall i :: 0 <= i < |w.acks| ==> w.acks[i].action != id)
  {
    EffectsAreAccountedFor(zones, steps, id);
    Reachable(zones, steps);
    CountAcks(After(zones, INIT, steps).acks, id);
  }

  /** Without such calls the effects are the acknowledged calls, one by one. */
  predicate OneByOne(w: World) {
    |w.effects| == |w.acks| && forall i :: 0 <= i < |w.acks| ==> w.effects[i] == w.acks[i].action
  }

  lemma HeardStep(zones: Zones, w: World, s: Step)
    requires Inv(zones, w) && OneByOne(w) && (s.Call? ==> s.reply != Lost(true))
    ensures OneByOne(Apply(zones, w, s))
  {
    if !s.Call? {
      QuietStep(zones, w, s);
    } else if Enabled(w, s) {
      CallIsLogged(zones, w, s.confirmer, s.reply);
    }
  }

  lemma {:induction false} HeardEffectsAreAcknowledged(zones: Zones, steps: seq<Step>)
    requires forall k :: 0 <= k < |steps| && steps[k].Call? ==> steps[k].reply != Lost(true)
    ensures OneByOne(After(zones, INIT, steps))
  {
    if steps != [] {
      var init := steps[..|steps| - 1];
      HeardEffectsAreAcknowledged(zones, init);
      Reachable(zones, init);
      HeardStep(zones, After(zones, INIT, init), steps[|steps| - 1]);
    }
  }

  // ------------------------------------------------------------------ limits

  /** A claimed action whose confirmer is gone. */
  predicate Abandoned(w: World, id: ActionId) {
    && id < |w.actions| && w.actions[id].status.Claimed?
    && forall k :: 0 <= k < |w.confirmers| ==> !Holds(w.confirmers[k].pc, id)
  }

  predicate Restages(s: Step, contact: ContactId, kind: Kind) {
    || (s.StageEmail? && s.contact == contact && kind.SendEmail?)
    || (s.StageEvent? && s.contact == contact && kind.CreateEvent?)
  }

  lemma AbandonedByChoice(w: World, k: nat, id: ActionId)
    requires Abandoned(w, id) && k < |w.confirmers| && w.confirmers[k].pc.Choosing?
    requires forall i :: 0 <= i < |w.actions| ==> w.actions[i].hash == PayloadHash(w.actions[i].payload)
    ensures Abandoned(ChooseStep(w, k), id)
  {}

  lemma AbandonedByClaim(w: World, k: nat, id: ActionId)
    requires Abandoned(w, id) && Acts(w, k) && w.confirmers[k].pc.Claiming?
    ensures Abandoned(ClaimStep(w, k), id)
  {}

  lemma AbandonedByCheck(zones: Zones, w: World, k: nat, connected: bool, id: ActionId)
    requires Abandoned(w, id) && Acts(w, k) && w.confirmers[k].pc.Checking?
    ensures Abandoned(CheckStep(w, zones, k, connected), id)
  {
    assert w.confirmers[k].pc.id != id;
  }

  lemma AbandonedByCall(zones: Zones, w: World, k: nat, reply: Reply, id: ActionId)
    requires Abandoned(w, id) && Acts(w, k) && w.confirmers[k].pc.Calling?
    ensures Abandoned(CallStep(w, zones, k, reply), id)
  {
    assert w.confirmers[k].pc.id != id;
  }

  lemma AbandonedByConfirmers(zones: Zones, w: World, s: Step, id: ActionId)
    requires Inv(zones, w) && Abandoned(w, id) && IsConfirmerStep(s) && Enabled(w, s)
    ensures Abandoned(Apply(zones, w, s), id)
  {
    assert forall i :: 0 <= i < |w.actions| ==> RowOk(zones, w.actions[i]);
    assert !Holds(w.confirmers[s.confirmer].pc, id);
    match s
    case ChooseAction(k) => AbandonedByChoice(w, k, id);
    case ClaimChosen(k) => AbandonedByClaim(w, k, id);
    case Check(k, connected) => AbandonedByCheck(zones, w, k, connected, id);
    case Call(k, reply) => AbandonedByCall(zones, w, k, reply, id);
    case Settle(k) =>
    case Crash(k) =>
  }

  lemma AbandonedStep(zones: Zones, w: World, s: Step, id: ActionId)
    requires Inv(zones, w) && Abandoned(w, id) && !Restages(s, w.actions[id].contact, w.actions[id].kind)
    ensures Abandoned(Apply(zones, w, s), id)
  {
    if Enabled(w, s) {
      assert RowOk(zones, w.actions[id]);
      if IsConfirmerStep(s) { AbandonedByConfirmers(zones, w, s, id); }
    }
  }

  /** A CRASHED CONFIRMATION IS NOT RETRIED: no deadline, expiry or further
      confirmation touches its action; only a new proposal of its kind does. */
  lemma {:induction false} AbandonedUntilRestaged(zones: Zones, w: World, steps: seq<Step>, id: ActionId)
    requires Inv(zones, w) && Abandoned(w, id)
    requires forall k :: 0 <= k < |steps| ==> !Restages(steps[k], w.actions[id].contact, w.actions[id].kind)
    ensures Abandoned(After(zones, w, steps), id)
  {
    if steps != [] {
      var init := steps[..|steps| - 1];
      AbandonedUntilRestaged(zones, w, init, id);
      RunKeeps(zones, w, init);
      AbandonedStep(zones, After(zones, w, init), steps[|steps| - 1], id);
    }
  }

  /** Some steps other than a new proposal of its kind move the action. */
  ghost predicate Moves(zones: Zones, w: World, id: ActionId)
    requires id < |w.actions|
  {
    exists more: seq<Step> :: MovedBy(zones, w, more, id)
  }

  predicate MovedBy(zones: Zones, w: World, more: seq<Step>, id: ActionId)
    requires id < |w.actions|
  {
    && (forall k :: 0 <= k < |more| ==> !Restages(more[k], w.actions[id].contact, w.actions[id].kind))
    && id < |After(zones, w, more).actions| && !After(zones, w, more).actions[id].status.Claimed?
  }

  /** The action of holder k, still claimed, is no longer claimed after v. */
  predicate GivenUp(w: World, v: World, k: nat) {
    && Acts(w, k) && |v.actions| == |w.actions| && !v.actions[w.confirmers[k].pc.id].status.Claimed?
  }

  lemma SettlingGivesUp(zones: Zones, w: World, k: nat)
    requires Acts(w, k) && w.confirmers[k].pc.Settling? && w.actions[w.confirmers[k].pc.id].status.Claimed?
    ensures GivenUp(w, Apply(zones, w, Settle(k)), k)
  {}

  lemma CheckingGivesUp(zones: Zones, w: World, k: nat)
    requires Acts(w, k) && w.confirmers[k].pc.Checking? && w.actions[w.confirmers[k].pc.id].status.Claimed?
    ensures GivenUp(w, Apply(zones, w, Check(k, false)), k)
  {}

  lemma RefusedCall(zones: Zones, w: World, k: nat)
    requires Acts(w, k) && w.confirmers[k].pc.Calling?
    ensures Apply(zones, w, Call(k, Refused)) == WithPc(w, k, Settling(w.confirmers[k].pc.id, false))
  {}

  lemma {:induction false} FoundMoving(zones: Zones, w: World, more: seq<Step>, v: World, id: ActionId)
    requires id < |w.actions| && After(zones, w, more) == v && id < |v.actions| && !v.actions[id].status.Claimed?
    requires forall k :: 0 <= k < |more| ==> !more[k].StageEmail? && !more[k].StageEvent?
    ensures Moves(zones, w, id)
  {
    assert MovedBy(zones, w, more, id);
  }

  lemma CallingMoves(zones: Zones, w: World, k: nat)
    requires Acts(w, k) && w.confirmers[k].pc.Calling? && w.actions[w.confirmers[k].pc.id].status.Claimed?
    ensures Moves(zones, w, w.confirmers[k].pc.id)
  {
    var id := w.confirmers[k].pc.id;
    var u := WithPc(w, k, Settling(id, false));
    AfterAppend(zones, w, [], Call(k, Refused));
    AfterAppend(zones, w, [] + [Call(k, Refused)], Settle(k));
    RefusedCall(zones, w, k);
    SettlingGivesUp(zones, u, k);
    FoundMoving(zones, w, [] + [Call(k, Refused)] + [Settle(k)], Apply(zones, u, Settle(k)), id);
  }

  lemma HolderMoves(zones: Zones, w: World, k: nat, id: ActionId)
    requires id < |w.actions| && w.actions[id].status.Claimed? && k < |w.confirmers| && Holds(w.confirmers[k].pc, id)
    ensures Moves(zones, w, id)
  {
    if w.confirmers[k].pc.Calling? {
      CallingMoves(zones, w, k);
    } else if w.confirmers[k].pc.Checking? {
      AfterAppend(zones, w, [], Check(k, false));
      CheckingGivesUp(zones, w, k);
      FoundMoving(zones, w, [] + [Check(k, false)], Apply(zones, w, Check(k, false)), id);
    } else {
      AfterAppend(zones, w, [], Settle(k));
      SettlingGivesUp(zones, w, k);
      FoundMoving(zones, w, [] + [Settle(k)], Apply(zones, w, Settle(k)), id);
    }
  }

  /** A claimed action is released, settled or failed by some steps other than a
      new proposal exactly when some confirmer holds it. */
  lemma {:induction false} AbandonedExactly(zones: Zones, steps: seq<Step>, id: ActionId)
    requires var w := After(zones, INIT, steps); id < |w.actions| && w.actions[id].status.Claimed?
    ensures Moves(zones, After(zones, INIT, steps), id) <==> !Abandoned(After(zones, INIT, steps), id)
  {
    Reachable(zones, steps);
    var w := After(zones, INIT, steps);
    if Abandoned(w, id) {
      forall more: seq<Step> ensures !MovedBy(zones, w, more, id) {
        if MovedBy(zones, w, more, id) { AbandonedUntilRestaged(zones, w, more, id); }
      }
    } else {
      var k :| 0 <= k < |w.confirmers| && Holds(w.confirmers[k].pc, id);
      HolderMoves(zones, w, k, id);
    }
  }

  /** A confirmation whose answer is lost although the provider acted. */
  function LostRound(steps: seq<Step>, k: nat): seq<Step> {
    steps + [Confirm(0, SendEmail, None)] + [ChooseAction(k)] + [ClaimChosen(k)]
    + [Check(k, true)] + [Call(k, Lost(true))] + [Settle(k)]
  }

  /** The e-mail can be staged. */
  predicate Acceptable(email: Email) { EmailPayload(email).Some? }

  /** An e-mail is staged, a turn sees it, and keeps confirming it. */
  function Offering(email: Email): seq<Step> {
    [StartRun(7, None)] + [StageEmail(7, email, 0)] + [OpenTurn(7, "yes")]
  }

  function LostRounds(email: Email, n: nat): seq<Step> {
    if n == 0 then Offering(email) else LostRound(LostRounds(email, n - 1), n - 1)
  }

  function Staged(email: Email): Action
    requires Acceptable(email)
  {
    NewAction(7, EmailPayload(email).value, Origin(Some(ExecutionTurn(0)), None), 0)
  }

  /** One staged e-mail, pending, offered to turn 0, and carried out n times. */
  predicate Repeated(w: World, row: Action, n: nat) {
    && w.actions == [row] && row.contact == 7 && row.status.Pending? && row.expiresAt > 0
    && row.kind.SendEmail? && row.payload.DraftPayload? && row.hash == PayloadHash(row.payload)
    && row.createdTurn == Some(ExecutionTurn(0))
    && |w.turns| == 1 && w.turns[0].contact == 7 && w.turns[0].message == "yes" && SendEmail in w.turns[0].offered
    && |w.confirmers| == n && w.acks == [] && w.now == 0
    && |w.effects| == n && forall i :: 0 <= i < n ==> w.effects[i] == 0
  }

  lemma OnlyOneListed(row: Action)
    requires Listed(row, 7, 0) && row.kind.SendEmail?
    ensures Choose([row], 7, SendEmail, None, 0) == Chosen(0)
  {
    assert [row][..0] == [];
    assert ListedIds([row], 7, 0) == [0];
    var ids: seq<ActionId> := [0];
    assert ids[..0] == [];
    assert OfKind(SendEmail, [row])(0);
    assert Count(ids, OfKind(SendEmail, [row])) == 1;
  }

  lemma ClaimedRound(zones: Zones, w: World, row: Action, n: nat)
    requires Repeated(w, row, n)
    ensures var t := Apply(zones, Apply(zones, w, Confirm(0, SendEmail, None)), ChooseAction(n));
            var u := Apply(zones, t, ClaimChosen(n));
            && u.actions == [row.(status := Status.Claimed)] && |u.confirmers| == n + 1
            && u.confirmers[n] == Confirmer(7, SendEmail, 0, "yes", Checking(0))
            && u.turns == w.turns && u.acks == [] && u.now == 0 && u.effects == w.effects
  {
    OnlyOneListed(row);
    var t := Apply(zones, Apply(zones, w, Confirm(0, SendEmail, None)), ChooseAction(n));
    assert t.confirmers[n] == Confirmer(7, SendEmail, 0, "yes", Claiming(0));
  }

  lemma LostAnswer(zones: Zones, u: World, row: Action, n: nat)
    requires row.payload.DraftPayload? && RequestFor(zones, row.payload).Some? && row.status.Pending?
    requires u.actions == [row.(status := Status.Claimed)] && |u.confirmers| == n + 1
    requires u.confirmers[n] == Confirmer(7, SendEmail, 0, "yes", Checking(0))
    ensures var v := Apply(zones, Apply(zones, Apply(zones, u, Check(n, true)), Call(n, Lost(true))), Settle(n));
            && v.actions == [row] && |v.confirmers| == n + 1 && v.acks == u.acks && v.now == u.now
            && v.turns == u.turns && v.effects == u.effects + [0]
  {
    var t := Apply(zones, u, Check(n, true));
    assert t.confirmers[n].pc == Calling(0);
  }

  lemma NextRound(zones: Zones, s: seq<Step>, row: Action, k: nat)
    requires Repeated(After(zones, INIT, s), row, k)
    ensures Repeated(After(zones, INIT, LostRound(s, k)), row, k + 1)
  {
    var claimed := s + [Confirm(0, SendEmail, None)] + [ChooseAction(k)] + [ClaimChosen(k)];
    Reachable(zones, s);
    assert RowOk(zones, After(zones, INIT, s).actions[0]);
    AfterThree(zones, INIT, s, Confirm(0, SendEmail, None), ChooseAction(k), ClaimChosen(k));
    AfterThree(zones, INIT, claimed, Check(k, true), Call(k, Lost(true)), Settle(k));
    ClaimedRound(zones, After(zones, INIT, s), row, k);
    LostAnswer(zones, After(zones, INIT, claimed), row, k);
  }

  lemma CleanWord(s: string)
    requires s != "" && !Text.IsSpace(s[0]) && !Text.IsSpace(s[|s| - 1])
    ensures Text.Strip(s) == s
  {
    Text.StripIdempotent(s);
  }

  lemma ShortAddress()
    ensures Calendar.IsEmail("a@b.co")
  {
    var address := "a@b.co";
    assert Text.IndexOf(address, '@') == 1 && address[3] == '.';
  }

  /** There is an e-mail that can be staged. */
  lemma SomeAreAcceptable()
    ensures exists email :: Acceptable(email)
  {
    CleanWord("d");
    CleanWord("s");
    CleanWord("a@b.co");
    ShortAddress();
    assert Acceptable(Email("d", "a@b.co", "s"));
  }

  lemma {:induction false} OfferingIs(zones: Zones, email: Email)
    ensures After(zones, INIT, Offering(email))
         == Apply(zones, Apply(zones, Apply(zones, INIT, StartRun(7, None)), StageEmail(7, email, 0)),
                  OpenTurn(7, "yes"))
  {
    var start, stage := StartRun(7, None), StageEmail(7, email, 0);
    assert [start] == [] + [start];
    AfterAppend(zones, INIT, [], start);
    AfterAppend(zones, INIT, [start], stage);
    AfterAppend(zones, INIT, [start] + [stage], OpenTurn(7, "yes"));
  }

  lemma EmailSeen(zones: Zones, staged: World, row: Action)
    requires staged == INIT.(runs := [Run(7, None)], actions := [row])
    requires row == NewAction(7, row.payload, Origin(Some(ExecutionTurn(0)), None), 0) && row.payload.DraftPayload?
    ensures Repeated(Apply(zones, staged, OpenTurn(7, "yes")), row, 0)
  {
    assert IsLoaded(staged.actions[0], 7) && Shows(staged.actions[0], SendEmail);
    assert 0 in Loaded(staged.actions, 7);
    OfferedExactly(staged.actions, 7, SendEmail);
  }

  lemma StagedWorld(zones: Zones, email: Email)
    requires Acceptable(email)
    ensures Repeated(After(zones, INIT, Offering(email)), Staged(email), 0)
  {
    OfferingIs(zones, email);
    var started := INIT.(runs := [Run(7, None)]);
    assert UpdateWhere(started.actions, LiveOf(7, SendEmail), Cancel()) == [];
    var staged := Apply(zones, started, StageEmail(7, email, 0));
    assert staged.actions == [Staged(email)];
    EmailSeen(zones, staged, Staged(email));
  }

  /** UNACKNOWLEDGED EFFECTS CAN REPEAT: for every e-mail and every n some run makes
      the provider act n times for that one action, still pending, none of them
      acknowledged. */
  lemma {:induction false} UnacknowledgedEffectsRepeat(zones: Zones, email: Email, n: nat)
    requires Acceptable(email)
    ensures Repeated(After(zones, INIT, LostRounds(email, n)), Staged(email), n)
  {
    if n == 0 {
      StagedWorld(zones, email);
    } else {
      UnacknowledgedEffectsRepeat(zones, email, n - 1);
      NextRound(zones, LostRounds(email, n - 1), Staged(email), n - 1);
    }
  }

  /** A confirmer that dies with its claim leaves such an action. */
  lemma AbandonedIsReachable(zones: Zones, email: Email)
    requires Acceptable(email)
    ensures var s := Offering(email) + [Confirm(0, SendEmail, None)] + [ChooseAction(0)] + [ClaimChosen(0)];
            Abandoned(After(zones, INIT, s + [Crash(0)]), 0)
  {
    StagedWorld(zones, email);
    var claimed := Offering(email) + [Confirm(0, SendEmail, None)] + [ChooseAction(0)] + [ClaimChosen(0)];
    AfterThree(zones, INIT, Offering(email), Confirm(0, SendEmail, None), ChooseAction(0), ClaimChosen(0));
    ClaimedRound(zones, After(zones, INIT, Offering(email)), Staged(email), 0);
    AfterAppend(zones, INIT, claimed, Crash(0));
    CrashAbandons(zones, After(zones, INIT, claimed));
  }

  lemma CrashAbandons(zones: Zones, u: World)
    requires |u.actions| == 1 && u.actions[0].status.Claimed? && |u.confirmers| == 1
    ensures Abandoned(Apply(zones, u, Crash(0)), 0)
  {}

  /** Two stagings of events whose cancels both come before their inserts. */
  function Overlapped(rows: seq<Action>, first: Action, second: Action): seq<Action> {
    var live := LiveOf(first.contact, CreateEvent);
    UpdateWhere(UpdateWhere(rows, live, Cancel()), live, Cancel()) + [first] + [second]
  }

  /** The guarantee of one live proposal rests on staging being atomic: two
      overlapping stagings leave two, and then the calendar service is ambiguous. */
  lemma OverlappingStagingLeavesTwo(
    rows: seq<Action>, contact: ContactId, p: Calendar.Payload, q: Calendar.Payload, origin: Origin, now: Instant)
    ensures var first := NewAction(contact, EventPayload(p), origin, now);
            var second := NewAction(contact, EventPayload(q), origin, now);
            var after := Overlapped(rows, first, second);
            !OneLive(after) && Choose(after, contact, CreateEvent, None, now).Ambiguous?
  {
    var first := NewAction(contact, EventPayload(p), origin, now);
    var second := NewAction(contact, EventPayload(q), origin, now);
    var after := Overlapped(rows, first, second);
    var n := |rows|;
    var cancelled := after[..n];
    assert after == cancelled + [first] + [second] && after[n] == first && after[n + 1] == second;
    assert after[..n + 1] == cancelled + [first] && (cancelled + [first])[..n] == cancelled;
    assert ListedIds(cancelled + [first], contact, now) == [n] + ListedIds(cancelled, contact, now);
    assert ListedIds(after, contact, now) == [n + 1] + ([n] + ListedIds(cancelled, contact, now));
    TwoCounted(ListedIds(after, contact, now), OfKind(CreateEvent, after));
  }

  lemma {:induction false} TwoCounted<T>(xs: seq<T>, p: T -> bool)
    requires |xs| >= 2 && p(xs[0]) && p(xs[1])
    ensures Count(xs, p) >= 2
  {
    if |xs| > 2 {
      TwoCounted(xs[..|xs| - 1], p);
    } else {
      assert xs[..1][..0] == [];
      assert Count(xs[..1], p) == 1;
    }
  }
}
