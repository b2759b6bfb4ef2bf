/** Staging an e-mail and confirming an action from end to end, with nothing between:
    which action is meant, what is sent, and what is left of the action. */
module ConfirmationRuns {
  import opened Wrappers
  import opened Table
  import opened PendingActions
  import opened Confirmations
  import opened ConfirmationProperties
  import Calendar
  import Text
  import ConfirmationTheorems
  import CO = ConfirmationOrigins

  // ------------------------------------------------------------------ staging

  /** The e-mail's arguments are valid once stripped. */
  ghost predicate ValidEmail(e: Email) {
    && 1 <= |Text.Strip(e.draftId)| <= 256 && 1 <= |Text.Strip(e.subject)| <= 300
    && |Text.Strip(e.to)| <= 320 && Calendar.IsAddress(Text.Strip(e.to))
  }

  /** STAGING AN E-MAIL succeeds exactly for valid arguments, and stores the draft id, the
      address and the subject, each stripped and in its place. */
  lemma StagedEmailExactly(zones: Zones, w: World, contact: ContactId, e: Email, run: RunId)
    requires run < |w.runs| && w.runs[run].contact == contact
    ensures var v := Apply(zones, w, StageEmail(contact, e, run));
            if !ValidEmail(e) then v == w
            else
              && |v.actions| == |w.actions| + 1 && v == w.(actions := v.actions)
              && var staged := v.actions[|w.actions|];
                 && staged.payload == DraftPayload(Text.Strip(e.draftId), Text.Strip(e.to), Text.Strip(e.subject))
                 && staged.contact == contact && staged.kind == SendEmail && staged.status == Status.Pending
                 && staged.createdAt == w.now && staged.expiresAt == w.now + 15 * 60 * 1_000_000
                 && staged.createdTurn == Some(ExecutionTurn(run)) && staged.source == w.runs[run].source
  {
    Calendar.EmailExactly(Text.Strip(e.to));
  }

  /** STAGING AN EVENT succeeds exactly for acceptable arguments, and stores what they
      resolve to. */
  lemma StagedEventExactly(
    zones: Zones, w: World, contact: ContactId, draft: Calendar.Draft, resolve: Resolver, run: RunId)
    requires run < |w.runs| && w.runs[run].contact == contact
    ensures var v := Apply(zones, w, StageEvent(contact, draft, resolve, run));
            var lib := Calendar.Library(zones, resolve);
            if !Calendar.Acceptable(lib, draft) then v == w
            else
              && |v.actions| == |w.actions| + 1 && v == w.(actions := v.actions)
              && var staged := v.actions[|w.actions|];
                 && staged.payload.EventPayload? && Calendar.ValidateCreate(lib, draft) == Ok(staged.payload.event)
                 && staged.contact == contact && staged.kind == CreateEvent && staged.status == Status.Pending
                 && staged.createdAt == w.now && staged.expiresAt == w.now + 15 * 60 * 1_000_000
                 && staged.createdTurn == Some(ExecutionTurn(run)) && staged.source == w.runs[run].source
  {
    Calendar.StagedExactly(Calendar.Library(zones, resolve), draft);
  }

  /** Either staging cancels the pending and claimed actions of the contact and kind, and
      changes no other. */
  lemma StagingSupersedes(zones: Zones, w: World, s: Step, j: ActionId)
    requires s.StageEvent? || s.StageEmail?
    requires j < |w.actions| && |Apply(zones, w, s).actions| > |w.actions|
    ensures var row := w.actions[j];
            var kind := if s.StageEmail? then SendEmail else CreateEvent;
            Apply(zones, w, s).actions[j] ==
              if row.contact == s.contact && row.kind == kind && row.status in {Status.Pending, Status.Claimed} then
                row.(status := Status.Cancelled)
              else row
  {}

  // -------------------------------------------------------------------- turns

  /** A TURN for an inbound message loads the contact's pending and claimed actions. */
  lemma TurnOpens(zones: Zones, w: World, contact: ContactId, message: string)
    ensures var v := Apply(zones, w, OpenTurn(contact, message));
            && |v.turns| == |w.turns| + 1 && w.turns <= v.turns && v == w.(turns := v.turns)
            && var t := v.turns[|w.turns|];
               && t.contact == contact && t.message == message && t.known == |w.actions|
               && (forall j: ActionId :: j in t.loaded <==>
                    j < |w.actions| && w.actions[j].contact == contact
                    && w.actions[j].status in {Status.Pending, Status.Claimed})
               && forall kind: Kind :: kind in t.offered <==>
                    exists j: ActionId :: j in t.loaded && Offers.Shows(w.actions[j], kind)
  {
    forall kind: Kind
      ensures kind in Offers.Offered(w.actions, contact) <==>
                exists j: ActionId :: j in Offers.Loaded(w.actions, contact) && Offers.Shows(w.actions[j], kind)
    {
      Offers.OfferedExactly(w.actions, contact, kind);
    }
  }

  /** Its confirmations act for the contact and the message of the turn, and only where the
      kind was offered. */
  lemma ConfirmStarts(zones: Zones, w: World, turn: TurnRef, kind: Kind, wanted: Option<ActionId>)
    ensures var v := Apply(zones, w, Confirm(turn, kind, wanted));
            if turn < |w.turns| && kind in w.turns[turn].offered then
              v == w.(confirmers := w.confirmers + [
                     Confirmer(w.turns[turn].contact, kind, turn, w.turns[turn].message, Choosing(wanted))])
            else v == w
  {}

  /** Expiry ends exactly the pending actions at or past their deadline. */
  lemma ExpiryExactly(zones: Zones, w: World, j: ActionId)
    requires j < |w.actions|
    ensures var v := Apply(zones, w, ExpireDue);
            && |v.actions| == |w.actions| && v == w.(actions := v.actions)
            && v.actions[j] ==
                 if w.actions[j].status == Status.Pending && w.actions[j].expiresAt <= w.now then
                   w.actions[j].(status := Status.Expired)
                 else w.actions[j]
  {}

  // ---------------------------------------------------------------- selection

  /** The unexpired action that a confirmation means: the one named, or the only one of
      its kind. */
  ghost predicate Meant(
    rows: seq<Action>, contact: ContactId, kind: Kind, wanted: Option<ActionId>, now: Instant, id: ActionId)
  {
    && Unexpired(rows, id, contact, now) && rows[id].kind == kind
    && if wanted.Some? then wanted.value == id
       else forall j: ActionId :: Unexpired(rows, j, contact, now) && rows[j].kind == kind ==> j == id
  }

  lemma OfKindCounted(rows: seq<Action>, contact: ContactId, kind: Kind, now: Instant)
    requires OneLive(rows)
    ensures var listed := ListedIds(rows, contact, now);
            Count(listed, OfKind(kind, rows)) == 1
            <==> exists j: ActionId :: Unexpired(rows, j, contact, now) && rows[j].kind == kind
  {
    OneListedPerKind(rows, contact, kind, now);
    CountedIffListed(rows, contact, kind, now);
    if j: ActionId :| Unexpired(rows, j, contact, now) && rows[j].kind == kind {
      assert Listed(rows[j], contact, now);
    }
    if HasListed(rows, contact, kind, now) {
      var id: ActionId :| id < |rows| && Listed(rows[id], contact, now) && rows[id].kind == kind;
      assert Unexpired(rows, id, contact, now);
    }
  }

  lemma OnlyOneUnexpired(rows: seq<Action>, contact: ContactId, kind: Kind, now: Instant, i: ActionId, j: ActionId)
    requires OneLive(rows) && Unexpired(rows, i, contact, now) && rows[i].kind == kind
    requires Unexpired(rows, j, contact, now) && rows[j].kind == kind
    ensures i == j
  {}

  lemma SelectedUnnamed(rows: seq<Action>, contact: ContactId, kind: Kind, now: Instant, id: ActionId)
    requires OneLive(rows)
    ensures Select(rows, ListedIds(rows, contact, now), kind, None) == Some(id)
            <==> Meant(rows, contact, kind, None, now, id)
  {
    var listed := ListedIds(rows, contact, now);
    ListedAre(rows, contact, now);
    OfKindCounted(rows, contact, kind, now);
    CountedIsFound(listed, OfKind(kind, rows));
    if Count(listed, OfKind(kind, rows)) == 1 {
      var found := listed[FindLast(listed, OfKind(kind, rows)).value];
      assert found in listed && Unexpired(rows, found, contact, now) && rows[found].kind == kind;
      forall j: ActionId | Unexpired(rows, j, contact, now) && rows[j].kind == kind ensures j == found {
        OnlyOneUnexpired(rows, contact, kind, now, j, found);
      }
    }
  }

  lemma SelectedExactly(
    rows: seq<Action>, contact: ContactId, kind: Kind, wanted: Option<ActionId>, now: Instant, id: ActionId)
    requires OneLive(rows)
    ensures Select(rows, ListedIds(rows, contact, now), kind, wanted) == Some(id)
            <==> Meant(rows, contact, kind, wanted, now, id)
  {
    if wanted.None? { SelectedUnnamed(rows, contact, kind, now, id); } else { ListedAre(rows, contact, now); }
  }

  lemma NothingMeant(rows: seq<Action>, contact: ContactId, kind: Kind, wanted: Option<ActionId>, now: Instant)
    requires OneLive(rows) && Select(rows, ListedIds(rows, contact, now), kind, wanted).None?
    ensures Choose(rows, contact, kind, wanted, now)
         == if kind == SendEmail && exists j: ActionId :: Unexpired(rows, j, contact, now) then Ambiguous else Nothing
  {
    var listed := ListedIds(rows, contact, now);
    ListedAre(rows, contact, now);
    OneListedPerKind(rows, contact, kind, now);
    if listed != [] { assert listed[0] in listed; }
  }

  /** WHICH ACTION IS CHOSEN, while proposals of a kind are one at a time: the one meant, if
      there is one; else a calendar confirmation finds nothing, and an e-mail
      confirmation is ambiguous if any action at all is pending. */
  lemma ChosenExactly(rows: seq<Action>, contact: ContactId, kind: Kind, wanted: Option<ActionId>, now: Instant)
    requires OneLive(rows)
    ensures var c := Choose(rows, contact, kind, wanted, now);
            && (forall id: ActionId :: c == Chosen(id) <==> Meant(rows, contact, kind, wanted, now, id))
            && ((forall id: ActionId :: !Meant(rows, contact, kind, wanted, now, id)) ==>
                  c == if kind == SendEmail && exists j: ActionId :: Unexpired(rows, j, contact, now) then Ambiguous
                       else Nothing)
  {
    var selected := Select(rows, ListedIds(rows, contact, now), kind, wanted);
    if selected.None? { NothingMeant(rows, contact, kind, wanted, now); }
    forall id: ActionId ensures selected == Some(id) <==> Meant(rows, contact, kind, wanted, now, id) {
      SelectedExactly(rows, contact, kind, wanted, now, id);
    }
  }

  // ------------------------------------------------------------- from end to end

  /** What is left after a confirmation of action id with the given answer. */
  ghost predicate Settled(w: World, v: World, k: nat, id: ActionId, connected: bool, reply: Reply)
    requires k < |w.confirmers| && id < |w.actions|
  {
    var settle := (status: Status) => w.actions[id := w.actions[id].(status := status)];
    var end := (outcome: Outcome) => w.confirmers[k := w.confirmers[k].(pc := Ended(outcome))];
    if !connected then v == w.(actions := settle(Status.Pending), confirmers := end(Retryable))
    else
      match reply
      case Accepted =>
        && |v.acks| == |w.acks| + 1 && v.acks[|w.acks|].action == id && w.acks <= v.acks
        && Carries(v.acks[|w.acks|].sent, w.actions[id].payload)
        && v == w.(actions := settle(Status.Executed), confirmers := end(Completed), acks := v.acks,
                   effects := w.effects + [id])
      case Refused => v == w.(actions := settle(Status.Pending), confirmers := end(Retryable))
      case Lost(executed) =>
        v == w.(actions := settle(Status.Pending), confirmers := end(Retryable),
                effects := if executed then w.effects + [id] else w.effects)
  }

  lemma ClaimSucceeds(zones: Zones, w: World, k: nat, id: ActionId)
    requires Inv(zones, w) && CO.Origins(w) && k < |w.confirmers| && w.confirmers[k].pc == Claiming(id)
    requires var x := w.confirmers[k]; Unexpired(w.actions, id, x.contact, w.now) && w.actions[id].kind == x.kind
    ensures ClaimStep(w, k)
         == WithPc(w.(actions := w.actions[id := w.actions[id].(status := Status.Claimed)]), k, Checking(id))
  {
    assert CO.OriginOk(w, id) && RowOk(zones, w.actions[id]);
  }

  lemma ClaimedSettles(zones: Zones, w: World, u: World, k: nat, id: ActionId, connected: bool, reply: Reply)
    requires k < |w.confirmers| && id < |w.actions|
    requires RowOk(zones, w.actions[id]) && w.actions[id].status == Status.Pending
    requires u == WithPc(w.(actions := w.actions[id := w.actions[id].(status := Status.Claimed)]), k, Checking(id))
    ensures Settled(w, AfterClaim(zones, u, k, connected, reply), k, id, connected, reply)
  {
    var v := AfterClaim(zones, u, k, connected, reply);
    if connected {
      var called := CallStep(CheckStep(u, zones, k, true), zones, k, reply);
      assert v == SettleStep(called, k);
    }
  }

  /** A CONFIRMATION FROM END TO END, in any reachable state: the action meant is claimed and
      sent, carrying what was staged; an acknowledged call makes it executed, and
      any other end leaves it pending as it was, to be retried; when none is meant,
      nothing changes, and the answer says so. */
  lemma {:induction false} ConfirmedExactly(zones: Zones, steps: seq<Step>, k: nat, connected: bool, reply: Reply)
    requires var w := After(zones, INIT, steps); k < |w.confirmers| && w.confirmers[k].pc.Choosing?
    ensures var w := After(zones, INIT, steps);
            var x := w.confirmers[k];
            var v := Uninterrupted(zones, w, k, connected, reply);
            && (forall id: ActionId :: Meant(w.actions, x.contact, x.kind, x.pc.wanted, w.now, id) ==>
                  Settled(w, v, k, id, connected, reply))
            && ((forall id: ActionId :: !Meant(w.actions, x.contact, x.kind, x.pc.wanted, w.now, id)) ==>
                  v == WithPc(w, k, Ended(
                    if x.kind == SendEmail && exists j: ActionId :: Unexpired(w.actions, j, x.contact, w.now)
                    then AmbiguousAction else NothingPending)))
  {
    ConfirmationTheorems.Reachable(zones, steps);
    CO.RunKeepsOrigins(zones, INIT, steps);
    var w := After(zones, INIT, steps);
    var x := w.confirmers[k];
    ChosenExactly(w.actions, x.contact, x.kind, x.pc.wanted, w.now);
    forall id: ActionId | Meant(w.actions, x.contact, x.kind, x.pc.wanted, w.now, id)
      ensures Settled(w, Uninterrupted(zones, w, k, connected, reply), k, id, connected, reply)
    {
      ConfirmsMeant(zones, w, k, id, connected, reply);
    }
  }

  lemma ConfirmsMeant(zones: Zones, w: World, k: nat, id: ActionId, connected: bool, reply: Reply)
    requires Inv(zones, w) && CO.Origins(w) && k < |w.confirmers| && w.confirmers[k].pc.Choosing?
    requires var x := w.confirmers[k];
             && Choose(w.actions, x.contact, x.kind, x.pc.wanted, w.now) == Chosen(id)
             && Unexpired(w.actions, id, x.contact, w.now) && w.actions[id].kind == x.kind
    ensures Settled(w, Uninterrupted(zones, w, k, connected, reply), k, id, connected, reply)
  {
    assert RowOk(zones, w.actions[id]);
    var chosen := ChooseStep(w, k);
    assert chosen == WithPc(w, k, Claiming(id));
    FreePcKeeps(zones, w, k, Claiming(id));
    SameOrigins(w, chosen, k);
    ClaimSucceeds(zones, chosen, k, id);
    ClaimedSettles(zones, chosen, ClaimStep(chosen, k), k, id, connected, reply);
  }

  lemma SameOrigins(w: World, v: World, k: nat)
    requires CO.Origins(w) && k < |w.confirmers| == |v.confirmers| && v == WithPc(w, k, v.confirmers[k].pc)
    ensures CO.Origins(v)
  {
    CO.GrowthKeeps(w, v);
  }
}
