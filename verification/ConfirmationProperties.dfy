/** Safety of two-phase writes: one live proposal, one holder, at most one
    acknowledged execution carrying the staged payload. */
module ConfirmationProperties {
  import opened Wrappers
  import opened Table
  import opened PendingActions
  import opened Confirmations
  import Calendar
  import Text

  // -------------------------------------------------------------- invariant

  predicate RowOk(zones: Zones, x: Action) {
    && x.kind == x.payload.Kind() && x.hash == PayloadHash(x.payload)
    && x.expiresAt == x.createdAt + PENDING_ACTION_TTL
    && RequestFor(zones, x.payload).Some? && Carries(RequestFor(zones, x.payload).value, x.payload)
  }

  /** What is sent is what was staged: the draft of an e-mail, or an event with each
      of its fields. */
  predicate Carries(sent: Sent, p: Payload) {
    match p
    case DraftPayload(draft, _, _) => sent == DraftSent(draft)
    case EventPayload(event) => sent.EventSent? && Calendar.Carries(sent.request, event)
  }

  /** At most one proposal per contact and kind is pending or claimed. */
  predicate OneLive(rows: seq<Action>) {
    forall i, j :: 0 <= i < j < |rows| && Live(rows[i].status) && Live(rows[j].status) ==>
      rows[i].contact != rows[j].contact || rows[i].kind != rows[j].kind
  }

  ghost predicate Acked(w: World, id: ActionId) { exists i :: 0 <= i < |w.acks| && w.acks[i].action == id }

  /** In flight: from a committed claim until the settlement or a crash. */
  predicate Holds(pc: Pc, id: ActionId) { (pc.Checking? || pc.Calling? || pc.Settling?) && pc.id == id }

  ghost predicate ConfirmerOk(w: World, x: Confirmer) {
    && (HasId(x.pc) ==> x.pc.id < |w.actions|)
    && (x.pc.Checking? || x.pc.Calling? || x.pc.Settling? ==>
         && (w.actions[x.pc.id].status.Claimed? || w.actions[x.pc.id].status.Cancelled?)
         && w.actions[x.pc.id].contact == x.contact && w.actions[x.pc.id].kind == x.kind
         && (Acked(w, x.pc.id) <==> x.pc.Settling? && x.pc.acknowledged))
    && (x.pc == Ended(AmbiguousAction) ==> x.kind.SendEmail?)
    && x.pc != Ended(Invalid)
  }

  ghost predicate AcksOk(zones: Zones, w: World) {
    && (forall i :: 0 <= i < |w.acks| ==>
         && w.acks[i].action < |w.actions|
         && RequestFor(zones, w.actions[w.acks[i].action].payload) == Some(w.acks[i].sent)
         && !MayNotBeAcked(w.actions[w.acks[i].action].status))
    && (forall i, j :: 0 <= i < j < |w.acks| ==> w.acks[i].action != w.acks[j].action)
    && (forall id :: 0 <= id < |w.actions| && w.actions[id].status.Executed? ==> Acked(w, id))
  }

  predicate MayNotBeAcked(s: Status) { s.Pending? || s.Expired? || s.Failed? }

  predicate OneHolder(w: World) {
    forall k, m :: 0 <= k < m < |w.confirmers| ==> !SharedHold(w.confirmers[k].pc, w.confirmers[m].pc)
  }

  predicate SharedHold(p: Pc, q: Pc) { HasId(p) && Holds(p, p.id) && Holds(q, p.id) }

  ghost predicate Inv(zones: Zones, w: World) {
    && (forall i :: 0 <= i < |w.actions| ==> RowOk(zones, w.actions[i]))
    && OneLive(w.actions)
    && AcksOk(zones, w)
    && (forall k :: 0 <= k < |w.confirmers| ==> ConfirmerOk(w, w.confirmers[k]))
    && OneHolder(w)
  }

  predicate Terminal(s: Status) { !Live(s) }

  /** Rows keep what was staged and their deadline; terminal rows are frozen. */
  ghost predicate Extends(w: World, v: World) {
    && |w.actions| <= |v.actions|
    && (forall i :: 0 <= i < |w.actions| ==>
         && v.actions[i] == w.actions[i].(status := v.actions[i].status)
         && (Terminal(w.actions[i].status) ==> v.actions[i] == w.actions[i]))
    && w.acks <= v.acks
  }

  // ------------------------------------------------------------- selection

  predicate Descending(ids: seq<ActionId>) { forall i, j :: 0 <= i < j < |ids| ==> ids[j] < ids[i] }

  lemma {:induction false} ListedDescend(rows: seq<Action>, contact: ContactId, now: Instant)
    ensures Descending(ListedIds(rows, contact, now))
  {
    if rows != [] {
      var n := |rows| - 1;
      ListedDescend(rows[..n], contact, now);
      var rest := ListedIds(rows[..n], contact, now);
      assert forall k :: 0 <= k < |rest| ==> rest[k] < n;
      assert Descending([n] + rest) && Descending([] + rest);
    }
  }

  lemma {:induction false} ListedComplete(rows: seq<Action>, contact: ContactId, now: Instant, id: ActionId)
    requires id < |rows| && Listed(rows[id], contact, now)
    ensures id in ListedIds(rows, contact, now)
  {
    var n := |rows| - 1;
    if id < n {
      assert rows[..n][id] == rows[id];
      ListedComplete(rows[..n], contact, now, id);
    }
  }

  lemma {:induction false} CountAtMostOne<T>(xs: seq<T>, p: T -> bool)
    requires forall i, j :: 0 <= i < j < |xs| ==> !(p(xs[i]) && p(xs[j]))
    ensures Count(xs, p) <= 1
  {
    if xs != [] {
      var n := |xs| - 1;
      CountAtMostOne(xs[..n], p);
      CountedIsFound(xs[..n], p);
    }
  }

  lemma OneListedPerKind(rows: seq<Action>, contact: ContactId, kind: Kind, now: Instant)
    requires OneLive(rows)
    ensures Count(ListedIds(rows, contact, now), OfKind(kind, rows)) <= 1
  {
    var ids := ListedIds(rows, contact, now);
    ListedDescend(rows, contact, now);
    forall i, j | 0 <= i < j < |ids| ensures !(OfKind(kind, rows)(ids[i]) && OfKind(kind, rows)(ids[j])) {
      assert Listed(rows[ids[i]], contact, now) && Listed(rows[ids[j]], contact, now);
    }
    CountAtMostOne(ids, OfKind(kind, rows));
  }

  ghost predicate HasListed(rows: seq<Action>, contact: ContactId, kind: Kind, now: Instant) {
    exists id: ActionId :: id < |rows| && Listed(rows[id], contact, now) && rows[id].kind == kind
  }

  lemma CountedIffListed(rows: seq<Action>, contact: ContactId, kind: Kind, now: Instant)
    ensures Count(ListedIds(rows, contact, now), OfKind(kind, rows)) > 0 <==> HasListed(rows, contact, kind, now)
  {
    var ids := ListedIds(rows, contact, now);
    CountedIsFound(ids, OfKind(kind, rows));
    if HasListed(rows, contact, kind, now) {
      var id: ActionId :| id < |rows| && Listed(rows[id], contact, now) && rows[id].kind == kind;
      ListedComplete(rows, contact, now, id);
      var k :| 0 <= k < |ids| && ids[k] == id;
      assert OfKind(kind, rows)(ids[k]);
    }
  }

  lemma ChosenIsOurs(rows: seq<Action>, contact: ContactId, kind: Kind, wanted: Option<ActionId>, now: Instant)
    ensures var c := Choose(rows, contact, kind, wanted, now);
            c.Chosen? ==> c.id < |rows| && Listed(rows[c.id], contact, now) && rows[c.id].kind == kind
  {
    var ids := ListedIds(rows, contact, now);
    if wanted.Some? && wanted.value in ids {
      var k :| 0 <= k < |ids| && ids[k] == wanted.value;
      assert Listed(rows[ids[k]], contact, now);
    }
    if wanted.None? { CountedIsFound(ids, OfKind(kind, rows)); }
  }

  /** With one live proposal per kind the calendar service is never ambiguous. */
  lemma CalendarIsNeverAmbiguous(rows: seq<Action>, contact: ContactId, wanted: Option<ActionId>, now: Instant)
    requires OneLive(rows)
    ensures !Choose(rows, contact, CreateEvent, wanted, now).Ambiguous?
  {
    OneListedPerKind(rows, contact, CreateEvent, now);
  }

  /** Something is listed exactly when an action of one of the two kinds is. */
  lemma ListedByKind(rows: seq<Action>, contact: ContactId, now: Instant)
    ensures ListedIds(rows, contact, now) != [] <==>
            (HasListed(rows, contact, SendEmail, now) || HasListed(rows, contact, CreateEvent, now))
  {
    var ids := ListedIds(rows, contact, now);
    CountedIffListed(rows, contact, SendEmail, now);
    CountedIffListed(rows, contact, CreateEvent, now);
    if ids != [] {
      var first := rows[ids[0]];
      assert Listed(first, contact, now) && (first.kind.SendEmail? || first.kind.CreateEvent?);
    }
  }

  /** THE EMAIL SERVICE IS AMBIGUOUS, when no action is named, exactly if no
      email but a calendar event is pending. */
  lemma EmailAmbiguity(rows: seq<Action>, contact: ContactId, now: Instant)
    requires OneLive(rows)
    ensures Choose(rows, contact, SendEmail, None, now).Ambiguous?
            <==> (!HasListed(rows, contact, SendEmail, now) && HasListed(rows, contact, CreateEvent, now))
  {
    OneListedPerKind(rows, contact, SendEmail, now);
    CountedIffListed(rows, contact, SendEmail, now);
    ListedByKind(rows, contact, now);
  }

  /** And, when one is named, exactly if it is not a pending email while some
      action is pending. */
  lemma NamedEmailAmbiguity(rows: seq<Action>, contact: ContactId, id: ActionId, now: Instant)
    ensures Choose(rows, contact, SendEmail, Some(id), now).Ambiguous?
            <==> ((HasListed(rows, contact, SendEmail, now) || HasListed(rows, contact, CreateEvent, now))
                  && !(id < |rows| && Listed(rows[id], contact, now) && rows[id].kind.SendEmail?))
  {
    ListedByKind(rows, contact, now);
    ChosenIsOurs(rows, contact, SendEmail, Some(id), now);
    if id < |rows| && Listed(rows[id], contact, now) { ListedComplete(rows, contact, now, id); }
  }

  // ------------------------------------------------------- statements on rows

  lemma StageKeepsRows(rows: seq<Action>, contact: ContactId, payload: Payload, origin: Origin, now: Instant)
    requires OneLive(rows)
    ensures OneLive(Stage(rows, contact, payload, origin, now))
  {}

  // ------------------------------------------------------------ whole worlds

  /** A change of rows that only touches statuses no holder or ack depends on. */
  lemma RowsKeep(zones: Zones, w: World, rows: seq<Action>)
    requires Inv(zones, w) && OneLive(rows) && Extends(w, w.(actions := rows))
    requires forall i :: |w.actions| <= i < |rows| ==> RowOk(zones, rows[i]) && !rows[i].status.Executed?
    requires forall i :: 0 <= i < |w.actions| && rows[i] != w.actions[i] ==>
               || rows[i].status.Cancelled?
               || (w.actions[i].status.Pending? && (rows[i].status.Expired? || rows[i].status.Claimed?))
    ensures Inv(zones, w.(actions := rows))
  {
    var v := w.(actions := rows);
    forall id | Acked(v, id) != Acked(w, id) ensures false {}
    forall k | 0 <= k < |v.confirmers| ensures ConfirmerOk(v, v.confirmers[k]) {
      assert ConfirmerOk(w, w.confirmers[k]);
    }
    forall id | 0 <= id < |v.actions| && v.actions[id].status.Executed? ensures Acked(v, id) {
      assert Acked(w, id);
      var i :| 0 <= i < |w.acks| && w.acks[i].action == id;
      assert v.acks[i].action == id;
    }
  }

  lemma StageStepKeeps(zones: Zones, w: World, contact: ContactId, payload: Payload, run: RunId)
    requires Inv(zones, w) && run < |w.runs|
    requires RequestFor(zones, payload).Some? && Carries(RequestFor(zones, payload).value, payload)
    ensures var v := StageStep(w, contact, payload, run); Inv(zones, v) && Extends(w, v)
  {
    var origin := Origin(Some(ExecutionTurn(run)), w.runs[run].source);
    StageKeepsRows(w.actions, contact, payload, origin, w.now);
    RowsKeep(zones, w, Stage(w.actions, contact, payload, origin, w.now));
  }

  lemma StagedEventHasRequest(zones: Zones, draft: Calendar.Draft, resolve: Resolver)
    requires Calendar.ValidateCreate(Calendar.Library(zones, resolve), draft).Ok?
    ensures var p := Calendar.ValidateCreate(Calendar.Library(zones, resolve), draft).value;
            var sent := RequestFor(zones, EventPayload(p));
            sent.Some? && Calendar.Carries(sent.value.request, p)
  {
    var lib := Calendar.Library(zones, resolve);
    Calendar.StagedIsExecutable(lib, draft);
    var p := Calendar.ValidateCreate(lib, draft).value;
    assert Calendar.CreateRequest(Calendar.Library(zones, NoBounds()), p) == Calendar.CreateRequest(lib, p);
  }

  /** A confirmer may move to any position that holds nothing. */
  predicate Free(x: Confirmer, pc: Pc) {
    pc.Choosing? || pc.Crashed?
    || (pc.Ended? && !pc.outcome.Invalid? && (pc.outcome.AmbiguousAction? ==> x.kind.SendEmail?))
  }

  lemma FreePcKeeps(zones: Zones, w: World, k: nat, pc: Pc)
    requires Inv(zones, w) && k < |w.confirmers|
    requires Free(w.confirmers[k], pc) || (pc.Claiming? && pc.id < |w.actions|)
    ensures Inv(zones, WithPc(w, k, pc)) && Extends(w, WithPc(w, k, pc))
  {
    var v := WithPc(w, k, pc);
    forall id | 0 <= id < |w.actions| && w.actions[id].status.Executed? ensures Acked(v, id) { SameAcks(w, v, id); }
    forall m | 0 <= m < |v.confirmers| ensures ConfirmerOk(v, v.confirmers[m]) {
      assert ConfirmerOk(w, w.confirmers[m]);
      if HasId(v.confirmers[m].pc) { SameAcks(w, v, v.confirmers[m].pc.id); }
    }
  }

  lemma SameAcks(w: World, v: World, id: ActionId)
    requires v.acks == w.acks
    ensures Acked(v, id) <==> Acked(w, id)
  {
    if Acked(w, id) { var i :| 0 <= i < |w.acks| && w.acks[i].action == id; assert v.acks[i].action == id; }
    if Acked(v, id) { var i :| 0 <= i < |v.acks| && v.acks[i].action == id; assert w.acks[i].action == id; }
  }

  lemma ChooseStepKeeps(zones: Zones, w: World, k: nat)
    requires Inv(zones, w) && k < |w.confirmers| && w.confirmers[k].pc.Choosing?
    ensures Inv(zones, ChooseStep(w, k)) && Extends(w, ChooseStep(w, k))
  {
    var x := w.confirmers[k];
    ChosenIsOurs(w.actions, x.contact, x.kind, x.pc.wanted, w.now);
    if x.kind.CreateEvent? { CalendarIsNeverAmbiguous(w.actions, x.contact, x.pc.wanted, w.now); }
    var choice := Choose(w.actions, x.contact, x.kind, x.pc.wanted, w.now);
    if choice.Chosen? { assert RowOk(zones, w.actions[choice.id]); }
    FreePcKeeps(zones, w, k, ChooseStep(w, k).confirmers[k].pc);
  }

  lemma PendingIsFree(zones: Zones, w: World, id: ActionId)
    requires Inv(zones, w) && id < |w.actions| && w.actions[id].status.Pending?
    ensures !Acked(w, id) && forall k :: 0 <= k < |w.confirmers| ==> !Holds(w.confirmers[k].pc, id)
  {
    forall k | 0 <= k < |w.confirmers| ensures !Holds(w.confirmers[k].pc, id) {
      assert ConfirmerOk(w, w.confirmers[k]);
    }
  }

  lemma ClaimStepKeeps(zones: Zones, w: World, k: nat)
    requires Inv(zones, w) && Acts(w, k) && w.confirmers[k].pc.Claiming?
    ensures Inv(zones, ClaimStep(w, k)) && Extends(w, ClaimStep(w, k))
  {
    var x := w.confirmers[k];
    var id := x.pc.id;
    var (rows, claimed) := Claim(
      w.actions, id, x.contact, x.kind, InboundTurn(x.message), PayloadHash(w.actions[id].payload), w.now);
    if claimed {
      PendingIsFree(zones, w, id);
      var u := w.(actions := rows);
      RowsKeep(zones, w, rows);
      var v := ClaimStep(w, k);
      forall m | 0 <= m < |v.confirmers| ensures ConfirmerOk(v, v.confirmers[m]) {
        assert ConfirmerOk(u, u.confirmers[m]);
        if HasId(v.confirmers[m].pc) { SameAcks(u, v, v.confirmers[m].pc.id); SameAcks(w, v, v.confirmers[m].pc.id); }
      }
      forall i | 0 <= i < |v.actions| && v.actions[i].status.Executed? ensures Acked(v, i) { SameAcks(u, v, i); }
    } else {
      FreePcKeeps(zones, w, k, Ended(AlreadyUsed));
    }
  }

  lemma OnlyHolder(w: World, k: nat, m: nat, id: ActionId)
    requires OneHolder(w) && k < |w.confirmers| && m < |w.confirmers| && m != k
    requires HasId(w.confirmers[k].pc) && w.confirmers[k].pc.id == id && Holds(w.confirmers[k].pc, id)
    ensures !Holds(w.confirmers[m].pc, id)
  {
    assert !SharedHold(w.confirmers[m].pc, w.confirmers[k].pc) && !SharedHold(w.confirmers[k].pc, w.confirmers[m].pc);
  }

  lemma UnheldConfirmersKeep(w: World, v: World, id: ActionId)
    requires (forall m :: 0 <= m < |w.confirmers| ==> ConfirmerOk(w, w.confirmers[m]) && !Holds(w.confirmers[m].pc, id))
    requires id < |w.actions| && v == w.(actions := v.actions) && |v.actions| == |w.actions|
    requires v.actions[id] == w.actions[id].(status := v.actions[id].status)
    requires forall i :: 0 <= i < |w.actions| && i != id ==> v.actions[i] == w.actions[i]
    ensures forall m :: 0 <= m < |v.confirmers| ==> ConfirmerOk(v, v.confirmers[m])
  {
    forall m | 0 <= m < |v.confirmers| ensures ConfirmerOk(v, v.confirmers[m]) {
      assert ConfirmerOk(w, w.confirmers[m]);
      if HasId(v.confirmers[m].pc) { SameAcks(w, v, v.confirmers[m].pc.id); }
    }
  }

  /** Settling an action nobody holds any more. */
  lemma UnheldKeeps(zones: Zones, w: World, id: ActionId, to: Status)
    requires Inv(zones, w) && id < |w.actions| && forall m :: 0 <= m < |w.confirmers| ==> !Holds(w.confirmers[m].pc, id)
    requires if Acked(w, id) then to.Executed? else to.Pending?
    ensures var v := w.(actions := WithStatus(w.actions, id, Status.Claimed, to)); Inv(zones, v) && Extends(w, v)
  {
    var v := w.(actions := WithStatus(w.actions, id, Status.Claimed, to));
    UnheldConfirmersKeep(w, v, id);
    forall i | 0 <= i < |v.actions| && v.actions[i].status.Executed? ensures Acked(v, i) { SameAcks(w, v, i); }
    forall i | 0 <= i < |v.acks| ensures !MayNotBeAcked(v.actions[v.acks[i].action].status) {
      if v.acks[i].action == id { assert Acked(w, id); }
    }
  }

  /** The one holder of an action settles it: it releases an action that was not
      acknowledged, or marks an acknowledged one executed. */
  lemma SettledKeeps(zones: Zones, w: World, k: nat, to: Status, pc: Pc)
    requires Inv(zones, w) && Acts(w, k) && Holds(w.confirmers[k].pc, w.confirmers[k].pc.id)
    requires if Acked(w, w.confirmers[k].pc.id) then to.Executed? else to.Pending?
    requires Free(w.confirmers[k], pc) && pc.Ended?
    ensures var v := WithPc(w.(actions := WithStatus(w.actions, w.confirmers[k].pc.id, Status.Claimed, to)), k, pc);
            Inv(zones, v) && Extends(w, v)
  {
    var id := w.confirmers[k].pc.id;
    var u := WithPc(w, k, pc);
    FreePcKeeps(zones, w, k, pc);
    SameAcks(w, u, id);
    forall m | 0 <= m < |u.confirmers| ensures !Holds(u.confirmers[m].pc, id) {
      if m != k { OnlyHolder(w, k, m, id); }
    }
    UnheldKeeps(zones, u, id, to);
    assert WithPc(w.(actions := WithStatus(w.actions, id, Status.Claimed, to)), k, pc)
        == u.(actions := WithStatus(w.actions, id, Status.Claimed, to));
  }

  lemma CheckStepKeeps(zones: Zones, w: World, k: nat, connected: bool)
    requires Inv(zones, w) && Acts(w, k) && w.confirmers[k].pc.Checking?
    ensures Inv(zones, CheckStep(w, zones, k, connected)) && Extends(w, CheckStep(w, zones, k, connected))
  {
    var id := w.confirmers[k].pc.id;
    assert RowOk(zones, w.actions[id]) && ConfirmerOk(w, w.confirmers[k]);
    if connected {
      HoldKeeps(zones, w, k, Calling(id));
    } else {
      SettledKeeps(zones, w, k, Status.Pending, Ended(Retryable));
    }
  }

  /** The holder moves on with its claim and without an acknowledgement. */
  lemma HoldKeeps(zones: Zones, w: World, k: nat, pc: Pc)
    requires Inv(zones, w) && Acts(w, k) && Holds(w.confirmers[k].pc, w.confirmers[k].pc.id)
    requires Holds(pc, w.confirmers[k].pc.id) && !Acked(w, pc.id) && (pc.Settling? ==> !pc.acknowledged)
    ensures Inv(zones, WithPc(w, k, pc)) && Extends(w, WithPc(w, k, pc))
  {
    var v := WithPc(w, k, pc);
    assert ConfirmerOk(w, w.confirmers[k]);
    forall m | 0 <= m < |v.confirmers| ensures ConfirmerOk(v, v.confirmers[m]) {
      assert ConfirmerOk(w, w.confirmers[m]);
      if HasId(v.confirmers[m].pc) { SameAcks(w, v, v.confirmers[m].pc.id); }
    }
    forall i | 0 <= i < |v.actions| && v.actions[i].status.Executed? ensures Acked(v, i) { SameAcks(w, v, i); }
    forall m | 0 <= m < |v.confirmers| && m != k
      ensures !SharedHold(v.confirmers[m].pc, pc) && !SharedHold(pc, v.confirmers[m].pc)
    {
      assert !SharedHold(w.confirmers[m].pc, w.confirmers[k].pc) && !SharedHold(w.confirmers[k].pc, w.confirmers[m].pc);
    }
  }

  lemma EffectKeeps(zones: Zones, w: World, effects: seq<ActionId>)
    requires Inv(zones, w)
    ensures Inv(zones, w.(effects := effects)) && Extends(w, w.(effects := effects))
  {
    var v := w.(effects := effects);
    forall k | 0 <= k < |v.confirmers| ensures ConfirmerOk(v, v.confirmers[k]) {
      assert ConfirmerOk(w, w.confirmers[k]);
      if HasId(v.confirmers[k].pc) { SameAcks(w, v, v.confirmers[k].pc.id); }
    }
    forall i | 0 <= i < |v.actions| && v.actions[i].status.Executed? ensures Acked(v, i) { SameAcks(w, v, i); }
  }

  lemma AckKeeps(zones: Zones, w: World, k: nat, sent: Sent)
    requires Inv(zones, w) && Acts(w, k) && w.confirmers[k].pc.Calling?
    requires RequestFor(zones, w.actions[w.confirmers[k].pc.id].payload) == Some(sent)
    ensures var id := w.confirmers[k].pc.id;
            var v := WithPc(w.(acks := w.acks + [Ack(id, sent)]), k, Settling(id, true));
            Inv(zones, v) && Extends(w, v)
  {
    var id := w.confirmers[k].pc.id;
    var v := WithPc(w.(acks := w.acks + [Ack(id, sent)]), k, Settling(id, true));
    assert ConfirmerOk(w, w.confirmers[k]);
    forall i ensures Acked(v, i) <==> i == id || Acked(w, i) { AckAppended(w, v, Ack(id, sent), i); }
    forall m | 0 <= m < |v.confirmers| ensures ConfirmerOk(v, v.confirmers[m]) {
      assert ConfirmerOk(w, w.confirmers[m]);
      if m != k && Holds(w.confirmers[m].pc, id) { OnlyHolder(w, k, m, id); }
    }
    forall m | 0 <= m < |v.confirmers| && m != k
      ensures !SharedHold(v.confirmers[m].pc, v.confirmers[k].pc) && !SharedHold(v.confirmers[k].pc, v.confirmers[m].pc)
    {
      assert !SharedHold(w.confirmers[m].pc, w.confirmers[k].pc) && !SharedHold(w.confirmers[k].pc, w.confirmers[m].pc);
    }
  }

  lemma AckAppended(w: World, v: World, ack: Ack, i: ActionId)
    requires v.acks == w.acks + [ack]
    ensures Acked(v, i) <==> i == ack.action || Acked(w, i)
  {
    if i == ack.action { assert v.acks[|w.acks|].action == i; }
    if Acked(w, i) { var j :| 0 <= j < |w.acks| && w.acks[j].action == i; assert v.acks[j].action == i; }
    if Acked(v, i) && i != ack.action {
      var j :| 0 <= j < |v.acks| && v.acks[j].action == i;
      assert w.acks[j].action == i;
    }
  }

  lemma CallStepKeeps(zones: Zones, w: World, k: nat, reply: Reply)
    requires Inv(zones, w) && Acts(w, k) && w.confirmers[k].pc.Calling?
    ensures Inv(zones, CallStep(w, zones, k, reply)) && Extends(w, CallStep(w, zones, k, reply))
  {
    var id := w.confirmers[k].pc.id;
    assert RowOk(zones, w.actions[id]) && ConfirmerOk(w, w.confirmers[k]);
    var u := w.(effects := CallStep(w, zones, k, reply).effects);
    EffectKeeps(zones, w, u.effects);
    if reply.Accepted? {
      AckKeeps(zones, u, k, RequestFor(zones, w.actions[id].payload).value);
    } else {
      SameAcks(w, u, id);
      HoldKeeps(zones, u, k, Settling(id, false));
    }
  }

  lemma SettleStepKeeps(zones: Zones, w: World, k: nat)
    requires Inv(zones, w) && Acts(w, k) && w.confirmers[k].pc.Settling?
    ensures Inv(zones, SettleStep(w, k)) && Extends(w, SettleStep(w, k))
  {
    assert ConfirmerOk(w, w.confirmers[k]);
    if w.confirmers[k].pc.acknowledged {
      SettledKeeps(zones, w, k, Status.Executed, Ended(Completed));
    } else {
      SettledKeeps(zones, w, k, Status.Pending, Ended(Retryable));
    }
  }

  lemma ConfirmKeeps(zones: Zones, w: World, x: Confirmer)
    requires Inv(zones, w) && x.pc.Choosing?
    ensures var v := w.(confirmers := w.confirmers + [x]); Inv(zones, v) && Extends(w, v)
  {
    var v := w.(confirmers := w.confirmers + [x]);
    forall k | 0 <= k < |w.confirmers| ensures ConfirmerOk(v, v.confirmers[k]) {
      assert ConfirmerOk(w, w.confirmers[k]);
      if HasId(v.confirmers[k].pc) { SameAcks(w, v, v.confirmers[k].pc.id); }
    }
    forall i | 0 <= i < |v.actions| && v.actions[i].status.Executed? ensures Acked(v, i) { SameAcks(w, v, i); }
  }

  /** Time, turns and runs are none of the table's. */
  lemma OutsideKeeps(zones: Zones, w: World, v: World)
    requires Inv(zones, w) && v.actions == w.actions && v.confirmers == w.confirmers && v.acks == w.acks
    ensures Inv(zones, v) && Extends(w, v)
  {
    forall k | 0 <= k < |v.confirmers| ensures ConfirmerOk(v, v.confirmers[k]) {
      assert ConfirmerOk(w, w.confirmers[k]);
      if HasId(v.confirmers[k].pc) { SameAcks(w, v, v.confirmers[k].pc.id); }
    }
    forall i | 0 <= i < |v.actions| && v.actions[i].status.Executed? ensures Acked(v, i) { SameAcks(w, v, i); }
  }

  lemma StageEmailKeeps(zones: Zones, w: World, contact: ContactId, email: Email, run: RunId)
    requires Inv(zones, w) && run < |w.runs|
    ensures var v := StageEmailStep(w, contact, email, run); Inv(zones, v) && Extends(w, v)
  {
    var payload := EmailPayload(email);
    Text.StripFacts(email.draftId);
    Text.StripIdempotent(Text.Strip(email.draftId));
    if payload.Some? { StageStepKeeps(zones, w, contact, payload.value, run); }
  }

  lemma StageEventKeeps(
    zones: Zones, w: World, contact: ContactId, draft: Calendar.Draft, resolve: Resolver, run: RunId)
    requires Inv(zones, w) && run < |w.runs|
    ensures var v := StageEventStep(w, zones, contact, draft, resolve, run); Inv(zones, v) && Extends(w, v)
  {
    var payload := Calendar.ValidateCreate(Calendar.Library(zones, resolve), draft);
    if payload.Ok? {
      StagedEventHasRequest(zones, draft, resolve);
      StageStepKeeps(zones, w, contact, EventPayload(payload.value), run);
    }
  }

  predicate IsConfirmerStep(s: Step) {
    s.ChooseAction? || s.ClaimChosen? || s.Check? || s.Call? || s.Settle? || s.Crash?
  }

  lemma ConfirmerStepKeeps(zones: Zones, w: World, s: Step)
    requires Inv(zones, w) && Enabled(w, s) && IsConfirmerStep(s)
    ensures Inv(zones, Apply(zones, w, s)) && Extends(w, Apply(zones, w, s))
  {
    match s
    case ChooseAction(k) => ChooseStepKeeps(zones, w, k);
    case ClaimChosen(k) => ClaimStepKeeps(zones, w, k);
    case Check(k, connected) => CheckStepKeeps(zones, w, k, connected);
    case Call(k, reply) => CallStepKeeps(zones, w, k, reply);
    case Settle(k) => SettleStepKeeps(zones, w, k);
    case Crash(k) => FreePcKeeps(zones, w, k, Crashed);
  }

  lemma StepKeeps(zones: Zones, w: World, s: Step)
    requires Inv(zones, w)
    ensures Inv(zones, Apply(zones, w, s)) && Extends(w, Apply(zones, w, s))
  {
    if Enabled(w, s) {
      if IsConfirmerStep(s) {
        ConfirmerStepKeeps(zones, w, s);
      } else {
        match s
        case StageEvent(contact, draft, resolve, run) => StageEventKeeps(zones, w, contact, draft, resolve, run);
        case StageEmail(contact, email, run) => StageEmailKeeps(zones, w, contact, email, run);
        case Confirm(turn, kind, wanted) =>
          ConfirmKeeps(zones, w, NewConfirmer(w.turns[turn], turn, kind, wanted));
        case ExpireDue => RowsKeep(zones, w, Expire(w.actions, w.now));
        case _ => OutsideKeeps(zones, w, Apply(zones, w, s));
      }
    }
  }

  lemma {:induction false} RunKeeps(zones: Zones, w: World, steps: seq<Step>)
    requires Inv(zones, w)
    ensures Inv(zones, After(zones, w, steps)) && Extends(w, After(zones, w, steps))
  {
    if steps != [] {
      RunKeeps(zones, w, steps[..|steps| - 1]);
      StepKeeps(zones, After(zones, w, steps[..|steps| - 1]), steps[|steps| - 1]);
    }
  }

  lemma {:induction false} AfterAppend(zones: Zones, w: World, steps: seq<Step>, s: Step)
    ensures After(zones, w, steps + [s]) == Apply(zones, After(zones, w, steps), s)
  {
    assert (steps + [s])[..|steps|] == steps;
  }

  lemma {:induction false} AfterThree(zones: Zones, w: World, steps: seq<Step>, s: Step, t: Step, u: Step)
    ensures After(zones, w, steps + [s] + [t] + [u])
         == Apply(zones, Apply(zones, Apply(zones, After(zones, w, steps), s), t), u)
  {
    AfterAppend(zones, w, steps, s);
    AfterAppend(zones, w, steps + [s], t);
    AfterAppend(zones, w, steps + [s] + [t], u);
  }
}
