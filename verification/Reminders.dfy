/** Reminder delivery: the `reminder` table (app/db/reminders.py) and the job
    handler that claims, sends and records or releases
    (app/worker/handlers/reminder_due.py), with any number of handlers per
    reminder running at once. */
module Reminders {
  import opened Wrappers
  import opened Table
  import Text

  type ReminderId = nat
  type ContactId = nat
  type Instant = int

  datatype Status = Active | Sent | Cancelled

  datatype Reminder = Reminder(
    contact: ContactId, body: string, dueAt: Instant, status: Status, sentAt: Option<Instant>)

  function ClaimForSend(rows: seq<Reminder>, id: ReminderId, now: Instant): (seq<Reminder>, bool) {
    if id < |rows| && rows[id].status.Active? then
      (rows[id := rows[id].(status := Sent, sentAt := Some(now))], true)
    else (rows, false)
  }

  function ReleaseClaim(rows: seq<Reminder>, id: ReminderId): seq<Reminder> {
    if id < |rows| && rows[id].status.Sent? then rows[id := rows[id].(status := Active, sentAt := None)] else rows
  }

  function CancelRow(rows: seq<Reminder>, id: ReminderId): (seq<Reminder>, bool) {
    if id < |rows| && rows[id].status.Active? then (rows[id := rows[id].(status := Cancelled)], true) else (rows, false)
  }

  function FormatPing(body: string): string { Text.Strip(body) }

  class ReminderStore {
    var reminders: seq<Reminder>
    var now: Instant

    method CreateReminder(contact: ContactId, body: string, dueAt: Instant) returns (id: ReminderId)
      modifies this`reminders
      ensures reminders == old(reminders) + [Reminder(contact, body, dueAt, Active, None)] && id == |old(reminders)|
    {
      id := |reminders|;
      reminders := reminders + [Reminder(contact, body, dueAt, Active, None)];
    }

    method ClaimReminderForSend(id: ReminderId) returns (claimed: bool)
      modifies this`reminders
      ensures (reminders, claimed) == ClaimForSend(old(reminders), id, now)
      ensures claimed <==> id < |old(reminders)| && old(reminders)[id].status == Active
      ensures claimed ==> reminders == old(reminders)[id := old(reminders)[id].(status := Sent, sentAt := Some(now))]
      ensures !claimed ==> reminders == old(reminders)
    {
      claimed := id < |reminders| && reminders[id].status == Active;
      if claimed {
        var row := reminders[id].(status := Sent);
        reminders := reminders[id := row.(sentAt := Some(now))];
      }
    }

    method ReleaseReminderClaim(id: ReminderId)
      modifies this`reminders
      ensures reminders == ReleaseClaim(old(reminders), id)
      ensures if id < |old(reminders)| && old(reminders)[id].status == Sent then
                reminders == old(reminders)[id := old(reminders)[id].(status := Active, sentAt := None)]
              else reminders == old(reminders)
    {
      if id < |reminders| && reminders[id].status == Sent {
        var row := reminders[id].(status := Active);
        reminders := reminders[id := row.(sentAt := None)];
      }
    }

    method CancelReminderRow(id: ReminderId) returns (cancelled: bool)
      modifies this`reminders
      ensures (reminders, cancelled) == CancelRow(old(reminders), id)
      ensures cancelled <==> id < |old(reminders)| && old(reminders)[id].status == Active
      ensures cancelled ==> reminders == old(reminders)[id := old(reminders)[id].(status := Cancelled)]
      ensures !cancelled ==> reminders == old(reminders)
    {
      cancelled := id < |reminders| && reminders[id].status == Active;
      if cancelled {
        reminders := reminders[id := reminders[id].(status := Cancelled)];
      }
    }
  }

  // ---------------------------------------------------------------- protocol

  datatype Outcome = Noop | AlreadyClaimed | Delivered | SendRaised | PersistRaised

  datatype Pc =
    | Loading
    | Claiming(body: string)
    | Sending(body: string)
    | Releasing
    | Persisting
    | Ended(outcome: Outcome)
    | Crashed

  datatype Handler = Handler(reminder: ReminderId, pc: Pc)

  /** The provider accepts or refuses, or its answer is lost. */
  datatype Reply = Accepted | Refused | Lost(executed: bool)

  /** An accepted ping and its text. */
  datatype Ping = Ping(reminder: ReminderId, text: string)

  datatype World = World(
    reminders: seq<Reminder>, handlers: seq<Handler>, pings: seq<Ping>, effects: seq<ReminderId>, now: Instant)

  const INIT := World([], [], [], [], 0)

  datatype Step =
    | Tick(elapsed: nat)
    | Create(contact: ContactId, body: string, dueAt: Instant)
    | Cancel(reminder: ReminderId)
    | StartHandler(reminder: ReminderId)
    | Load(handler: nat)
    | Claim(handler: nat)
    | Send(handler: nat, reply: Reply)
    | Release(handler: nat)
    | Persist(handler: nat, stored: bool)
    | Crash(handler: nat)

  function WithPc(w: World, k: nat, pc: Pc): World
    requires k < |w.handlers|
  {
    w.(handlers := w.handlers[k := w.handlers[k].(pc := pc)])
  }

  function LoadStep(w: World, k: nat): World
    requires k < |w.handlers|
  {
    var id := w.handlers[k].reminder;
    if id < |w.reminders| && w.reminders[id].status.Active? then WithPc(w, k, Claiming(w.reminders[id].body))
    else WithPc(w, k, Ended(Noop))
  }

  function ClaimStep(w: World, k: nat): World
    requires k < |w.handlers| && w.handlers[k].pc.Claiming?
  {
    var (rows, claimed) := ClaimForSend(w.reminders, w.handlers[k].reminder, w.now);
    WithPc(w.(reminders := rows), k, if claimed then Sending(w.handlers[k].pc.body) else Ended(AlreadyClaimed))
  }

  function SendStep(w: World, k: nat, reply: Reply): World
    requires k < |w.handlers| && w.handlers[k].pc.Sending?
  {
    var id := w.handlers[k].reminder;
    var acted := w.(effects := w.effects + [id]);
    match reply
    case Accepted => WithPc(acted.(pings := w.pings + [Ping(id, FormatPing(w.handlers[k].pc.body))]), k, Persisting)
    case Refused => WithPc(w, k, Releasing)
    case Lost(executed) => WithPc(if executed then acted else w, k, Releasing)
  }

  predicate Enabled(w: World, s: Step) {
    match s
    case Load(k) => k < |w.handlers| && w.handlers[k].pc.Loading?
    case Claim(k) => k < |w.handlers| && w.handlers[k].pc.Claiming?
    case Send(k, _) => k < |w.handlers| && w.handlers[k].pc.Sending?
    case Release(k) => k < |w.handlers| && w.handlers[k].pc.Releasing?
    case Persist(k, _) => k < |w.handlers| && w.handlers[k].pc.Persisting?
    case Crash(k) => k < |w.handlers|
    case _ => true
  }

  function Apply(w: World, s: Step): World {
    if !Enabled(w, s) then w
    else
      match s
      case Tick(elapsed) => w.(now := w.now + elapsed)
      case Create(contact, body, dueAt) => w.(reminders := w.reminders + [Reminder(contact, body, dueAt, Active, None)])
      case Cancel(id) => w.(reminders := CancelRow(w.reminders, id).0)
      case StartHandler(id) => w.(handlers := w.handlers + [Handler(id, Loading)])
      case Load(k) => LoadStep(w, k)
      case Claim(k) => ClaimStep(w, k)
      case Send(k, reply) => SendStep(w, k, reply)
      case Release(k) =>
        WithPc(w.(reminders := ReleaseClaim(w.reminders, w.handlers[k].reminder)), k, Ended(SendRaised))
      case Persist(k, stored) => WithPc(w, k, Ended(if stored then Delivered else PersistRaised))
      case Crash(k) => WithPc(w, k, Crashed)
  }

  function After(w: World, steps: seq<Step>): World {
    if steps == [] then w else Apply(After(w, steps[..|steps| - 1]), steps[|steps| - 1])
  }

  /** The steps of handler k with no other between. */
  function Uninterrupted(w: World, k: nat, reply: Reply, stored: bool): World
    requires k < |w.handlers| && w.handlers[k].pc.Loading?
  {
    var loaded := LoadStep(w, k);
    if !loaded.handlers[k].pc.Claiming? then loaded
    else
      var claimed := ClaimStep(loaded, k);
      if !claimed.handlers[k].pc.Sending? then claimed
      else
        var sent := SendStep(claimed, k, reply);
        Apply(sent, if sent.handlers[k].pc.Releasing? then Release(k) else Persist(k, stored))
  }

  /** The job handler as it runs, over the table it shares with every other
      session and the logs of what the provider did. */
  class ReminderHandler {
    const store: ReminderStore
    var pings: seq<Ping>
    var effects: seq<ReminderId>

    constructor (store: ReminderStore)
      ensures this.store == store && pings == [] && effects == []
    {
      this.store := store;
      pings, effects := [], [];
    }

    function State(x: Handler): World
      reads this, store
    {
      World(store.reminders, [x], pings, effects, store.now)
    }

    /** Claim, send, and record or release: the protocol's own steps in a row. */
    method RunReminderDue(id: ReminderId, reply: Reply, stored: bool) returns (outcome: Outcome)
      modifies store`reminders, this`pings, this`effects
      ensures State(Handler(id, Ended(outcome))) == Uninterrupted(old(State(Handler(id, Loading))), 0, reply, stored)
    {
      if id >= |store.reminders| || store.reminders[id].status != Active {
        return Noop;
      }
      var body := store.reminders[id].body;
      var claimed := store.ClaimReminderForSend(id);
      if !claimed {
        return AlreadyClaimed;
      }
      if reply == Accepted || reply == Lost(true) {
        effects := effects + [id];
      }
      if reply != Accepted {
        store.ReleaseReminderClaim(id);
        return SendRaised;
      }
      pings := pings + [Ping(id, FormatPing(body))];
      return if stored then Delivered else PersistRaised;
    }
  }

  // --------------------------------------------------------------- invariant

  ghost predicate Pinged(w: World, id: ReminderId) { exists i :: 0 <= i < |w.pings| && w.pings[i].reminder == id }

  /** Between its claim and the answer to its send, or its release. */
  predicate Holds(pc: Pc) { pc.Sending? || pc.Releasing? }

  ghost predicate HandlerOk(w: World, x: Handler) {
    && (x.pc.Claiming? || x.pc.Sending? ==> x.reminder < |w.reminders| && w.reminders[x.reminder].body == x.pc.body)
    && (Holds(x.pc) ==>
         x.reminder < |w.reminders| && w.reminders[x.reminder].status.Sent? && !Pinged(w, x.reminder))
  }

  ghost predicate Inv(w: World) {
    && (forall id :: 0 <= id < |w.reminders| ==> (w.reminders[id].status.Sent? <==> w.reminders[id].sentAt.Some?))
    && (forall i :: 0 <= i < |w.pings| ==>
         && w.pings[i].reminder < |w.reminders| && w.reminders[w.pings[i].reminder].status.Sent?
         && w.pings[i].text == FormatPing(w.reminders[w.pings[i].reminder].body))
    && (forall i, j :: 0 <= i < j < |w.pings| ==> w.pings[i].reminder != w.pings[j].reminder)
    && (forall k :: 0 <= k < |w.handlers| ==> HandlerOk(w, w.handlers[k]))
    && (forall k, m :: 0 <= k < m < |w.handlers| && Holds(w.handlers[k].pc) && Holds(w.handlers[m].pc) ==>
         w.handlers[k].reminder != w.handlers[m].reminder)
  }

  /** Rows keep their text; cancelled rows and pinged rows are frozen. */
  ghost predicate Extends(w: World, v: World) {
    && |w.reminders| <= |v.reminders| && w.pings <= v.pings
    && forall id :: 0 <= id < |w.reminders| ==>
         && v.reminders[id].body == w.reminders[id].body && v.reminders[id].contact == w.reminders[id].contact
         && (w.reminders[id].status.Cancelled? || Pinged(w, id) ==> v.reminders[id] == w.reminders[id])
  }

  lemma PingedStays(w: World, v: World, id: ReminderId)
    requires Pinged(w, id) && w.pings <= v.pings
    ensures Pinged(v, id)
  {
    var i :| 0 <= i < |w.pings| && w.pings[i].reminder == id;
    assert v.pings[i].reminder == id;
  }

  lemma SamePings(w: World, v: World)
    requires w.pings == v.pings
    ensures forall id :: Pinged(v, id) <==> Pinged(w, id)
  {
    forall id ensures Pinged(v, id) <==> Pinged(w, id) {
      if Pinged(w, id) { PingedStays(w, v, id); }
      if Pinged(v, id) { PingedStays(v, w, id); }
    }
  }

  lemma OnlyNewPing(w: World, v: World, id: ReminderId)
    requires w.pings <= v.pings && |v.pings| <= |w.pings| + 1
    requires |v.pings| > |w.pings| ==> v.pings[|w.pings|].reminder != id
    ensures Pinged(v, id) ==> Pinged(w, id)
  {
    forall i | 0 <= i < |v.pings| && v.pings[i].reminder == id ensures Pinged(w, id) {
      assert w.pings[i].reminder == id;
    }
  }

  /** A handler moves on without touching reminders or pings. */
  lemma PcStepKeeps(w: World, k: nat, pc: Pc, effects: seq<ReminderId>)
    requires Inv(w) && k < |w.handlers|
    requires pc.Claiming? ==>
               w.handlers[k].reminder < |w.reminders| && w.reminders[w.handlers[k].reminder].body == pc.body
    requires Holds(pc) ==> pc.Releasing? && Holds(w.handlers[k].pc)
    ensures var v := WithPc(w.(effects := effects), k, pc); Inv(v) && Extends(w, v)
  {
    var v := WithPc(w.(effects := effects), k, pc);
    SamePings(w, v);
    forall m | 0 <= m < |v.handlers| ensures HandlerOk(v, v.handlers[m]) { assert HandlerOk(w, w.handlers[m]); }
  }

  lemma HandlerStepKeeps(w: World, s: Step)
    requires Inv(w) && Enabled(w, s) && (s.Load? || s.Persist? || s.Crash? || (s.Send? && !s.reply.Accepted?))
    ensures Inv(Apply(w, s)) && Extends(w, Apply(w, s))
  {
    var v := Apply(w, s);
    PcStepKeeps(w, s.handler, v.handlers[s.handler].pc, v.effects);
  }

  /** Time, new reminders, cancels and new handlers. */
  lemma QuietStepKeeps(w: World, s: Step)
    requires Inv(w) && (s.Tick? || s.Create? || s.Cancel? || s.StartHandler?)
    ensures Inv(Apply(w, s)) && Extends(w, Apply(w, s))
  {
    var v := Apply(w, s);
    SamePings(w, v);
    forall k | 0 <= k < |v.handlers| ensures HandlerOk(v, v.handlers[k]) {
      if k < |w.handlers| { assert HandlerOk(w, w.handlers[k]); }
    }
  }

  lemma ClaimStepKeeps(w: World, k: nat)
    requires Inv(w) && Enabled(w, Claim(k))
    ensures Inv(ClaimStep(w, k)) && Extends(w, ClaimStep(w, k))
  {
    var v := ClaimStep(w, k);
    SamePings(w, v);
    assert HandlerOk(w, w.handlers[k]);
    forall m | 0 <= m < |v.handlers| ensures HandlerOk(v, v.handlers[m]) { assert HandlerOk(w, w.handlers[m]); }
  }

  lemma ReleaseStepKeeps(w: World, k: nat)
    requires Inv(w) && Enabled(w, Release(k))
    ensures Inv(Apply(w, Release(k))) && Extends(w, Apply(w, Release(k)))
  {
    var v := Apply(w, Release(k));
    SamePings(w, v);
    assert HandlerOk(w, w.handlers[k]);
    forall i | 0 <= i < |w.pings| ensures w.pings[i].reminder != w.handlers[k].reminder {}
    forall m | 0 <= m < |v.handlers| ensures HandlerOk(v, v.handlers[m]) { assert HandlerOk(w, w.handlers[m]); }
  }

  lemma AcceptedKeeps(w: World, k: nat)
    requires Inv(w) && Enabled(w, Send(k, Accepted))
    ensures Inv(SendStep(w, k, Accepted)) && Extends(w, SendStep(w, k, Accepted))
  {
    var v := SendStep(w, k, Accepted);
    var id := w.handlers[k].reminder;
    assert HandlerOk(w, w.handlers[k]);
    forall m | 0 <= m < |v.handlers| ensures HandlerOk(v, v.handlers[m]) {
      assert HandlerOk(w, w.handlers[m]);
      if Holds(v.handlers[m].pc) { OnlyNewPing(w, v, v.handlers[m].reminder); }
    }
  }

  lemma StepKeeps(w: World, s: Step)
    requires Inv(w)
    ensures Inv(Apply(w, s)) && Extends(w, Apply(w, s))
  {
    if s.Tick? || s.Create? || s.Cancel? || s.StartHandler? {
      QuietStepKeeps(w, s);
    } else if Enabled(w, s) {
      match s
      case Claim(k) => ClaimStepKeeps(w, k);
      case Release(k) => ReleaseStepKeeps(w, k);
      case Send(k, reply) => if reply.Accepted? { AcceptedKeeps(w, k); } else { HandlerStepKeeps(w, s); }
      case _ => HandlerStepKeeps(w, s);
    }
  }

  lemma {:induction false} RunKeeps(w: World, steps: seq<Step>)
    requires Inv(w)
    ensures Inv(After(w, steps)) && Extends(w, After(w, steps))
  {
    if steps != [] {
      var init := After(w, steps[..|steps| - 1]);
      RunKeeps(w, steps[..|steps| - 1]);
      StepKeeps(init, steps[|steps| - 1]);
      forall id | Pinged(w, id) ensures Pinged(init, id) { PingedStays(w, init, id); }
    }
  }

  /** Releasing a claim undoes it; a claimed reminder can be neither claimed again
      nor cancelled. */
  lemma ReleaseUndoesClaim(w: World, id: ReminderId, now: Instant)
    requires Inv(w) && ClaimForSend(w.reminders, id, now).1
    ensures var claimed := ClaimForSend(w.reminders, id, now).0;
            && ReleaseClaim(claimed, id) == w.reminders
            && !ClaimForSend(claimed, id, now).1 && !CancelRow(claimed, id).1
  {}

  // ---------------------------------------------------------------- theorems

  function PingOf(id: ReminderId): Ping -> bool { (p: Ping) => p.reminder == id }

  lemma {:induction false} CountPings(pings: seq<Ping>, id: ReminderId)
    requires forall i, j :: 0 <= i < j < |pings| ==> pings[i].reminder != pings[j].reminder
    ensures Count(pings, PingOf(id)) == if exists i :: 0 <= i < |pings| && pings[i].reminder == id then 1 else 0
  {
    if pings != [] {
      var n := |pings| - 1;
      CountPings(pings[..n], id);
      if exists i :: 0 <= i < n && pings[..n][i].reminder == id {
        var i :| 0 <= i < n && pings[..n][i].reminder == id;
        assert pings[i].reminder == id;
      } else {
        forall i | 0 <= i < n ensures pings[i].reminder != id { assert pings[..n][i] == pings[i]; }
      }
    }
  }

  /** AT MOST ONE PING per reminder, of its own text, whatever the retries,
      recoveries and cancels; none for an active or a cancelled one. */
  lemma {:induction false} AtMostOnePing(steps: seq<Step>, id: ReminderId)
    ensures var w := After(INIT, steps);
            && Count(w.pings, PingOf(id)) <= 1
            && (id < |w.reminders| && !w.reminders[id].status.Sent? ==> Count(w.pings, PingOf(id)) == 0)
            && (forall i :: 0 <= i < |w.pings| && w.pings[i].reminder == id ==>
                 id < |w.reminders| && w.pings[i].text == Text.Strip(w.reminders[id].body))
  {
    RunKeeps(INIT, steps);
    CountPings(After(INIT, steps).pings, id);
  }

  /** DELIVERY FROM END TO END, with nothing between: an active reminder is marked sent with
      its time and pinged with its text; a refused or unheard send marks it active
      again, unsent; and any other reminder is left alone. */
  lemma DeliveredExactly(w: World, k: nat, reply: Reply, stored: bool)
    requires k < |w.handlers| && w.handlers[k].pc.Loading?
    ensures var id := w.handlers[k].reminder;
            var v := Uninterrupted(w, k, reply, stored);
            var end := (outcome: Outcome) => w.handlers[k := w.handlers[k].(pc := Ended(outcome))];
            if !(id < |w.reminders| && w.reminders[id].status == Active) then v == w.(handlers := end(Noop))
            else
              var row := w.reminders[id];
              match reply
              case Accepted =>
                v == w.(reminders := w.reminders[id := row.(status := Sent, sentAt := Some(w.now))],
                        pings := w.pings + [Ping(id, Text.Strip(row.body))], effects := w.effects + [id],
                        handlers := end(if stored then Delivered else PersistRaised))
              case Refused =>
                v == w.(reminders := w.reminders[id := row.(status := Active, sentAt := None)],
                        handlers := end(SendRaised))
              case Lost(executed) =>
                v == w.(reminders := w.reminders[id := row.(status := Active, sentAt := None)],
                        effects := if executed then w.effects + [id] else w.effects, handlers := end(SendRaised))
  {
    var id := w.handlers[k].reminder;
    if id < |w.reminders| && w.reminders[id].status == Active {
      var loaded := LoadStep(w, k);
      var claimed := ClaimStep(loaded, k);
      assert claimed.handlers[k].pc == Sending(w.reminders[id].body);
      var sent := SendStep(claimed, k, reply);
      assert Uninterrupted(w, k, reply, stored)
          == Apply(sent, if sent.handlers[k].pc.Releasing? then Release(k) else Persist(k, stored));
    }
  }

  /** A cancelled reminder stays cancelled, and one that was pinged - also when
      recording it failed - is never claimed, released or pinged again. */
  lemma {:induction false} CancelledAndPingedAreFinal(steps: seq<Step>, more: seq<Step>, id: ReminderId)
    requires var w := After(INIT, steps);
             id < |w.reminders| && (w.reminders[id].status.Cancelled? || Pinged(w, id))
    ensures var w := After(INIT, steps);
            var v := After(w, more);
            && id < |v.reminders| && v.reminders[id] == w.reminders[id]
            && Count(v.pings, PingOf(id)) == if w.reminders[id].status.Cancelled? then 0 else 1
  {
    RunKeeps(INIT, steps);
    var w := After(INIT, steps);
    RunKeeps(w, more);
    var v := After(w, more);
    CountPings(v.pings, id);
    if Pinged(w, id) { PingedStays(w, v, id); }
  }

  // ----------------------------------------------------------------- effects

  function Is(id: ReminderId): ReminderId -> bool { (x: ReminderId) => x == id }

  /** The step is a send that the provider carries out although its answer is lost. */
  predicate SendsUnheard(w: World, s: Step, id: ReminderId) {
    s.Send? && s.reply == Lost(true) && Enabled(w, s) && w.handlers[s.handler].reminder == id
  }

  function UnheardSends(steps: seq<Step>, id: ReminderId): nat {
    if steps == [] then 0
    else
      var init := steps[..|steps| - 1];
      UnheardSends(init, id) + if SendsUnheard(After(INIT, init), steps[|steps| - 1], id) then 1 else 0
  }

  lemma EffectStep(w: World, s: Step, id: ReminderId)
    ensures var v := Apply(w, s);
            Count(v.effects, Is(id)) + Count(w.pings, PingOf(id))
            == Count(w.effects, Is(id)) + Count(v.pings, PingOf(id)) + if SendsUnheard(w, s, id) then 1 else 0
  {
    if Enabled(w, s) && s.Send? {
      var x := w.handlers[s.handler];
      CountAppend(w.effects, x.reminder, Is(id));
      CountAppend(w.pings, Ping(x.reminder, FormatPing(x.pc.body)), PingOf(id));
    }
  }

  /** THE PINGS THAT GO OUT ARE ACCOUNTED FOR: the provider acts for a reminder
      once for each accepted ping and once for each send it carried out unheard,
      and not otherwise. */
  lemma {:induction false} EffectsAreAccountedFor(steps: seq<Step>, id: ReminderId)
    ensures var w := After(INIT, steps);
            Count(w.effects, Is(id)) == Count(w.pings, PingOf(id)) + UnheardSends(steps, id)
  {
    if steps != [] {
      var init := steps[..|steps| - 1];
      EffectsAreAccountedFor(init, id);
      EffectStep(After(INIT, init), steps[|steps| - 1], id);
    }
  }

  /** AT MOST ONE PING GOES OUT per reminder, exactly in the runs in which no send
      for it is carried out unheard, or one is and none is accepted. */
  lemma {:induction false} AtMostOneEffect(steps: seq<Step>, id: ReminderId)
    ensures var w := After(INIT, steps);
            var unheard := UnheardSends(steps, id);
            Count(w.effects, Is(id)) <= 1
            <==> unheard == 0 || (unheard == 1 && forall i :: 0 <= i < |w.pings| ==> w.pings[i].reminder != id)
  {
    EffectsAreAccountedFor(steps, id);
    RunKeeps(INIT, steps);
    CountPings(After(INIT, steps).pings, id);
  }

  predicate OneByOne(w: World) {
    |w.effects| == |w.pings| && forall i :: 0 <= i < |w.pings| ==> w.effects[i] == w.pings[i].reminder
  }

  lemma HeardStep(w: World, s: Step)
    requires OneByOne(w) && (s.Send? ==> s.reply != Lost(true))
    ensures OneByOne(Apply(w, s))
  {}

  /** Without such sends the pings that go out are the accepted ones, one by one. */
  lemma {:induction false} HeardEffectsAreAccepted(steps: seq<Step>)
    requires forall k :: 0 <= k < |steps| && steps[k].Send? ==> steps[k].reply != Lost(true)
    ensures OneByOne(After(INIT, steps))
  {
    if steps != [] {
      HeardEffectsAreAccepted(steps[..|steps| - 1]);
      HeardStep(After(INIT, steps[..|steps| - 1]), steps[|steps| - 1]);
    }
  }

  // ------------------------------------------------------------------ limits

  /** Claimed by a handler that is gone: marked sent, but nobody will send it. */
  ghost predicate Silent(w: World, id: ReminderId) {
    && id < |w.reminders| && w.reminders[id].status.Sent? && !Pinged(w, id)
    && forall k :: 0 <= k < |w.handlers| && w.handlers[k].reminder == id ==> !Holds(w.handlers[k].pc)
  }

  lemma SilentStep(w: World, s: Step, id: ReminderId)
    requires Inv(w) && Silent(w, id)
    ensures Silent(Apply(w, s), id)
  {
    var v := Apply(w, s);
    OnlyNewPing(w, v, id);
  }

  /** AT MOST ONCE IS NOT EXACTLY ONCE: a handler that dies between claiming and
      sending leaves its reminder marked sent and never pinged, for good. */
  lemma {:induction false} SilentForGood(w: World, steps: seq<Step>, id: ReminderId)
    requires Inv(w) && Silent(w, id)
    ensures Silent(After(w, steps), id)
  {
    if steps != [] {
      var init := steps[..|steps| - 1];
      SilentForGood(w, init, id);
      RunKeeps(w, init);
      SilentStep(After(w, init), steps[|steps| - 1], id);
    }
  }

  /** Some steps get the reminder pinged, or take it back. */
  ghost predicate Moves(w: World, id: ReminderId) {
    exists more: seq<Step> :: MovedBy(w, more, id)
  }

  ghost predicate MovedBy(w: World, more: seq<Step>, id: ReminderId) {
    var v := After(w, more);
    Pinged(v, id) || (id < |v.reminders| && !v.reminders[id].status.Sent?)
  }

  lemma HolderMoves(w: World, k: nat)
    requires Inv(w) && k < |w.handlers| && Holds(w.handlers[k].pc)
    ensures Moves(w, w.handlers[k].reminder)
  {
    var id := w.handlers[k].reminder;
    var s := if w.handlers[k].pc.Sending? then Send(k, Accepted) else Release(k);
    assert HandlerOk(w, w.handlers[k]);
    AfterAppend(w, [], s);
    var v := Apply(w, s);
    if s.Send? { assert v.pings[|w.pings|].reminder == id; }
    assert MovedBy(w, [] + [s], id);
  }

  /** A reminder marked sent and not pinged can still be pinged or taken back
      exactly when some handler holds it. */
  lemma {:induction false} SilentExactly(steps: seq<Step>, id: ReminderId)
    requires var w := After(INIT, steps); id < |w.reminders| && w.reminders[id].status.Sent? && !Pinged(w, id)
    ensures Moves(After(INIT, steps), id) <==> !Silent(After(INIT, steps), id)
  {
    RunKeeps(INIT, steps);
    var w := After(INIT, steps);
    if Silent(w, id) {
      forall more: seq<Step> ensures !MovedBy(w, more, id) { SilentForGood(w, more, id); }
    } else {
      var k :| 0 <= k < |w.handlers| && w.handlers[k].reminder == id && Holds(w.handlers[k].pc);
      HolderMoves(w, k);
    }
  }

  lemma ClaimedThenGone()
    ensures var u := Apply(Apply(Apply(Apply(INIT, Create(7, "ping", 0)), StartHandler(0)), Load(0)), Claim(0));
            Silent(Apply(u, Crash(0)), 0)
  {}

  /** Such a reminder is five steps away. */
  lemma SilentIsReachable()
    ensures Silent(After(INIT, [Create(7, "ping", 0)] + [StartHandler(0)] + [Load(0)] + [Claim(0)] + [Crash(0)]), 0)
  {
    var created := [Create(7, "ping", 0)];
    assert created == [] + created;
    AfterAppend(INIT, [], created[0]);
    AfterThree(INIT, created, StartHandler(0), Load(0), Claim(0));
    AfterAppend(INIT, created + [StartHandler(0)] + [Load(0)] + [Claim(0)], Crash(0));
    ClaimedThenGone();
  }

  /** One handler whose send was carried out but whose answer was lost. */
  function LostOnce(steps: seq<Step>, k: nat): seq<Step> {
    steps + [StartHandler(0)] + [Load(k)] + [Claim(k)] + [Send(k, Lost(true))] + [Release(k)]
  }

  function LostRounds(n: nat): seq<Step> {
    if n == 0 then [Create(7, "ping", 0)] else LostOnce(LostRounds(n - 1), n - 1)
  }

  predicate Repeated(w: World, n: nat) {
    && w.reminders == [Reminder(7, "ping", 0, Active, None)] && |w.handlers| == n && w.pings == []
    && |w.effects| == n && forall i :: 0 <= i < n ==> w.effects[i] == 0
  }

  lemma {:induction false} AfterAppend(w: World, steps: seq<Step>, s: Step)
    ensures After(w, steps + [s]) == Apply(After(w, steps), s)
  {
    assert (steps + [s])[..|steps|] == steps;
  }

  lemma LostRound(w: World, n: nat)
    requires Repeated(w, n)
    ensures var u := Apply(Apply(Apply(w, StartHandler(0)), Load(n)), Claim(n));
            Repeated(Apply(Apply(u, Send(n, Lost(true))), Release(n)), n + 1)
  {
    var u := Apply(Apply(Apply(w, StartHandler(0)), Load(n)), Claim(n));
    assert u.handlers[n] == Handler(0, Sending("ping"));
  }

  lemma {:induction false} AfterThree(w: World, steps: seq<Step>, s: Step, t: Step, u: Step)
    ensures After(w, steps + [s] + [t] + [u]) == Apply(Apply(Apply(After(w, steps), s), t), u)
  {
    AfterAppend(w, steps, s);
    AfterAppend(w, steps + [s], t);
    AfterAppend(w, steps + [s] + [t], u);
  }

  lemma NextRound(s: seq<Step>, k: nat)
    requires Repeated(After(INIT, s), k)
    ensures Repeated(After(INIT, LostOnce(s, k)), k + 1)
  {
    var claimed := s + [StartHandler(0)] + [Load(k)] + [Claim(k)];
    AfterThree(INIT, s, StartHandler(0), Load(k), Claim(k));
    AfterAppend(INIT, claimed, Send(k, Lost(true)));
    AfterAppend(INIT, claimed + [Send(k, Lost(true))], Release(k));
    LostRound(After(INIT, s), k);
  }

  /** LOST ANSWERS REPEAT THE PING: for every n some run makes the provider act n
      times for one reminder, which is still active. */
  lemma {:induction false} LostAnswersRepeat(n: nat)
    ensures Repeated(After(INIT, LostRounds(n)), n)
  {
    if n == 0 {
      AfterAppend(INIT, [], Create(7, "ping", 0));
      assert LostRounds(0) == [] + [Create(7, "ping", 0)];
    } else {
      LostAnswersRepeat(n - 1);
      NextRound(LostRounds(n - 1), n - 1);
    }
  }
}
