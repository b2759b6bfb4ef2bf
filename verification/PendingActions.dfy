/** Two-phase sensitive writes: the `pending_action` table (app/db/integrations.py)
    and the confirmation services that claim a staged action, call the provider
    and settle it (app/services/calendar_confirmation.py, email_confirmation.py). */
module PendingActions {
  import opened Wrappers
  import opened Table
  import Calendar

  type ActionId = nat
  type ContactId = nat
  type Instant = int

  const PENDING_ACTION_TTL: nat := 15 * 60 * 1_000_000
  const MAX_DRAFT_ID: nat := 256
  const MAX_SUBJECT: nat := 300

  datatype Kind = SendEmail | CreateEvent

  datatype Status = Pending | Claimed | Executed | Cancelled | Expired | Failed

  datatype Payload =
    | DraftPayload(draft: string, to: string, subject: string)
    | EventPayload(event: Calendar.Payload)
  {
    function Kind(): Kind { if DraftPayload? then SendEmail else CreateEvent }
  }

  /** The hash of a normalized payload, idealised as collision-free. */
  datatype Digest = Digest(normalized: Payload)

  function PayloadHash(p: Payload): Digest { Digest(p) }

  type RunId = nat
  type TurnRef = nat

  /** The two kinds of id the turn columns are compared over: staging stores the
      id of an execution run, confirming passes the id of an inbound message. */
  datatype TurnId = ExecutionTurn(run: RunId) | InboundTurn(message: string)

  /** `source` is the Interaction turn whose dispatch started the staging run. */
  datatype Action = Action(
    contact: ContactId, kind: Kind, payload: Payload, hash: Digest, status: Status,
    createdTurn: Option<TurnId>, source: Option<TurnRef>, createdAt: Instant, expiresAt: Instant)

  predicate Live(s: Status) { s.Pending? || s.Claimed? }

  function LiveOf(contact: ContactId, kind: Kind): Action -> bool {
    (x: Action) => x.contact == contact && x.kind == kind && Live(x.status)
  }

  function Cancel(): Action -> Action { (x: Action) => x.(status := Status.Cancelled) }

  /** Who staged an action: its turn column and its source column. */
  datatype Origin = Origin(turn: Option<TurnId>, source: Option<TurnRef>)

  function NewAction(contact: ContactId, payload: Payload, origin: Origin, now: Instant): Action {
    Action(contact, payload.Kind(), payload, PayloadHash(payload), Status.Pending,
           origin.turn, origin.source, now, now + PENDING_ACTION_TTL)
  }

  /** A new proposal cancels the live one of its kind, even one being executed. */
  function Stage(rows: seq<Action>, contact: ContactId, payload: Payload, origin: Origin, now: Instant): seq<Action> {
    UpdateWhere(rows, LiveOf(contact, payload.Kind()), Cancel()) + [NewAction(contact, payload, origin, now)]
  }

  predicate Listed(x: Action, contact: ContactId, now: Instant) {
    x.contact == contact && x.status.Pending? && x.expiresAt > now
  }

  /** What a claim matches: listed, of its kind, from another turn, and the
      given id and hash. */
  predicate Candidate(
    x: Action, contact: ContactId, kind: Kind, turn: TurnId, hash: Option<Digest>, now: Instant)
  {
    Listed(x, contact, now) && x.kind == kind && x.createdTurn != Some(turn) && (hash.Some? ==> x.hash == hash.value)
  }

  /** The newest candidate, of the given id if one is given. */
  function NewestCandidate(
    rows: seq<Action>, id: Option<ActionId>, contact: ContactId, kind: Kind, turn: TurnId, hash: Option<Digest>,
    now: Instant)
    : (r: Option<ActionId>)
    ensures r.Some? ==>
              && r.value < |rows| && Candidate(rows[r.value], contact, kind, turn, hash, now)
              && (id.Some? ==> r == id)
    ensures r.Some? && id.None? ==>
              forall i :: r.value < i < |rows| ==> !Candidate(rows[i], contact, kind, turn, hash, now)
    ensures r.None? ==>
              forall i :: 0 <= i < |rows| && (id.Some? ==> i == id.value) ==>
                !Candidate(rows[i], contact, kind, turn, hash, now)
  {
    if rows == [] then None
    else
      var n := |rows| - 1;
      if Candidate(rows[n], contact, kind, turn, hash, now) && (id.Some? ==> n == id.value) then Some(n)
      else NewestCandidate(rows[..n], id, contact, kind, turn, hash, now)
  }

  function WithStatus(rows: seq<Action>, id: ActionId, from: Status, to: Status): seq<Action> {
    if id < |rows| && rows[id].status == from then rows[id := rows[id].(status := to)] else rows
  }

  /** The claim of one selected action; the flag says whether a row matched. */
  function Claim(
    rows: seq<Action>, id: ActionId, contact: ContactId, kind: Kind, turn: TurnId, hash: Digest, now: Instant)
    : (seq<Action>, bool)
  {
    if id < |rows| && Candidate(rows[id], contact, kind, turn, Some(hash), now) then
      (WithStatus(rows, id, Status.Pending, Status.Claimed), true)
    else (rows, false)
  }

  function Discard(rows: seq<Action>, id: ActionId): seq<Action> {
    WithStatus(rows, id, Status.Claimed, Status.Executed)
  }

  function Release(rows: seq<Action>, id: ActionId): seq<Action> {
    WithStatus(rows, id, Status.Claimed, Status.Pending)
  }

  function Fail(rows: seq<Action>, id: ActionId): seq<Action> { WithStatus(rows, id, Status.Claimed, Status.Failed) }

  function DueAt(now: Instant): Action -> bool { (x: Action) => x.status.Pending? && x.expiresAt <= now }

  function ExpireRow(): Action -> Action { (x: Action) => x.(status := Status.Expired) }

  function Expire(rows: seq<Action>, now: Instant): seq<Action> { UpdateWhere(rows, DueAt(now), ExpireRow()) }

  // ------------------------------------------------- what the contracts speak of

  /** A pending action of the contact that is not past its deadline. */
  predicate Unexpired(rows: seq<Action>, i: ActionId, contact: ContactId, now: Instant) {
    i < |rows| && rows[i].contact == contact && rows[i].status == Status.Pending && now < rows[i].expiresAt
  }

  /** Unexpired, of the kind, staged under another turn id, with the id and hash if given. */
  predicate Claimable(
    rows: seq<Action>, i: ActionId, contact: ContactId, kind: Kind, turn: TurnId, id: Option<ActionId>,
    hash: Option<Digest>, now: Instant)
  {
    && Unexpired(rows, i, contact, now) && rows[i].kind == kind && rows[i].createdTurn != Some(turn)
    && (id.Some? ==> i == id.value) && (hash.Some? ==> rows[i].hash == hash.value)
  }

  /** Only the one row changes, from the one status to the other, if it has it. */
  predicate Moved(before: seq<Action>, after: seq<Action>, id: ActionId, from: Status, to: Status) {
    if id < |before| && before[id].status == from then after == before[id := before[id].(status := to)]
    else after == before
  }

  ghost function Lapsed(rows: seq<Action>, now: Instant): set<ActionId> {
    set i: ActionId | i < |rows| && rows[i].status == Status.Pending && rows[i].expiresAt <= now
  }

  /** The listed ids are those of the unexpired rows, newest first. */
  ghost predicate ListsExactly(ids: seq<ActionId>, rows: seq<Action>, contact: ContactId, now: Instant) {
    && (forall i: ActionId :: i in ids <==> Unexpired(rows, i, contact, now))
    && (forall j, k :: 0 <= j < k < |ids| ==> ids[j] > ids[k])
  }

  lemma OneMoreListed(rows: seq<Action>, rest: seq<ActionId>, contact: ContactId, now: Instant)
    requires rows != [] && ListsExactly(rest, rows[..|rows| - 1], contact, now)
    ensures var n := |rows| - 1;
            ListsExactly(if Unexpired(rows, n, contact, now) then [n] + rest else rest, rows, contact, now)
  {
    var n := |rows| - 1;
    var ids := if Unexpired(rows, n, contact, now) then [n] + rest else rest;
    forall i: ActionId ensures i in ids <==> Unexpired(rows, i, contact, now) {
      assert i in rest <==> Unexpired(rows[..n], i, contact, now);
      if i < n { assert rows[..n][i] == rows[i]; }
    }
    forall k | 0 <= k < |rest| ensures rest[k] < n {
      assert rest[k] in rest && Unexpired(rows[..n], rest[k], contact, now);
    }
  }

  lemma {:induction false} ListedAre(rows: seq<Action>, contact: ContactId, now: Instant)
    ensures ListsExactly(ListedIds(rows, contact, now), rows, contact, now)
  {
    if rows != [] {
      var n := |rows| - 1;
      var rest := ListedIds(rows[..n], contact, now);
      ListedAre(rows[..n], contact, now);
      OneMoreListed(rows, rest, contact, now);
      assert ListedIds(rows, contact, now) == if Unexpired(rows, n, contact, now) then [n] + rest else rest;
    }
  }

  class ActionStore {
    var actions: seq<Action>
    var now: Instant

    method CreatePendingAction(contact: ContactId, payload: Payload, origin: Origin) returns (id: ActionId)
      modifies this`actions
      ensures actions == Stage(old(actions), contact, payload, origin, now)
      ensures id == |old(actions)| && |actions| == id + 1
      ensures var kind := if payload.DraftPayload? then SendEmail else CreateEvent;
              && (forall i :: 0 <= i < id ==>
                   var row := old(actions)[i];
                   if row.contact == contact && row.kind == kind && row.status in {Status.Pending, Status.Claimed} then
                     actions[i] == row.(status := Status.Cancelled)
                   else actions[i] == row)
              && actions[id] == Action(contact, kind, payload, Digest(payload), Status.Pending,
                                       origin.turn, origin.source, now, now + 15 * 60 * 1_000_000)
    {
      actions := UpdateWhere(actions, LiveOf(contact, payload.Kind()), Cancel());
      id := |actions|;
      actions := actions + [NewAction(contact, payload, origin, now)];
    }

    /** The newest pending action that matches every filter given becomes claimed,
        and is returned; nothing happens when there is none. */
    method ClaimPendingAction(
      contact: ContactId, kind: Kind, turn: TurnId, id: Option<ActionId>, hash: Option<Digest>)
      returns (claimed: Option<ActionId>)
      modifies this`actions
      ensures claimed == NewestCandidate(old(actions), id, contact, kind, turn, hash, now)
      ensures claimed.Some? ==>
                claimed.value < |old(actions)|
                && actions == old(actions)[claimed.value := old(actions)[claimed.value].(status := Status.Claimed)]
      ensures claimed.None? ==> actions == old(actions)
      ensures forall i: ActionId :: claimed == Some(i) ==>
                && Claimable(old(actions), i, contact, kind, turn, id, hash, now)
                && forall j :: i < j < |old(actions)| ==>
                     !Claimable(old(actions), j, contact, kind, turn, id, hash, now)
      ensures claimed.None? ==>
                forall i: ActionId :: !Claimable(old(actions), i, contact, kind, turn, id, hash, now)
      ensures id.Some? && hash.Some? ==>
                (actions, claimed.Some?) == Claim(old(actions), id.value, contact, kind, turn, hash.value, now)
    {
      claimed := NewestCandidate(actions, id, contact, kind, turn, hash, now);
      if claimed.Some? {
        actions := actions[claimed.value := actions[claimed.value].(status := Status.Claimed)];
      }
    }

    /** Newest first, as the confirmation services read them. */
    method ListPendingActions(contact: ContactId) returns (ids: seq<ActionId>)
      ensures ids == ListedIds(actions, contact, now)
      ensures ListsExactly(ids, actions, contact, now)
    {
      ids := [];
      for i := 0 to |actions|
        invariant ids == ListedIds(actions[..i], contact, now)
      {
        assert actions[..i + 1][..i] == actions[..i];
        if Listed(actions[i], contact, now) {
          ids := [i] + ids;
        }
      }
      assert actions[..|actions|] == actions;
      ListedAre(actions, contact, now);
    }

    method DiscardPendingAction(id: ActionId)
      modifies this`actions
      ensures actions == Discard(old(actions), id)
      ensures Moved(old(actions), actions, id, Status.Claimed, Status.Executed)
    {
      if id < |actions| && actions[id].status == Status.Claimed {
        actions := actions[id := actions[id].(status := Status.Executed)];
      }
    }

    method ReleasePendingAction(id: ActionId)
      modifies this`actions
      ensures actions == Release(old(actions), id)
      ensures Moved(old(actions), actions, id, Status.Claimed, Status.Pending)
    {
      if id < |actions| && actions[id].status == Status.Claimed {
        actions := actions[id := actions[id].(status := Status.Pending)];
      }
    }

    method FailPendingAction(id: ActionId)
      modifies this`actions
      ensures actions == Fail(old(actions), id)
      ensures Moved(old(actions), actions, id, Status.Claimed, Status.Failed)
    {
      if id < |actions| && actions[id].status == Status.Claimed {
        actions := actions[id := actions[id].(status := Status.Failed)];
      }
    }

    method ExpirePendingActions() returns (count: nat)
      modifies this`actions
      ensures actions == Expire(old(actions), now)
      ensures |actions| == |old(actions)|
      ensures forall i: ActionId :: i < |actions| ==>
                actions[i] == if i in Lapsed(old(actions), now) then old(actions)[i].(status := Status.Expired)
                              else old(actions)[i]
      ensures count == |Lapsed(old(actions), now)|
    {
      count := Count(actions, DueAt(now));
      CountIsCardinality(actions, DueAt(now));
      assert Lapsed(actions, now) == Matching(actions, DueAt(now));
      actions := UpdateWhere(actions, DueAt(now), ExpireRow());
    }
  }

  /** A freshly staged action can be claimed exactly under another turn id before
      its deadline; releasing a claim undoes it, and nothing else reopens one. */
  lemma FreshlyStaged(
    rows: seq<Action>, contact: ContactId, payload: Payload, origin: Origin, now: Instant, other: TurnId,
    later: Instant)
    ensures var staged := Stage(rows, contact, payload, origin, now);
            var (after, claimed) := Claim(staged, |rows|, contact, payload.Kind(), other, PayloadHash(payload), later);
            && (claimed <==> Some(other) != origin.turn && later < now + 15 * 60 * 1_000_000)
            && (claimed ==> Release(after, |rows|) == staged)
            && (claimed ==> !Claim(after, |rows|, contact, payload.Kind(), other, PayloadHash(payload), later).1)
            && Discard(staged, |rows|) == Fail(staged, |rows|) == staged
  {
    var staged := Stage(rows, contact, payload, origin, now);
    assert staged[|rows|] == NewAction(contact, payload, origin, now);
  }

  // -------------------------------------------------------------- selection

  function ListedIds(rows: seq<Action>, contact: ContactId, now: Instant): (ids: seq<ActionId>)
    ensures forall k :: 0 <= k < |ids| ==> ids[k] < |rows| && Listed(rows[ids[k]], contact, now)
  {
    if rows == [] then []
    else
      var n := |rows| - 1;
      (if Listed(rows[n], contact, now) then [n] else []) + ListedIds(rows[..n], contact, now)
  }

  function OfKind(kind: Kind, rows: seq<Action>): ActionId -> bool {
    (i: ActionId) => i < |rows| && rows[i].kind == kind
  }

  /** The listed action that a confirmation means: the named one, or the only
      one of its kind. */
  function Select(rows: seq<Action>, listed: seq<ActionId>, kind: Kind, wanted: Option<ActionId>): (r: Option<ActionId>)
    requires forall k :: 0 <= k < |listed| ==> listed[k] < |rows|
    ensures r.Some? ==> r.value in listed && rows[r.value].kind == kind
  {
    if wanted.Some? then
      if wanted.value in listed && rows[wanted.value].kind == kind then wanted else None
    else if Count(listed, OfKind(kind, rows)) == 1 then
      CountedIsFound(listed, OfKind(kind, rows));
      Some(listed[FindLast(listed, OfKind(kind, rows)).value])
    else None
  }

  datatype Choice = Chosen(id: ActionId) | Nothing | Ambiguous

  /** The two services differ when nothing is selected: the calendar one counts
      its own kind, the email one any listed action. */
  function Choose(
    rows: seq<Action>, contact: ContactId, kind: Kind, wanted: Option<ActionId>, now: Instant): (c: Choice)
    ensures c.Chosen? ==> c.id < |rows|
  {
    var listed := ListedIds(rows, contact, now);
    var selected := Select(rows, listed, kind, wanted);
    if selected.Some? then
      assert exists k :: 0 <= k < |listed| && listed[k] == selected.value;
      Chosen(selected.value)
    else if kind.CreateEvent? then
      if wanted.None? && Count(listed, OfKind(kind, rows)) > 1 then Ambiguous else Nothing
    else if listed == [] then Nothing
    else Ambiguous
  }
}
