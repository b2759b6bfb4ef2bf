/** The `execution_run` and `execution_event` tables and their guarded row
    transitions (app/db/executions.py). Each function is one statement, or one
    locked session block, on the two tables; the class performs it in place. */
module Executions {
  import opened Wrappers
  import opened Table
  import Text

  type RunId = nat
  type EventId = nat
  type ContactId = nat
  type Instant = int  // microseconds since the epoch, UTC

  datatype Status =
    | Pending | Running | CancelRequested
    | Succeeded | Failed | TimedOut | Cancelled | Abandoned
  {
    function Name(): string {
      match this
      case Pending => "pending"
      case Running => "running"
      case CancelRequested => "cancel_requested"
      case Succeeded => "succeeded"
      case Failed => "failed"
      case TimedOut => "timed_out"
      case Cancelled => "cancelled"
      case Abandoned => "abandoned"
    }
  }

  predicate Active(s: Status) { s.Pending? || s.Running? || s.CancelRequested? }

  predicate Terminal(s: Status) { !Active(s) }

  /** A conversation goal is keyed by a digest of its text and toolkits, a
      scheduled one by its automation and the whole second of its occurrence. */
  datatype DedupeKey = Goal(digest: string) | Occurrence(automation: nat, second: int)

  datatype RunResult = RunResult(summary: string, outcome: string)

  datatype Run = Run(
    contact: ContactId,
    goal: string,
    scope: set<string>,
    key: DedupeKey,
    status: Status,
    result: Option<RunResult>,
    error: Option<string>,
    cancelRequested: bool,
    startedAt: Option<Instant>,
    finishedAt: Option<Instant>)

  datatype Event = Event(
    contact: ContactId,
    run: RunId,
    kind: string,
    goal: string,
    status: Status,
    result: Option<RunResult>,
    error: Option<string>,
    processedAt: Option<Instant>)

  datatype Db = Db(runs: seq<Run>, events: seq<Event>, now: Instant)

  const MAX_ACTIVE_RUNS: nat := 2

  function ActiveOf(contact: ContactId): Run -> bool {
    (r: Run) => r.contact == contact && Active(r.status)
  }

  function ActiveWithKey(contact: ContactId, key: DedupeKey): Run -> bool {
    (r: Run) => r.contact == contact && r.key == key && Active(r.status)
  }

  function WithKey(contact: ContactId, key: DedupeKey): Run -> bool {
    (r: Run) => r.contact == contact && r.key == key
  }

  function NewRun(contact: ContactId, goal: string, scope: set<string>, key: DedupeKey): Run {
    Run(contact, goal, scope, key, Pending, None, None, false, None, None)
  }

  /** The contact-locked block: the newest active duplicate, else a new row
      when capacity permits, else nothing. */
  function CreateOrGet(db: Db, contact: ContactId, goal: string, scope: set<string>, key: DedupeKey)
    : (Db, Option<RunId>, bool)
  {
    var existing := FindLast(db.runs, ActiveWithKey(contact, key));
    if existing.Some? then (db, existing, false)
    else if Count(db.runs, ActiveOf(contact)) >= MAX_ACTIVE_RUNS then (db, None, false)
    else (db.(runs := db.runs + [NewRun(contact, goal, scope, key)]), Some(|db.runs|), true)
  }

  predicate Owns(db: Db, id: RunId, contact: ContactId) {
    id < |db.runs| && db.runs[id].contact == contact
  }

  predicate Reclaimable(s: Status) { s.Running? || s.CancelRequested? }

  function Reclaim(db: Db, id: RunId, contact: ContactId): (Db, bool) {
    if Owns(db, id, contact) && Reclaimable(db.runs[id].status) then
      (db.(runs := db.runs[id := db.runs[id].(status := Pending, startedAt := None, cancelRequested := false)]), true)
    else (db, false)
  }

  function Claim(db: Db, id: RunId, contact: ContactId): (Db, bool) {
    if Owns(db, id, contact) && db.runs[id].status.Pending? && !db.runs[id].cancelRequested then
      (db.(runs := db.runs[id := db.runs[id].(status := Running, startedAt := Some(db.now))]), true)
    else (db, false)
  }

  function Finish(
    db: Db, id: RunId, contact: ContactId, status: Status, result: Option<RunResult>, error: Option<string>)
    : (Db, bool)
    requires Terminal(status)
  {
    if Owns(db, id, contact) && Active(db.runs[id].status) then
      (db.(runs := db.runs[id := db.runs[id].(
        status := status, result := result, error := error, finishedAt := Some(db.now))]), true)
    else (db, false)
  }

  function RequestCancel(db: Db, id: RunId, contact: ContactId): (Db, bool) {
    if Owns(db, id, contact) && (db.runs[id].status.Pending? || db.runs[id].status.Running?) then
      (db.(runs := db.runs[id := db.runs[id].(cancelRequested := true, status := CancelRequested)]), true)
    else (db, false)
  }

  const MAX_EVENT_GOAL: nat := 240

  /** The terminal event of a run: its kind names the status, its payload carries
      the shortened goal and what the row was ended with. */
  function NewEvent(
    contact: ContactId, run: RunId, goal: string, status: Status, result: Option<RunResult>,
    error: Option<string>): Event
  {
    Event(contact, run, "execution." + status.Name(), Text.Compact(goal, MAX_EVENT_GOAL), status, result, error, None)
  }

  function AppendEvent(db: Db, e: Event): Db { db.(events := db.events + [e]) }

  function MarkProcessed(db: Db, e: EventId, contact: ContactId): (Db, bool) {
    if e < |db.events| && db.events[e].contact == contact && db.events[e].processedAt.None? then
      (db.(events := db.events[e := db.events[e].(processedAt := Some(db.now))]), true)
    else (db, false)
  }

  /** What startup cleanup selects: work that started before the cutoff. */
  function StaleAt(cutoff: Instant): Run -> bool {
    (r: Run) => Reclaimable(r.status) && r.startedAt.Some? && r.startedAt.value < cutoff
  }

  function AbandonAt(now: Instant): Run -> Run {
    (r: Run) => r.(status := Abandoned, finishedAt := Some(now))
  }

  function AbandonStale(db: Db, olderThan: Instant): Db {
    db.(runs := UpdateWhere(db.runs, StaleAt(db.now - olderThan), AbandonAt(db.now)))
  }

  function FinishBlock(
    db: Db, id: RunId, contact: ContactId, goal: string, status: Status, result: Option<RunResult>,
    error: Option<string>)
    : (Db, Option<EventId>)
    requires Terminal(status)
  {
    var (finished, changed) := Finish(db, id, contact, status, result, error);
    if changed then
      (AppendEvent(finished, NewEvent(contact, id, goal, status, result, error)), Some(|db.events|))
    else (db, None)
  }

  function ScheduledBlock(db: Db, contact: ContactId, goal: string, scope: set<string>, key: DedupeKey)
    : (Db, Option<RunId>)
  {
    var existing := FindLast(db.runs, WithKey(contact, key));
    if existing.Some? then (Reclaim(db, existing.value, contact).0, existing)
    else
      var (created, run, _) := CreateOrGet(db, contact, goal, scope, key);
      (created, run)
  }

  /** Rows are inserted and updated, never deleted or given to someone else. */
  predicate Evolves(before: seq<Run>, after: seq<Run>) {
    && |before| <= |after|
    && forall r :: 0 <= r < |before| ==> after[r].contact == before[r].contact && after[r].key == before[r].key
  }

  /** The same block when others commit between its lookup and what follows: a
      run taken by another worker in between is left alone and counts as busy. */
  function RacingBlock(
    before: Db, between: Db, contact: ContactId, goal: string, scope: set<string>, key: DedupeKey): (Db, Option<RunId>)
  {
    var existing := FindLast(before.runs, WithKey(contact, key));
    if existing.Some? && Reclaimable(before.runs[existing.value].status) then
      var (reclaimed, changed) := Reclaim(between, existing.value, contact);
      (reclaimed, if changed then existing else None)
    else if existing.Some? then (between, existing)
    else
      var (created, run, _) := CreateOrGet(between, contact, goal, scope, key);
      (created, run)
  }

  // ------------------------------------------------- what the contracts speak of

  /** The rows of the contact that are pending, running or being cancelled. */
  ghost function InFlight(runs: seq<Run>, contact: ContactId): set<RunId> {
    set r: RunId | r < |runs| && runs[r].contact == contact && runs[r].status in {Pending, Running, CancelRequested}
  }

  ghost predicate HasActive(runs: seq<Run>, contact: ContactId, key: DedupeKey) {
    exists r :: r in InFlight(runs, contact) && runs[r].key == key
  }

  /** Started work older than the cutoff, running or being cancelled. */
  ghost function Overdue(runs: seq<Run>, cutoff: Instant): set<RunId> {
    set r: RunId | r < |runs| && runs[r].status in {Running, CancelRequested}
                   && runs[r].startedAt.Some? && runs[r].startedAt.value < cutoff
  }

  /** Exactly the overdue rows are abandoned, and nothing else about them changes. */
  ghost predicate OverdueAbandoned(before: seq<Run>, after: seq<Run>, cutoff: Instant, now: Instant) {
    && |after| == |before|
    && forall r: RunId :: r < |before| ==>
         after[r] == if r in Overdue(before, cutoff) then before[r].(status := Abandoned, finishedAt := Some(now))
                     else before[r]
  }

  /** The newest row under the key, in any status. */
  ghost predicate Newest(runs: seq<Run>, contact: ContactId, key: DedupeKey, r: RunId) {
    && r < |runs| && runs[r].contact == contact && runs[r].key == key
    && forall j :: r < j < |runs| ==> runs[j].contact != contact || runs[j].key != key
  }

  /** The event written with a terminal row. */
  ghost predicate Reports(
    e: Event, contact: ContactId, run: RunId, goal: string, status: Status, result: Option<RunResult>,
    error: Option<string>)
  {
    && e.contact == contact && e.run == run && e.goal == Text.Compact(goal, 240) && e.status == status
    && e.result == result && e.error == error && e.processedAt.None?
    && (status.Succeeded? ==> e.kind == "execution.succeeded") && (status.Failed? ==> e.kind == "execution.failed")
    && (status.TimedOut? ==> e.kind == "execution.timed_out") && (status.Cancelled? ==> e.kind == "execution.cancelled")
    && (status.Abandoned? ==> e.kind == "execution.abandoned")
  }

  datatype FinishReply = NotTerminal | Finished(changed: bool)

  lemma NewEventReports(
    contact: ContactId, run: RunId, goal: string, status: Status, result: Option<RunResult>, error: Option<string>)
    requires Terminal(status)
    ensures Reports(
              NewEvent(contact, run, goal, status, result, error), contact, run, goal, status, result, error)
  {}

  class ExecutionStore {
    var runs: seq<Run>
    var events: seq<Event>
    var now: Instant

    function Tables(): Db reads this { Db(runs, events, now) }

    method CreateOrGetExecutionRun(contact: ContactId, goal: string, scope: set<string>, key: DedupeKey)
      returns (run: Option<RunId>, created: bool)
      modifies this`runs
      ensures (Tables(), run, created) == CreateOrGet(old(Tables()), contact, goal, scope, key)
      ensures run.Some? ==> run.value < |runs| && ActiveWithKey(contact, key)(runs[run.value])
      ensures created <==> !HasActive(old(runs), contact, key) && |InFlight(old(runs), contact)| < 2
      ensures created ==>
                run == Some(|old(runs)|)
                && runs == old(runs) + [Run(contact, goal, scope, key, Pending, None, None, false, None, None)]
      ensures !created ==> runs == old(runs) && (run.Some? <==> HasActive(old(runs), contact, key))
      ensures !created && run.Some? ==>
                forall j :: run.value < j < |runs| && runs[j].contact == contact && runs[j].key == key ==>
                  runs[j].status !in {Pending, Running, CancelRequested}
    {
      var existing := FindLast(runs, ActiveWithKey(contact, key));
      CountIsCardinality(runs, ActiveOf(contact));
      assert InFlight(runs, contact) == Matching(runs, ActiveOf(contact));
      if existing.Some? {
        return existing, false;
      }
      var active := CountActiveExecutionRuns(contact);
      if active >= MAX_ACTIVE_RUNS {
        return None, false;
      }
      runs := runs + [NewRun(contact, goal, scope, key)];
      return Some(|runs| - 1), true;
    }

    /** How many rows of the table are active runs of the contact. */
    method CountActiveExecutionRuns(contact: ContactId) returns (n: nat)
      ensures n == |InFlight(runs, contact)|
    {
      n := Count(runs, ActiveOf(contact));
      CountIsCardinality(runs, ActiveOf(contact));
      assert InFlight(runs, contact) == Matching(runs, ActiveOf(contact));
    }

    method GetExecutionRunByDedupe(contact: ContactId, key: DedupeKey) returns (run: Option<RunId>)
      ensures run.Some? ==> Newest(runs, contact, key, run.value)
      ensures run.None? ==> forall j :: 0 <= j < |runs| ==> runs[j].contact != contact || runs[j].key != key
    {
      run := FindLast(runs, WithKey(contact, key));
    }

    method ReclaimExecutionRunForRetry(id: RunId, contact: ContactId) returns (changed: bool)
      modifies this`runs
      ensures (Tables(), changed) == Reclaim(old(Tables()), id, contact)
      ensures changed <==>
                && id < |old(runs)| && old(runs)[id].contact == contact
                && old(runs)[id].status in {Running, CancelRequested}
      ensures changed ==>
                runs == old(runs)[id := old(runs)[id].(status := Pending, startedAt := None, cancelRequested := false)]
      ensures !changed ==> runs == old(runs)
    {
      changed := id < |runs| && runs[id].contact == contact && runs[id].status in {Running, CancelRequested};
      if changed {
        var row := runs[id].(status := Pending, startedAt := None);
        runs := runs[id := row.(cancelRequested := false)];
      }
    }

    method ClaimExecutionRun(id: RunId, contact: ContactId) returns (changed: bool)
      modifies this`runs
      ensures (Tables(), changed) == Claim(old(Tables()), id, contact)
      ensures changed <==>
                && id < |old(runs)| && old(runs)[id].contact == contact
                && old(runs)[id].status == Pending && !old(runs)[id].cancelRequested
      ensures changed ==> runs == old(runs)[id := old(runs)[id].(status := Running, startedAt := Some(now))]
      ensures !changed ==> runs == old(runs)
    {
      changed := id < |runs| && runs[id].contact == contact && runs[id].status == Pending && !runs[id].cancelRequested;
      if changed {
        runs := runs[id := runs[id].(status := Running, startedAt := Some(now))];
      }
    }

    /** A non-terminal target status is refused before any row is touched. */
    method FinishExecutionRun(
      id: RunId, contact: ContactId, status: Status, result: Option<RunResult>, error: Option<string>)
      returns (reply: FinishReply)
      modifies this`runs
      ensures Active(status) ==> reply == NotTerminal && Tables() == old(Tables())
      ensures Terminal(status) ==>
        var (db, changed) := Finish(old(Tables()), id, contact, status, result, error);
        Tables() == db && reply == Finished(changed)
      ensures reply == NotTerminal <==> status in {Pending, Running, CancelRequested}
      ensures reply == Finished(true) <==>
                && status in {Succeeded, Failed, TimedOut, Cancelled, Abandoned} && id in InFlight(old(runs), contact)
      ensures reply == Finished(true) ==>
                runs == old(runs)[id := old(runs)[id].(
                  status := status, result := result, error := error, finishedAt := Some(now))]
      ensures reply != Finished(true) ==> runs == old(runs)
    {
      if status in {Pending, Running, CancelRequested} {
        return NotTerminal;
      }
      if id < |runs| && runs[id].contact == contact && Active(runs[id].status) {
        var row := runs[id].(status := status, result := result, error := error);
        runs := runs[id := row.(finishedAt := Some(now))];
        return Finished(true);
      }
      return Finished(false);
    }

    method RequestExecutionCancellation(id: RunId, contact: ContactId) returns (changed: bool)
      modifies this`runs
      ensures (Tables(), changed) == RequestCancel(old(Tables()), id, contact)
      ensures changed <==>
                id < |old(runs)| && old(runs)[id].contact == contact && old(runs)[id].status in {Pending, Running}
      ensures changed ==> runs == old(runs)[id := old(runs)[id].(status := CancelRequested, cancelRequested := true)]
      ensures !changed ==> runs == old(runs)
    {
      changed := id < |runs| && runs[id].contact == contact && runs[id].status in {Pending, Running};
      if changed {
        var row := runs[id].(cancelRequested := true);
        runs := runs[id := row.(status := CancelRequested)];
      }
    }

    method AppendExecutionEvent(event: Event) returns (id: EventId)
      modifies this`events
      ensures Tables() == AppendEvent(old(Tables()), event)
      ensures id == |old(events)| && events[id] == event && old(events) <= events && |events| == id + 1
    {
      id := |events|;
      events := events + [event];
    }

    method MarkExecutionEventProcessed(id: EventId, contact: ContactId) returns (changed: bool)
      modifies this`events
      ensures (Tables(), changed) == MarkProcessed(old(Tables()), id, contact)
      ensures changed <==>
                id < |old(events)| && old(events)[id].contact == contact && old(events)[id].processedAt == None
      ensures changed ==> events == old(events)[id := old(events)[id].(processedAt := Some(now))]
      ensures !changed ==> events == old(events)
    {
      changed := id < |events| && events[id].contact == contact && events[id].processedAt == None;
      if changed {
        events := events[id := events[id].(processedAt := Some(now))];
      }
    }

    method AbandonStaleExecutionRuns(olderThan: Instant) returns (count: nat)
      modifies this`runs
      ensures Tables() == AbandonStale(old(Tables()), olderThan)
      ensures OverdueAbandoned(old(runs), runs, now - olderThan, now)
      ensures count == |Overdue(old(runs), now - olderThan)|
    {
      count := Count(runs, StaleAt(now - olderThan));
      CountIsCardinality(runs, StaleAt(now - olderThan));
      assert Overdue(runs, now - olderThan) == Matching(runs, StaleAt(now - olderThan));
      runs := UpdateWhere(runs, StaleAt(now - olderThan), AbandonAt(now));
    }

    /** The finishing block of app/services/execution.py: the terminal row and
        its one event are committed together, or neither is. */
    method FinishWithEvent(
      id: RunId, contact: ContactId, goal: string, status: Status, result: Option<RunResult>, error: Option<string>)
      returns (event: Option<EventId>)
      requires Terminal(status)
      modifies this`runs, this`events
      ensures (Tables(), event) == FinishBlock(old(Tables()), id, contact, goal, status, result, error)
      ensures event.Some? <==> id in InFlight(old(runs), contact)
      ensures event.Some? ==>
                && runs == old(runs)[id := old(runs)[id].(
                     status := status, result := result, error := error, finishedAt := Some(now))]
                && event.value == |old(events)| && |events| == |old(events)| + 1 && old(events) <= events
                && Reports(events[event.value], contact, id, goal, status, result, error)
      ensures event.None? ==> runs == old(runs) && events == old(events)
    {
      var reply := FinishExecutionRun(id, contact, status, result, error);
      if !reply.changed {
        return None;
      }
      NewEventReports(contact, id, goal, status, result, error);
      var e := AppendExecutionEvent(NewEvent(contact, id, goal, status, result, error));
      return Some(e);
    }

    /** The session block of `run_scheduled_execution`: resume the run of this
        occurrence whatever its state, and insert only when there is none. Between
        the lookup and the update or locked insert others have left `between`. */
    method ScheduledRun(
      contact: ContactId, goal: string, scope: set<string>, key: DedupeKey, between: seq<Run>)
      returns (run: Option<RunId>)
      requires Evolves(runs, between)
      modifies this`runs
      ensures (Tables(), run) == RacingBlock(old(Tables()), old(Tables()).(runs := between), contact, goal, scope, key)
      ensures between == old(runs) ==> (Tables(), run) == ScheduledBlock(old(Tables()), contact, goal, scope, key)
      ensures forall e: RunId :: Newest(old(runs), contact, key, e) ==>
                if old(runs)[e].status !in {Running, CancelRequested} then run == Some(e) && runs == between
                else if between[e].status !in {Running, CancelRequested} then run == None && runs == between
                else
                  run == Some(e)
                  && runs == between[e := between[e].(status := Pending, startedAt := None, cancelRequested := false)]
      ensures (forall r :: 0 <= r < |old(runs)| ==> old(runs)[r].contact != contact || old(runs)[r].key != key) ==>
                && (HasActive(between, contact, key) ==> run.Some? && runs == between)
                && (!HasActive(between, contact, key) && |InFlight(between, contact)| < 2 ==>
                      && run == Some(|between|)
                      && runs == between + [Run(contact, goal, scope, key, Pending, None, None, false, None, None)])
                && (!HasActive(between, contact, key) && |InFlight(between, contact)| >= 2 ==>
                      run.None? && runs == between)
    {
      var existing := GetExecutionRunByDedupe(contact, key);
      assert existing == FindLast(runs, WithKey(contact, key));
      assert forall e: RunId :: Newest(runs, contact, key, e) ==> existing == Some(e);
      var reclaimable := existing.Some? && runs[existing.value].status in {Running, CancelRequested};
      runs := between;
      if existing.Some? {
        if reclaimable {
          var reclaimed := ReclaimExecutionRunForRetry(existing.value, contact);
          if !reclaimed {
            return None;
          }
        }
        return existing;
      }
      var created;
      run, created := CreateOrGetExecutionRun(contact, goal, scope, key);
    }
  }

  // -------------------------------------------------- the lookup's own races

  /** The exact condition for a second row of one occurrence: the lookup found
      none, others inserted and ended one meanwhile, and a slot is free. */
  lemma SecondRowExactly(
    before: Db, between: Db, contact: ContactId, goal: string, scope: set<string>, key: DedupeKey)
    requires Evolves(before.runs, between.runs)
    ensures var after := RacingBlock(before, between, contact, goal, scope, key).0;
            && (HasKey(between.runs, contact, key) && |after.runs| > |between.runs|
                <==> SlipsThrough(before, between, contact, key))
            && (SlipsThrough(before, between, contact, key) ==>
                 after.runs == between.runs + [NewRun(contact, goal, scope, key)])
  {
    if HasKey(before.runs, contact, key) {
      var i :| 0 <= i < |before.runs| && WithKey(contact, key)(before.runs[i]);
      assert WithKey(contact, key)(before.runs[i]);
    }
  }

  ghost predicate HasKey(runs: seq<Run>, contact: ContactId, key: DedupeKey) {
    exists i :: 0 <= i < |runs| && WithKey(contact, key)(runs[i])
  }

  ghost predicate SlipsThrough(before: Db, between: Db, contact: ContactId, key: DedupeKey) {
    && !HasKey(before.runs, contact, key) && HasKey(between.runs, contact, key)
    && (forall i :: 0 <= i < |between.runs| && WithKey(contact, key)(between.runs[i]) ==>
          Terminal(between.runs[i].status))
    && Count(between.runs, ActiveOf(contact)) < MAX_ACTIVE_RUNS
  }
}
