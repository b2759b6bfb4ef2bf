/** The `job` and `automation` tables: the durable queue (app/db/jobs.py), the
    automation rows and their wake-up jobs (app/db/automations.py), and the
    blocks that pair the two (app/services/automation.py,
    app/agent/automation_tools.py). */
module Scheduler {
  import opened Wrappers
  import opened Table
  import E = Executions

  type Instant = E.Instant
  type JobId = nat
  type AutomationId = nat

  const SECOND: nat := 1_000_000
  const STALE_LOCK: nat := 10 * 60 * SECOND
  const CATCH_UP_GRACE: nat := 2 * 60 * SECOND
  const BACKOFF_CAP_SECONDS: nat := 300
  const MAX_ATTEMPTS: nat := 5

  datatype JobStatus = Pending | Running | Done | Dead

  datatype Payload = Wake(automation: AutomationId, occurrence: Instant) | OtherWork

  /** A job row. The last four fields are the model's own tally of what has
      happened to the row: handler starts, recorded failures, stale recoveries
      and the seconds of backoff imposed. */
  datatype Job = Job(
    contact: E.ContactId,
    payload: Payload,
    runAt: Instant,
    status: JobStatus,
    attempts: nat,
    maxAttempts: nat,
    lockedAt: Option<Instant>,
    starts: nat, failures: nat, recoveries: nat, waited: nat)

  datatype AutomationStatus = Active | Paused | Cancelled

  datatype LastRun = RunSucceeded | RunFailed | RunTimedOut | RunCancelled | RunSkipped

  datatype Automation = Automation(
    contact: E.ContactId,
    goal: string,
    toolkits: set<string>,
    status: AutomationStatus,
    nextRunAt: Option<Instant>,
    lastStatus: Option<LastRun>,
    lastOccurrence: Option<Instant>,
    lastRun: Option<E.RunId>,
    lastWasCatchUp: bool,
    lastRunAt: Option<Instant>)

  // ------------------------------------------------------------------- jobs

  predicate IsWakeOf(j: Job, a: AutomationId) { j.payload.Wake? && j.payload.automation == a }

  function PendingWake(a: AutomationId): Job -> bool {
    (j: Job) => j.status.Pending? && IsWakeOf(j, a)
  }

  /** The partial unique index: one pending wake-up per automation. */
  predicate UniqueWakes(jobs: seq<Job>) {
    forall i, j :: 0 <= i < j < |jobs| && ArmedWake(jobs[i]) && ArmedWake(jobs[j]) ==>
      jobs[i].payload.automation != jobs[j].payload.automation
  }

  predicate ArmedWake(j: Job) { j.status.Pending? && j.payload.Wake? }

  function NewJob(contact: E.ContactId, payload: Payload, runAt: Instant): Job {
    Job(contact, payload, runAt, Pending, 0, MAX_ATTEMPTS, None, 0, 0, 0, 0)
  }

  predicate Claimable(j: Job, now: Instant) { j.status.Pending? && j.runAt <= now }

  function Started(j: Job, now: Instant): Job {
    j.(status := Running, lockedAt := Some(now), starts := j.starts + 1)
  }

  /** The due pending job with the smallest run time. */
  function EarliestDue(jobs: seq<Job>, now: Instant): (r: Option<JobId>)
    ensures r.None? ==> forall i :: 0 <= i < |jobs| ==> !Claimable(jobs[i], now)
    ensures r.Some? ==> r.value < |jobs| && Claimable(jobs[r.value], now)
    ensures r.Some? ==> forall i :: 0 <= i < |jobs| && Claimable(jobs[i], now) ==> jobs[r.value].runAt <= jobs[i].runAt
  {
    if jobs == [] then None
    else
      var n := |jobs| - 1;
      var best := EarliestDue(jobs[..n], now);
      if Claimable(jobs[n], now) && (best.None? || jobs[n].runAt < jobs[best.value].runAt) then Some(n) else best
  }

  function Complete(jobs: seq<Job>, j: JobId): seq<Job> {
    if j < |jobs| && jobs[j].status.Running? then jobs[j := jobs[j].(status := Done, lockedAt := None)] else jobs
  }

  function Power2(n: nat): (p: nat)
    ensures p >= 1
  {
    if n == 0 then 1 else 2 * Power2(n - 1)
  }

  function BackoffSeconds(attempts: nat): nat {
    if Power2(attempts) < BACKOFF_CAP_SECONDS then Power2(attempts) else BACKOFF_CAP_SECONDS
  }

  function Failed(j: Job, now: Instant): Job {
    var attempts := j.attempts + 1;
    var failed := j.(attempts := attempts, lockedAt := None, failures := j.failures + 1);
    if attempts >= j.maxAttempts then failed.(status := Dead)
    else failed.(
      status := Pending,
      runAt := now + BackoffSeconds(attempts) * SECOND,
      waited := j.waited + BackoffSeconds(attempts))
  }

  /** Recording a failure; None when re-queuing violates the unique index and
      the transaction aborts. */
  function Fail(jobs: seq<Job>, j: JobId, now: Instant): Option<seq<Job>> {
    if j < |jobs| && jobs[j].status.Running? then
      var after := jobs[j := Failed(jobs[j], now)];
      if UniqueWakes(after) then Some(after) else None
    else Some(jobs)
  }

  function StaleAt(cutoff: Instant): Job -> bool {
    (j: Job) => j.status.Running? && j.lockedAt.Some? && j.lockedAt.value < cutoff
  }

  function Requeued(): Job -> Job {
    (j: Job) => j.(status := Pending, lockedAt := None, attempts := j.attempts + 1, recoveries := j.recoveries + 1)
  }

  /** One bulk statement: every stale job is re-queued, or the index rejects all. */
  function RecoverStale(jobs: seq<Job>, now: Instant): Option<seq<Job>> {
    var after := UpdateWhere(jobs, StaleAt(now - STALE_LOCK), Requeued());
    if UniqueWakes(after) then Some(after) else None
  }

  // ------------------------------------------------------------ automations

  /** Ensure one pending wake-up: move the existing one or insert it. */
  function Upsert(jobs: seq<Job>, contact: E.ContactId, a: AutomationId, runAt: Instant): seq<Job> {
    var existing := FindLast(jobs, PendingWake(a));
    if existing.Some? then jobs[existing.value := jobs[existing.value].(runAt := runAt, payload := Wake(a, runAt))]
    else jobs + [NewJob(contact, Wake(a, runAt), runAt)]
  }

  predicate Allowed(from: AutomationStatus, to: AutomationStatus) {
    match to
    case Paused => from.Active?
    case Active => from.Paused?
    case Cancelled => !from.Cancelled?
  }

  predicate Owned(autos: seq<Automation>, a: AutomationId, contact: E.ContactId) {
    a < |autos| && autos[a].contact == contact
  }

  function SetStatus(
    autos: seq<Automation>, a: AutomationId, contact: E.ContactId, status: AutomationStatus, next: Option<Instant>)
    : (seq<Automation>, bool)
  {
    if Owned(autos, a, contact) && Allowed(autos[a].status, status) then
      var nextRunAt := if status.Cancelled? then None else if next.Some? then next else autos[a].nextRunAt;
      (autos[a := autos[a].(status := status, nextRunAt := nextRunAt)], true)
    else (autos, false)
  }

  datatype Stamp = Stamp(occurrence: Instant, last: LastRun, run: Option<E.RunId>, catchUp: bool)

  function RecordRun(
    autos: seq<Automation>, a: AutomationId, contact: E.ContactId, stamp: Stamp, next: Option<Instant>, now: Instant)
    : (seq<Automation>, bool)
  {
    if Owned(autos, a, contact) && autos[a].status.Active? then
      (autos[a := autos[a].(
        lastStatus := Some(stamp.last), lastOccurrence := Some(stamp.occurrence), lastRun := stamp.run,
        lastWasCatchUp := stamp.catchUp, lastRunAt := Some(now), nextRunAt := next)], true)
    else (autos, false)
  }

  /** `_close_wake_up`: stamp the automation, finish the job, arm the next one. */
  function CloseBlock(
    jobs: seq<Job>, autos: seq<Automation>, j: JobId, a: AutomationId, contact: E.ContactId,
    stamp: Stamp, next: Option<Instant>, now: Instant)
    : (seq<Job>, seq<Automation>)
  {
    var (recorded, updated) := RecordRun(autos, a, contact, stamp, next, now);
    var closed := Complete(jobs, j);
    (if updated && next.Some? then Upsert(closed, contact, a, next.value) else closed, recorded)
  }

  /** The branch for an occurrence that was already recorded. */
  function DuplicateBlock(
    jobs: seq<Job>, j: JobId, a: AutomationId, contact: E.ContactId, next: Option<Instant>): seq<Job> {
    var closed := Complete(jobs, j);
    if next.Some? then Upsert(closed, contact, a, next.value) else closed
  }

  function NewAutomation(contact: E.ContactId, goal: string, toolkits: set<string>, next: Instant): Automation {
    Automation(contact, goal, toolkits, Active, Some(next), None, None, None, false, None)
  }

  function CreateBlock(
    jobs: seq<Job>, autos: seq<Automation>, contact: E.ContactId, goal: string, toolkits: set<string>, next: Instant)
    : (seq<Job>, seq<Automation>)
  {
    (Upsert(jobs, contact, |autos|, next), autos + [NewAutomation(contact, goal, toolkits, next)])
  }

  function ResumeBlock(jobs: seq<Job>, autos: seq<Automation>, a: AutomationId, contact: E.ContactId, next: Instant)
    : (seq<Job>, seq<Automation>)
  {
    var (resumed, updated) := SetStatus(autos, a, contact, Active, Some(next));
    if updated then (Upsert(jobs, contact, a, next), resumed) else (jobs, autos)
  }

  // --------------------------------------------------------------- in place

  /** What another transaction commits to this automation's wake-ups between two
      of our statements: a worker claims the pending one, a new one is inserted
      while there is none, the pending one is moved, or a running one returns to
      the queue. */
  datatype Race = Claims | Inserts(runAt: Instant) | Moves(runAt: Instant) | Requeues(job: JobId)

  /** How the upsert ends: its row inserted, an existing row moved, or nothing of
      its own left, because the row it meant to move was taken or because every
      try met another's row and then none. */
  datatype Fate = Inserted | Moved | Overtaken | Spoiled {
    predicate Took() { Inserted? || Moved? }
  }

  const UNDISTURBED: seq<seq<Race>> := [[], [], [], [], []]

  ghost predicate HasPendingWake(jobs: seq<Job>, a: AutomationId) {
    exists i :: 0 <= i < |jobs| && Waiting(jobs[i], a)
  }

  /** A wake-up of the automation that waits in the queue. */
  predicate Waiting(j: Job, a: AutomationId) { j.status == Pending && j.payload.Wake? && j.payload.automation == a }

  /** Every pending wake-up of a carries the requested time and occurrence. */
  ghost predicate AllAt(jobs: seq<Job>, a: AutomationId, runAt: Instant) {
    forall i :: 0 <= i < |jobs| && Waiting(jobs[i], a) ==>
      jobs[i].runAt == runAt && jobs[i].payload.occurrence == runAt
  }

  function Interfered(jobs: seq<Job>, contact: E.ContactId, a: AutomationId, race: Race, now: Instant): seq<Job> {
    var pending := FindLast(jobs, PendingWake(a));
    match race
    case Claims => if pending.Some? then jobs[pending.value := Started(jobs[pending.value], now)] else jobs
    case Inserts(runAt) => if pending.None? then jobs + [NewJob(contact, Wake(a, runAt), runAt)] else jobs
    case Moves(runAt) => if pending.Some? then MoveOutcome(jobs, pending.value, a, runAt).0 else jobs
    case Requeues(job) =>
      if pending.None? && job < |jobs| && IsWakeOf(jobs[job], a) && jobs[job].status.Running? then
        jobs[job := Requeued()(jobs[job])]
      else jobs
  }

  /** What any number of transactions, one after another, leave. */
  function Folded(jobs: seq<Job>, contact: E.ContactId, a: AutomationId, races: seq<Race>, now: Instant): seq<Job> {
    if races == [] then jobs
    else
      Interfered(Folded(jobs, contact, a, races[..|races| - 1], now), contact, a, races[|races| - 1], now)
  }

  /** `UPDATE ... WHERE id = j AND status = 'pending'`, and its row count. */
  function MoveOutcome(jobs: seq<Job>, j: JobId, a: AutomationId, runAt: Instant): (seq<Job>, bool) {
    if j < |jobs| && jobs[j].status.Pending? then (jobs[j := jobs[j].(runAt := runAt, payload := Wake(a, runAt))], true)
    else (jobs, false)
  }

  /** One try: insert, and on conflict look again and move what is found. */
  function TryOutcome(
    jobs: seq<Job>, contact: E.ContactId, a: AutomationId, runAt: Instant,
    first: seq<Race>, second: seq<Race>, third: seq<Race>, now: Instant): (seq<Job>, Fate)
  {
    var met := Folded(jobs, contact, a, first, now);
    if FindLast(met, PendingWake(a)).None? then (met + [NewJob(contact, Wake(a, runAt), runAt)], Inserted)
    else
      var left := Folded(met, contact, a, second, now);
      var found := FindLast(left, PendingWake(a));
      if found.None? then (left, Spoiled)
      else
        var (after, moved) := MoveOutcome(Folded(left, contact, a, third, now), found.value, a, runAt);
        (after, if moved then Moved else Overtaken)
  }

  /** The tries from the i-th on. */
  function Tries(
    jobs: seq<Job>, contact: E.ContactId, a: AutomationId, runAt: Instant, env: seq<seq<Race>>, i: nat, now: Instant)
    : (seq<Job>, Fate)
    requires |env| == 5 && i <= 2
    decreases 2 - i
  {
    if i == 2 then (jobs, Spoiled)
    else
      var (after, fate) := TryOutcome(jobs, contact, a, runAt, env[2 * i], env[2 * i + 1], env[2 * i + 2], now);
      if fate.Spoiled? then Tries(after, contact, a, runAt, env, i + 1, now) else (after, fate)
  }

  /** `upsert_automation_due` statement by statement, env telling what others do in
      its five gaps: before the update of a row found at once, or else before the
      insert, the second look and the update of each of two tries. */
  function UpsertOutcome(
    jobs: seq<Job>, contact: E.ContactId, a: AutomationId, runAt: Instant, env: seq<seq<Race>>, now: Instant)
    : (seq<Job>, Fate)
    requires |env| == 5
  {
    var found := FindLast(jobs, PendingWake(a));
    if found.Some? then
      var (after, moved) := MoveOutcome(Folded(jobs, contact, a, env[0], now), found.value, a, runAt);
      (after, if moved then Moved else Overtaken)
    else Tries(jobs, contact, a, runAt, env, 0, now)
  }

  /** Only wake-ups of automation a differ, and rows keep their order. */
  ghost predicate OthersKept(before: seq<Job>, after: seq<Job>, a: AutomationId) {
    && |before| <= |after|
    && (forall i :: 0 <= i < |before| && !IsWakeOf(before[i], a) ==> after[i] == before[i])
    && (forall i :: 0 <= i < |before| && IsWakeOf(before[i], a) ==> IsWakeOf(after[i], a))
    && (forall i :: |before| <= i < |after| ==> IsWakeOf(after[i], a))
  }

  lemma OthersKeptTrans(s: seq<Job>, t: seq<Job>, u: seq<Job>, a: AutomationId)
    requires OthersKept(s, t, a) && OthersKept(t, u, a)
    ensures OthersKept(s, u, a)
  {}

  // ------------------------------------------------- what the contracts speak of

  predicate IsDue(j: Job, now: Instant) { j.status == Pending && j.runAt <= now }

  /** A running job whose lock is older than the cutoff. */
  predicate LockedBefore(j: Job, cutoff: Instant) {
    j.status == Running && j.lockedAt.Some? && j.lockedAt.value < cutoff
  }

  /** One more attempt and one more failure: dead at the limit, else queued again
      after 2 to the power of the attempts in seconds, at most 300. */
  predicate FailedOnce(before: Job, after: Job, now: Instant) {
    var n := before.attempts + 1;
    var seconds := if n <= 8 then [1, 2, 4, 8, 16, 32, 64, 128, 256][n] else 300;
    if n >= before.maxAttempts then
      after == before.(status := Dead, attempts := n, lockedAt := None, failures := before.failures + 1)
    else
      after == before.(
        status := Pending, attempts := n, lockedAt := None, failures := before.failures + 1,
        runAt := now + seconds * 1_000_000, waited := before.waited + seconds)
  }

  lemma {:induction false} BackoffTable(n: nat)
    ensures BackoffSeconds(n) == if n <= 8 then [1, 2, 4, 8, 16, 32, 64, 128, 256][n] else 300
  {
    assert Power2(1) == 2 && Power2(2) == 4 && Power2(3) == 8;
    assert Power2(4) == 2 * Power2(3) && Power2(5) == 2 * Power2(4) && Power2(6) == 2 * Power2(5);
    assert Power2(7) == 2 * Power2(6) && Power2(8) == 2 * Power2(7) && Power2(9) == 2 * Power2(8);
    if n >= 9 { PowerGrows(9, n); }
  }

  lemma {:induction false} PowerGrows(m: nat, n: nat)
    requires m <= n
    ensures Power2(m) <= Power2(n)
    decreases n
  {
    if m < n { PowerGrows(m, n - 1); }
  }

  function Stamped(row: Automation, stamp: Stamp, next: Option<Instant>, now: Instant): Automation {
    Automation(row.contact, row.goal, row.toolkits, row.status, next, Some(stamp.last), Some(stamp.occurrence),
               stamp.run, stamp.catchUp, Some(now))
  }

  class Store {
    var jobs: seq<Job>
    var automations: seq<Automation>
    var now: Instant

    method ClaimJob() returns (claimed: Option<JobId>)
      modifies this`jobs
      ensures claimed == EarliestDue(old(jobs), now)
      ensures claimed.Some? <==> exists i :: 0 <= i < |old(jobs)| && IsDue(old(jobs)[i], now)
      ensures claimed.Some? ==>
                && claimed.value < |old(jobs)| && IsDue(old(jobs)[claimed.value], now)
                && (forall i :: 0 <= i < |old(jobs)| && IsDue(old(jobs)[i], now) ==>
                     old(jobs)[claimed.value].runAt <= old(jobs)[i].runAt)
                && jobs == old(jobs)[claimed.value := old(jobs)[claimed.value].(
                     status := Running, lockedAt := Some(now), starts := old(jobs)[claimed.value].starts + 1)]
      ensures claimed.None? ==> jobs == old(jobs)
    {
      claimed := EarliestDue(jobs, now);
      if claimed.Some? {
        var row := jobs[claimed.value].(status := Running, starts := jobs[claimed.value].starts + 1);
        jobs := jobs[claimed.value := row.(lockedAt := Some(now))];
      }
    }

    method CompleteJob(j: JobId)
      modifies this`jobs
      ensures jobs == Complete(old(jobs), j)
      ensures if j < |old(jobs)| && old(jobs)[j].status == Running then
                jobs == old(jobs)[j := old(jobs)[j].(status := Done, lockedAt := None)]
              else jobs == old(jobs)
    {
      if j < |jobs| && jobs[j].status == Running {
        var row := jobs[j].(status := Done);
        jobs := jobs[j := row.(lockedAt := None)];
      }
    }

    /** Re-queue with backoff or dead-letter; false when the index aborts it. */
    method FailJob(j: JobId) returns (committed: bool)
      modifies this`jobs
      ensures Fail(old(jobs), j, now) == if committed then Some(jobs) else None
      ensures !committed ==> jobs == old(jobs)
      ensures !(j < |old(jobs)| && old(jobs)[j].status == Running) ==> committed && jobs == old(jobs)
      ensures committed && j < |old(jobs)| && old(jobs)[j].status == Running ==>
                |jobs| == |old(jobs)| && FailedOnce(old(jobs)[j], jobs[j], now)
                && forall i :: 0 <= i < |jobs| && i != j ==> jobs[i] == old(jobs)[i]
    {
      if j >= |jobs| || jobs[j].status != Running {
        return true;
      }
      var attempts := jobs[j].attempts + 1;
      BackoffTable(attempts);
      var row := jobs[j].(attempts := attempts, lockedAt := None, failures := jobs[j].failures + 1);
      if attempts >= row.maxAttempts {
        row := row.(status := Dead);
      } else {
        var delay := BackoffSeconds(attempts);
        row := row.(status := Pending, runAt := now + delay * SECOND, waited := row.waited + delay);
      }
      committed := UniqueWakes(jobs[j := row]);
      if committed {
        jobs := jobs[j := row];
      }
    }

    method RecoverStaleJobs() returns (committed: bool)
      modifies this`jobs
      ensures RecoverStale(old(jobs), now) == if committed then Some(jobs) else None
      ensures !committed ==> jobs == old(jobs)
      ensures committed ==>
                |jobs| == |old(jobs)|
                && forall i :: 0 <= i < |jobs| ==>
                     jobs[i] == if LockedBefore(old(jobs)[i], now - 10 * 60 * 1_000_000) then
                                  old(jobs)[i].(status := Pending, lockedAt := None,
                                                attempts := old(jobs)[i].attempts + 1,
                                                recoveries := old(jobs)[i].recoveries + 1)
                                else old(jobs)[i]
    {
      var after := UpdateWhere(jobs, StaleAt(now - STALE_LOCK), Requeued());
      committed := UniqueWakes(after);
      if committed {
        jobs := after;
      }
    }

    /** A pending wake-up of the automation if there is one; under the unique
        index it is the only one. */
    method GetPendingAutomationDue(a: AutomationId) returns (j: Option<JobId>)
      ensures j.None? <==> !HasPendingWake(jobs, a)
      ensures j.Some? ==> j.value < |jobs| && PendingWake(a)(jobs[j.value]) && Waiting(jobs[j.value], a)
      ensures j.Some? && UniqueWakes(jobs) ==> forall i :: 0 <= i < |jobs| && Waiting(jobs[i], a) ==> i == j.value
    {
      j := FindLast(jobs, PendingWake(a));
      if UniqueWakes(jobs) && j.Some? {
        forall i | 0 <= i < |jobs| && Waiting(jobs[i], a) ensures i == j.value {
          assert ArmedWake(jobs[i]) && ArmedWake(jobs[j.value]);
        }
      }
    }

    /** The other transactions of one gap, one after another. */
    method Interfere(contact: E.ContactId, a: AutomationId, races: seq<Race>)
      requires UniqueWakes(jobs)
      modifies this`jobs
      ensures UniqueWakes(jobs) && jobs == Folded(old(jobs), contact, a, races, now)
    {
      for i := 0 to |races|
        invariant UniqueWakes(jobs) && jobs == Folded(old(jobs), contact, a, races[..i], now)
      {
        assert races[..i + 1][..i] == races[..i];
        InterferenceKeeps(jobs, contact, a, races[i], now);
        var pending := GetPendingAutomationDue(a);
        assert pending == FindLast(jobs, PendingWake(a));
        match races[i] {
          case Claims =>
            if pending.Some? { jobs := jobs[pending.value := Started(jobs[pending.value], now)]; }
          case Inserts(runAt) =>
            if pending.None? { jobs := jobs + [NewJob(contact, Wake(a, runAt), runAt)]; }
          case Moves(runAt) =>
            if pending.Some? {
              var row := jobs[pending.value].(runAt := runAt, payload := Wake(a, runAt));
              jobs := jobs[pending.value := row];
            }
          case Requeues(job) =>
            if pending.None? && job < |jobs| && IsWakeOf(jobs[job], a) && jobs[job].status == Running {
              jobs := jobs[job := Requeued()(jobs[job])];
            }
        }
      }
      assert races[..|races|] == races;
    }

    /** Moving a row found pending; its row count is not read by the caller. */
    method MoveRacing(j: JobId, contact: E.ContactId, a: AutomationId, runAt: Instant, races: seq<Race>)
      returns (moved: bool)
      requires UniqueWakes(jobs) && j < |jobs| && PendingWake(a)(jobs[j])
      modifies this`jobs
      ensures (jobs, moved) == MoveOutcome(Folded(old(jobs), contact, a, races, now), j, a, runAt)
      ensures moved ==>
                var others := Folded(old(jobs), contact, a, races, now);
                && j < |others| && others[j].status == Pending
                && jobs == others[j := others[j].(runAt := runAt, payload := Wake(a, runAt))]
      ensures !moved ==> jobs == Folded(old(jobs), contact, a, races, now)
      ensures UniqueWakes(jobs)
    {
      FoldKeeps(jobs, contact, a, races, now);
      Interfere(contact, a, races);
      moved := jobs[j].status == Pending;
      if moved {
        jobs := jobs[j := jobs[j].(runAt := runAt, payload := Wake(a, runAt))];
      }
    }

    /** `INSERT` in a savepoint: the unique index refuses it while another
        transaction's wake-up is pending. */
    method InsertRacing(contact: E.ContactId, a: AutomationId, runAt: Instant, races: seq<Race>)
      returns (inserted: bool)
      requires UniqueWakes(jobs)
      modifies this`jobs
      ensures UniqueWakes(jobs)
      ensures var met := Folded(old(jobs), contact, a, races, now);
              && (inserted <==> !HasPendingWake(met, a))
              && (inserted ==> jobs == met + [Job(contact, Wake(a, runAt), runAt, Pending, 0, 5, None, 0, 0, 0, 0)])
              && (!inserted ==> jobs == met)
    {
      Interfere(contact, a, races);
      var conflicting := GetPendingAutomationDue(a);
      inserted := conflicting.None?;
      if inserted {
        jobs := jobs + [NewJob(contact, Wake(a, runAt), runAt)];
      }
    }

    method UpsertAutomationDue(contact: E.ContactId, a: AutomationId, runAt: Instant, env: seq<seq<Race>>)
      returns (fate: Fate)
      requires |env| == 5 && UniqueWakes(jobs)
      modifies this`jobs
      ensures (jobs, fate) == UpsertOutcome(old(jobs), contact, a, runAt, env, now)
      ensures UniqueWakes(jobs) && OthersKept(old(jobs), jobs, a)
      ensures fate.Took() ==> HasPendingWake(jobs, a) && AllAt(jobs, a, runAt)
      ensures env == UNDISTURBED ==> fate.Took() && jobs == Upsert(old(jobs), contact, a, runAt)
    {
      UpsertKeepsWakes(jobs, contact, a, runAt, env, now);
      var existing := GetPendingAutomationDue(a);
      assert existing == FindLast(jobs, PendingWake(a));
      if existing.Some? {
        var moved := MoveRacing(existing.value, contact, a, runAt, env[0]);
        return if moved then Moved else Overtaken;
      }
      fate := InsertInTwoTries(contact, a, runAt, env);
    }

    method InsertInTwoTries(contact: E.ContactId, a: AutomationId, runAt: Instant, env: seq<seq<Race>>)
      returns (fate: Fate)
      requires |env| == 5 && UniqueWakes(jobs)
      modifies this`jobs
      ensures (jobs, fate) == Tries(old(jobs), contact, a, runAt, env, 0, now)
    {
      for try := 0 to 2
        invariant UniqueWakes(jobs)
        invariant Tries(old(jobs), contact, a, runAt, env, 0, now) == Tries(jobs, contact, a, runAt, env, try, now)
      {
        fate := TryInsert(contact, a, runAt, env[2 * try], env[2 * try + 1], env[2 * try + 2]);
        if !fate.Spoiled? {
          return;
        }
      }
      return Spoiled;
    }

    method TryInsert(
      contact: E.ContactId, a: AutomationId, runAt: Instant, first: seq<Race>, second: seq<Race>, third: seq<Race>)
      returns (fate: Fate)
      requires UniqueWakes(jobs)
      modifies this`jobs
      ensures UniqueWakes(jobs)
      ensures (jobs, fate) == TryOutcome(old(jobs), contact, a, runAt, first, second, third, now)
    {
      HasNone(Folded(jobs, contact, a, first, now), a);
      var inserted := InsertRacing(contact, a, runAt, first);
      if inserted {
        return Inserted;
      }
      HasNone(jobs, a);
      Interfere(contact, a, second);
      var existing := GetPendingAutomationDue(a);
      assert existing == FindLast(jobs, PendingWake(a));
      if existing.None? {
        return Spoiled;
      }
      var moved := MoveRacing(existing.value, contact, a, runAt, third);
      return if moved then Moved else Overtaken;
    }

    method SetAutomationStatus(a: AutomationId, contact: E.ContactId, status: AutomationStatus, next: Option<Instant>)
      returns (updated: bool)
      modifies this`automations
      ensures (automations, updated) == SetStatus(old(automations), a, contact, status, next)
      ensures updated <==>
                && a < |old(automations)| && old(automations)[a].contact == contact
                && match status
                   case Paused => old(automations)[a].status == Active
                   case Active => old(automations)[a].status == Paused
                   case Cancelled => old(automations)[a].status in {Active, Paused}
      ensures updated ==>
                automations == old(automations)[a := old(automations)[a].(
                  status := status,
                  nextRunAt := if status == Cancelled then None else if next.Some? then next
                               else old(automations)[a].nextRunAt)]
      ensures !updated ==> automations == old(automations)
    {
      if !Owned(automations, a, contact) {
        return false;
      }
      var row := automations[a];
      var allowed :=
        if status == Paused then {Active} else if status == Active then {Paused} else {Active, Paused};
      if row.status !in allowed {
        return false;
      }
      if next.Some? {
        row := row.(nextRunAt := next);
      }
      if status == Cancelled {
        row := row.(nextRunAt := None);
      }
      automations := automations[a := row.(status := status)];
      return true;
    }

    method RecordAutomationRun(a: AutomationId, contact: E.ContactId, stamp: Stamp, next: Option<Instant>)
      returns (updated: bool)
      modifies this`automations
      ensures (automations, updated) == RecordRun(old(automations), a, contact, stamp, next, now)
      ensures updated <==>
                a < |old(automations)| && old(automations)[a].contact == contact && old(automations)[a].status == Active
      ensures updated ==> automations == old(automations)[a := Stamped(old(automations)[a], stamp, next, now)]
      ensures !updated ==> automations == old(automations)
    {
      if !Owned(automations, a, contact) || automations[a].status != Active {
        return false;
      }
      var row := automations[a].(lastStatus := Some(stamp.last), lastOccurrence := Some(stamp.occurrence));
      row := row.(lastRun := stamp.run, lastWasCatchUp := stamp.catchUp, lastRunAt := Some(now));
      automations := automations[a := row.(nextRunAt := next)];
      return true;
    }

    method CloseWakeUp(j: JobId, a: AutomationId, contact: E.ContactId, stamp: Stamp, next: Option<Instant>)
      requires UniqueWakes(jobs)
      modifies this`jobs, this`automations
      ensures (jobs, automations) == CloseBlock(
        old(jobs), old(automations), j, a, contact, stamp, next, now)
      ensures UniqueWakes(jobs)
      ensures var updated :=
                && a < |old(automations)| && old(automations)[a].contact == contact
                && old(automations)[a].status == Active;
              && (updated ==> automations == old(automations)[a := Stamped(old(automations)[a], stamp, next, now)])
              && (!updated ==> automations == old(automations))
              && (updated && next.Some? ==> HasPendingWake(jobs, a) && AllAt(jobs, a, next.value))
      ensures j < |old(jobs)| && old(jobs)[j].status == Running ==>
                j < |jobs| && jobs[j] == old(jobs)[j].(status := Done, lockedAt := None)
    {
      var updated := RecordAutomationRun(a, contact, stamp, next);
      CompleteJob(j);
      if updated && next.Some? {
        var fate := UpsertAutomationDue(contact, a, next.value, UNDISTURBED);
      }
    }

    method CreateAutomation(contact: E.ContactId, goal: string, toolkits: set<string>, next: Instant)
      returns (a: AutomationId)
      requires UniqueWakes(jobs)
      modifies this`jobs, this`automations
      ensures (jobs, automations) == CreateBlock(old(jobs), old(automations), contact, goal, toolkits, next)
      ensures a == |old(automations)| && UniqueWakes(jobs)
      ensures automations == old(automations)
                             + [Automation(contact, goal, toolkits, Active, Some(next), None, None, None, false, None)]
      ensures HasPendingWake(jobs, a) && AllAt(jobs, a, next)
    {
      a := |automations|;
      automations := automations + [NewAutomation(contact, goal, toolkits, next)];
      var fate := UpsertAutomationDue(contact, a, next, UNDISTURBED);
    }

    method ResumeAutomation(a: AutomationId, contact: E.ContactId, next: Instant) returns (updated: bool)
      requires UniqueWakes(jobs)
      modifies this`jobs, this`automations
      ensures (jobs, automations) == ResumeBlock(old(jobs), old(automations), a, contact, next)
      ensures UniqueWakes(jobs)
      ensures updated <==>
                a < |old(automations)| && old(automations)[a].contact == contact && old(automations)[a].status == Paused
      ensures updated ==>
                && automations == old(automations)[a := old(automations)[a].(status := Active, nextRunAt := Some(next))]
                && HasPendingWake(jobs, a) && AllAt(jobs, a, next)
      ensures !updated ==> automations == old(automations) && jobs == old(jobs)
    {
      updated := SetAutomationStatus(a, contact, Active, Some(next));
      if updated {
        var fate := UpsertAutomationDue(contact, a, next, UNDISTURBED);
      }
    }
  }

  lemma HasNone(jobs: seq<Job>, a: AutomationId)
    ensures FindLast(jobs, PendingWake(a)).None? <==> !HasPendingWake(jobs, a)
  {}

  lemma InterferenceKeeps(jobs: seq<Job>, contact: E.ContactId, a: AutomationId, race: Race, now: Instant)
    requires UniqueWakes(jobs)
    ensures var after := Interfered(jobs, contact, a, race, now); UniqueWakes(after) && OthersKept(jobs, after, a)
  {}

  lemma {:induction false} FoldKeeps(
    jobs: seq<Job>, contact: E.ContactId, a: AutomationId, races: seq<Race>, now: Instant)
    requires UniqueWakes(jobs)
    ensures var after := Folded(jobs, contact, a, races, now); UniqueWakes(after) && OthersKept(jobs, after, a)
  {
    if races != [] {
      var init := Folded(jobs, contact, a, races[..|races| - 1], now);
      FoldKeeps(jobs, contact, a, races[..|races| - 1], now);
      InterferenceKeeps(init, contact, a, races[|races| - 1], now);
      OthersKeptTrans(jobs, init, Folded(jobs, contact, a, races, now), a);
    }
  }

  /** A move that finds its row still pending is the only pending wake-up after. */
  lemma MoveKeeps(jobs: seq<Job>, j: JobId, a: AutomationId, runAt: Instant)
    requires UniqueWakes(jobs) && j < |jobs| && IsWakeOf(jobs[j], a)
    ensures var (after, moved) := MoveOutcome(jobs, j, a, runAt);
            && UniqueWakes(after) && OthersKept(jobs, after, a)
            && (moved ==> HasPendingWake(after, a) && AllAt(after, a, runAt))
  {
    var (after, moved) := MoveOutcome(jobs, j, a, runAt);
    if moved { assert PendingWake(a)(after[j]); }
  }

  lemma TryKeeps(
    jobs: seq<Job>, contact: E.ContactId, a: AutomationId, runAt: Instant,
    first: seq<Race>, second: seq<Race>, third: seq<Race>, now: Instant)
    requires UniqueWakes(jobs)
    ensures var (after, fate) := TryOutcome(jobs, contact, a, runAt, first, second, third, now);
            && UniqueWakes(after) && OthersKept(jobs, after, a)
            && (fate.Took() ==> HasPendingWake(after, a) && AllAt(after, a, runAt))
            && (fate.Spoiled? ==> !HasPendingWake(after, a))
  {
    var met := Folded(jobs, contact, a, first, now);
    FoldKeeps(jobs, contact, a, first, now);
    if FindLast(met, PendingWake(a)).None? {
      assert PendingWake(a)((met + [NewJob(contact, Wake(a, runAt), runAt)])[|met|]);
    } else {
      var left := Folded(met, contact, a, second, now);
      FoldKeeps(met, contact, a, second, now);
      OthersKeptTrans(jobs, met, left, a);
      var found := FindLast(left, PendingWake(a));
      if found.Some? {
        var last := Folded(left, contact, a, third, now);
        FoldKeeps(left, contact, a, third, now);
        OthersKeptTrans(jobs, left, last, a);
        MoveKeeps(last, found.value, a, runAt);
        OthersKeptTrans(jobs, last, MoveOutcome(last, found.value, a, runAt).0, a);
      }
    }
  }

  lemma {:induction false} TriesKeep(
    jobs: seq<Job>, contact: E.ContactId, a: AutomationId, runAt: Instant, env: seq<seq<Race>>, i: nat, now: Instant)
    requires |env| == 5 && i <= 2 && UniqueWakes(jobs) && (i == 2 ==> !HasPendingWake(jobs, a))
    ensures var (after, fate) := Tries(jobs, contact, a, runAt, env, i, now);
            && UniqueWakes(after) && OthersKept(jobs, after, a)
            && (fate.Took() ==> HasPendingWake(after, a) && AllAt(after, a, runAt))
            && (fate.Spoiled? ==> !HasPendingWake(after, a))
    decreases 2 - i
  {
    if i < 2 {
      TryKeeps(jobs, contact, a, runAt, env[2 * i], env[2 * i + 1], env[2 * i + 2], now);
      var (after, fate) := TryOutcome(jobs, contact, a, runAt, env[2 * i], env[2 * i + 1], env[2 * i + 2], now);
      if fate.Spoiled? {
        TriesKeep(after, contact, a, runAt, env, i + 1, now);
        OthersKeptTrans(jobs, after, Tries(after, contact, a, runAt, env, i + 1, now).0, a);
      }
    }
  }

  lemma UpsertKeepsWakes(
    jobs: seq<Job>, contact: E.ContactId, a: AutomationId, runAt: Instant, env: seq<seq<Race>>, now: Instant)
    requires |env| == 5 && UniqueWakes(jobs)
    ensures var (after, fate) := UpsertOutcome(jobs, contact, a, runAt, env, now);
            && UniqueWakes(after) && OthersKept(jobs, after, a)
            && (fate.Took() ==> HasPendingWake(after, a) && AllAt(after, a, runAt))
            && (fate.Spoiled? ==> !HasPendingWake(after, a))
            && (env == UNDISTURBED ==> fate.Took() && after == Upsert(jobs, contact, a, runAt))
  {
    var found := FindLast(jobs, PendingWake(a));
    if found.Some? {
      var left := Folded(jobs, contact, a, env[0], now);
      FoldKeeps(jobs, contact, a, env[0], now);
      MoveKeeps(left, found.value, a, runAt);
      OthersKeptTrans(jobs, left, MoveOutcome(left, found.value, a, runAt).0, a);
    } else {
      TriesKeep(jobs, contact, a, runAt, env, 0, now);
    }
  }
}
