/** The promises of the scheduler over whole runs: unique wake-ups, retry
    accounting, faithful records, one run per occurrence, and exactly when the
    unique index turns a re-queue into an aborted transaction. */
module WakeUpTheorems {
  import opened Wrappers
  import opened Table
  import opened Scheduler
  import opened WakeUps
  import opened WakeUpProperties
  import E = Executions
  import L = Lifecycle
  import LP = LifecycleProperties

  lemma {:induction false} Reachable(steps: seq<Step>)
    ensures Inv(After(INIT, steps))
  {
    InitOk();
    RunKeeps(INIT, steps);
  }

  // ---------------------------------------------------------------- wake-ups

  lemma OnlyOneWaits(jobs: seq<Job>, i: nat, j: nat, a: AutomationId)
    requires UniqueWakes(jobs) && i < j < |jobs| && PendingWake(a)(jobs[i])
    ensures !PendingWake(a)(jobs[j])
  {
    assert ArmedWake(jobs[i]);
  }

  lemma {:induction false} CountOfUnique(jobs: seq<Job>, a: AutomationId)
    requires UniqueWakes(jobs)
    ensures Count(jobs, PendingWake(a)) == if HasPendingWake(jobs, a) then 1 else 0
  {
    var n := |jobs| - 1;
    if n >= 0 {
      CountOfUnique(jobs[..n], a);
      if HasPendingWake(jobs[..n], a) {
        var i :| 0 <= i < n && PendingWake(a)(jobs[..n][i]);
        assert PendingWake(a)(jobs[i]);
        OnlyOneWaits(jobs, i, n, a);
      } else {
        forall i | 0 <= i < n ensures !PendingWake(a)(jobs[i]) { assert jobs[..n][i] == jobs[i]; }
        if PendingWake(a)(jobs[n]) { assert HasPendingWake(jobs, a); }
      }
    }
  }

  /** WAKE-UP UPSERT: in any reachable state, arming an automation leaves it with
      exactly one pending wake-up, at the requested time and occurrence, and
      touches no other row. */
  lemma {:induction false} UpsertArmsExactlyOne(steps: seq<Step>, a: AutomationId, runAt: Instant)
    requires a < |After(INIT, steps).automations|
    ensures var w := After(INIT, steps);
            var after := Upsert(w.jobs, w.automations[a].contact, a, runAt);
            && Count(after, PendingWake(a)) == 1 && AllAt(after, a, runAt) && UniqueWakes(after)
            && |w.jobs| <= |after|
            && forall j :: 0 <= j < |w.jobs| && !PendingWake(a)(w.jobs[j]) ==> after[j] == w.jobs[j]
  {
    Reachable(steps);
    var w := After(INIT, steps);
    UpsertKeeps(w.jobs, w.automations, w.automations[a].contact, a, runAt);
    CountOfUnique(Upsert(w.jobs, w.automations[a].contact, a, runAt), a);
  }

  /** At most one pending wake-up per automation, in every reachable state. */
  lemma {:induction false} OnePendingWakeUp(steps: seq<Step>, a: AutomationId)
    ensures Count(After(INIT, steps).jobs, PendingWake(a)) <= 1
    ensures var jobs := After(INIT, steps).jobs;
            forall i, j :: 0 <= i < j < |jobs| && Waiting(jobs[i], a) ==> !Waiting(jobs[j], a)
  {
    Reachable(steps);
    var jobs := After(INIT, steps).jobs;
    CountOfUnique(jobs, a);
    forall i, j | 0 <= i < j < |jobs| && Waiting(jobs[i], a) ensures !Waiting(jobs[j], a) {
      assert ArmedWake(jobs[i]);
      if Waiting(jobs[j], a) { assert ArmedWake(jobs[j]); }
    }
  }

  /** A cancelled automation has no next run and never changes again. */
  lemma {:induction false} CancelledIsFinal(steps: seq<Step>, more: seq<Step>, a: AutomationId)
    ensures var w := After(INIT, steps);
            var v := After(w, more);
            a < |w.automations| && w.automations[a].status.Cancelled? ==>
              a < |v.automations| && v.automations[a] == w.automations[a] && v.automations[a].nextRunAt.None?
  {
    Reachable(steps);
    RunKeeps(After(INIT, steps), more);
    var w := After(INIT, steps);
    if a < |w.automations| { assert AutomationOk(w, a); }
  }

  // ----------------------------------------------------------------- retries

  /** What the accounting of one row comes to. */
  predicate Accounted(j: Job) {
    && j.attempts == j.failures + j.recoveries
    && j.starts <= j.maxAttempts + j.recoveries
    && j.failures <= j.maxAttempts
    && j.waited <= 300 * j.maxAttempts
    && (j.status.Dead? ==> j.attempts >= j.maxAttempts && j.failures >= 1)
  }

  lemma OkIsAccounted(j: Job)
    requires JobOk(j)
    ensures Accounted(j)
  {}

  /** RETRY ACCOUNTING: attempts are failures plus recoveries; a job starts its
      handler at most `maxAttempts` times beyond its recoveries, so one that is
      never recovered starts it at most `maxAttempts` times in all, and the
      backoff imposed on it is bounded. */
  lemma {:induction false} RetryAccounting(steps: seq<Step>, j: JobId)
    requires j < |After(INIT, steps).jobs|
    ensures Accounted(After(INIT, steps).jobs[j])
  {
    Reachable(steps);
    OkIsAccounted(After(INIT, steps).jobs[j]);
  }

  /** The failures a job has left before it is dead-lettered at the latest. */
  function Budget(j: Job): int { j.maxAttempts - j.failures }

  lemma FailureSpendsBudget(j: Job, now: Instant)
    requires JobOk(j) && j.status.Running?
    ensures Budget(Failed(j, now)) == Budget(j) - 1
    ensures Budget(j) == 1 ==> Failed(j, now).status.Dead?
    ensures Failed(j, now).status.Pending? ==>
              && Budget(Failed(j, now)) >= 1
              && Failed(j, now).runAt == now + BackoffSeconds(j.attempts + 1) * SECOND
  {}

  /** No step of any kind raises a job's budget or overdraws it, so every recorded
      failure lowers it for good. */
  lemma {:induction false} BudgetNeverRises(steps: seq<Step>, more: seq<Step>, j: JobId)
    ensures var w := After(INIT, steps);
            var v := After(w, more);
            j < |w.jobs| ==> j < |v.jobs| && 0 <= Budget(v.jobs[j]) <= Budget(w.jobs[j])
  {
    Reachable(steps);
    RunKeeps(After(INIT, steps), more);
    var v := After(After(INIT, steps), more);
    if j < |v.jobs| { OkIsAccounted(v.jobs[j]); }
  }

  /** DONE and DEAD rows are frozen, so a second completion changes nothing. */
  lemma {:induction false} FinishedJobsAreFrozen(steps: seq<Step>, more: seq<Step>, j: JobId)
    ensures var w := After(INIT, steps);
            var v := After(w, more);
            j < |w.jobs| && (w.jobs[j].status.Done? || w.jobs[j].status.Dead?) ==>
              j < |v.jobs| && v.jobs[j] == w.jobs[j] && Complete(v.jobs, j) == v.jobs
  {
    Reachable(steps);
    RunKeeps(After(INIT, steps), more);
  }

  /** The delay after failure n is nondecreasing, and is 2^n exactly while
      n <= 8 and 300 seconds from then on. */
  lemma BackoffSchedule(m: nat, n: nat)
    requires m <= n
    ensures BackoffSeconds(m) <= BackoffSeconds(n) <= 300
    ensures BackoffSeconds(n) == Power2(n) <==> n <= 8
    ensures BackoffSeconds(n) == if n <= 8 then [1, 2, 4, 8, 16, 32, 64, 128, 256][n] else 300
  {
    BackoffTable(m);
    BackoffTable(n);
    PowerGrows(m, n);
    if n > 8 { PowerGrows(9, n); }
  }

  /** Each crash of a worker and recovery of its job is one more attempt. */
  function CrashOnce(steps: seq<Step>): seq<Step> {
    steps + [ClaimJob(0)] + [Execution(L.Tick(STALE_LOCK + 1))] + [RecoverStaleJobs(true)]
  }

  function CrashLoop(n: nat): seq<Step> {
    if n == 0 then [EnqueueOther(7, 0)] else CrashOnce(CrashLoop(n - 1))
  }

  predicate Recovered(w: World, n: nat) {
    && w.Now() >= 0 && |w.jobs| == 1
    && w.jobs[0].status.Pending? && w.jobs[0].payload.OtherWork? && w.jobs[0].runAt == 0 && w.jobs[0].attempts == n
  }

  lemma AfterRound(w: World, n: nat)
    requires Recovered(w, n)
    ensures var u := Apply(Apply(w, ClaimJob(0)), Execution(L.Tick(STALE_LOCK + 1)));
            Recovered(Apply(u, RecoverStaleJobs(true)), n + 1)
  {
    var u := Apply(Apply(w, ClaimJob(0)), Execution(L.Tick(STALE_LOCK + 1)));
    assert u.jobs == [Started(w.jobs[0], w.Now())] && u.Now() == w.Now() + STALE_LOCK + 1;
    assert StaleAt(u.Now() - STALE_LOCK)(u.jobs[0]);
    assert UpdateWhere(u.jobs, StaleAt(u.Now() - STALE_LOCK), Requeued()) == [Requeued()(u.jobs[0])];
  }

  /** CRASHES ARE NOT CAPPED: recovery never dead-letters, so for every n some
      run leaves a job pending after n attempts, whatever its `maxAttempts`. */
  lemma {:induction false} CrashesAreNotCapped(n: nat)
    ensures Recovered(After(INIT, CrashLoop(n)), n)
  {
    if n == 0 {
      AfterAppend(INIT, [], EnqueueOther(7, 0));
      assert CrashLoop(0) == [] + [EnqueueOther(7, 0)];
    } else {
      CrashesAreNotCapped(n - 1);
      NextCrash(CrashLoop(n - 1), n - 1);
    }
  }

  lemma NextCrash(s: seq<Step>, n: nat)
    requires Recovered(After(INIT, s), n)
    ensures Recovered(After(INIT, CrashOnce(s)), n + 1)
  {
    var crash := Execution(L.Tick(STALE_LOCK + 1));
    AfterAppend(INIT, s, ClaimJob(0));
    AfterAppend(INIT, s + [ClaimJob(0)], crash);
    AfterAppend(INIT, s + [ClaimJob(0)] + [crash], RecoverStaleJobs(true));
    AfterRound(After(INIT, s), n);
  }

  // ----------------------------------------------------------------- records

  /** FAITHFUL RECORD: the recorded outcome of the last occurrence is the mapped
      terminal status of the run of that very occurrence, or skipped when there
      was none. It is checked against the state at the end of the run, so it
      stays true after it was written; success is never recorded by default. */
  lemma {:induction false} RecordedOutcomeIsFaithful(steps: seq<Step>, a: AutomationId)
    requires var w := After(INIT, steps); a < |w.automations| && w.automations[a].lastStatus.Some?
    ensures var w := After(INIT, steps);
            var row := w.automations[a];
            var runs := w.exec.db.runs;
            && row.lastOccurrence.Some?
            && (row.lastRun.None? <==> row.lastStatus == Some(RunSkipped))
            && (row.lastRun.Some? ==>
                 && row.lastRun.value < |runs| && E.Terminal(runs[row.lastRun.value].status)
                 && runs[row.lastRun.value].contact == row.contact
                 && runs[row.lastRun.value].key == E.Occurrence(a, OccurrenceSecond(row.lastOccurrence.value))
                 && var ended := runs[row.lastRun.value].status;
                    && (row.lastStatus == Some(RunSucceeded) <==> ended == E.Succeeded)
                    && (row.lastStatus == Some(RunTimedOut) <==> ended == E.TimedOut)
                    && (row.lastStatus == Some(RunCancelled) <==> ended == E.Cancelled)
                    && (row.lastStatus == Some(RunFailed) <==> ended == E.Failed || ended == E.Abandoned))
  {
    Reachable(steps);
    assert AutomationOk(After(INIT, steps), a);
  }

  /** OCCURRENCE ONCE, with workers racing, retrying and overtaking each other: one
      automation's occurrence has at most one run, one event and one result
      re-entry. */
  lemma {:induction false} OneRunPerOccurrence(
    steps: seq<Step>, contact: E.ContactId, a: AutomationId, occurrence: Instant)
    ensures LP.Once(After(INIT, steps).exec, contact, E.Occurrence(a, OccurrenceSecond(occurrence)))
  {
    Reachable(steps);
    LP.OccurrencesAreOnce(After(INIT, steps).exec, contact, E.Occurrence(a, OccurrenceSecond(occurrence)));
  }

  // ---------------------------------------------------- the index as a hazard

  predicate WouldRequeue(jobs: seq<Job>, j: JobId) {
    j < |jobs| && jobs[j].status.Running? && jobs[j].payload.Wake? && jobs[j].attempts + 1 < jobs[j].maxAttempts
  }

  /** Recording a failure aborts exactly when the job would be re-queued while
      its automation already has another pending wake-up. */
  lemma FailAborts(jobs: seq<Job>, j: JobId, now: Instant)
    requires UniqueWakes(jobs)
    ensures Fail(jobs, j, now).None? <==> WouldRequeue(jobs, j) && HasPendingWake(jobs, jobs[j].payload.automation)
  {
    if j < |jobs| && jobs[j].status.Running? {
      var after := jobs[j := Failed(jobs[j], now)];
      if WouldRequeue(jobs, j) && HasPendingWake(jobs, jobs[j].payload.automation) {
        var i :| 0 <= i < |jobs| && Waiting(jobs[i], jobs[j].payload.automation);
        assert ArmedWake(after[i]) && ArmedWake(after[j]);
      }
    }
  }

  /** A stale wake-up whose automation has another wake-up pending or stale. */
  ghost predicate Collides(jobs: seq<Job>, cutoff: Instant) {
    exists i, j :: 0 <= i < |jobs| && 0 <= j < |jobs| && i != j && CollidesAt(jobs[i], jobs[j], cutoff)
  }

  predicate CollidesAt(x: Job, y: Job, cutoff: Instant) {
    && x.payload.Wake? && y.payload.Wake? && x.payload.automation == y.payload.automation
    && LockedBefore(x, cutoff) && (LockedBefore(y, cutoff) || y.status.Pending?)
  }

  /** Recovery is one statement: a single collision keeps every stale job, of
      every contact, from being recovered, and nothing else does. */
  lemma RecoveryBlocked(w: World, crashStop: bool)
    requires UniqueWakes(w.jobs)
    ensures RecoverStale(w.jobs, w.Now()).None? <==> Collides(w.jobs, w.Now() - 10 * 60 * 1_000_000)
    ensures Collides(w.jobs, w.Now() - 10 * 60 * 1_000_000) ==> Apply(w, RecoverStaleJobs(crashStop)) == w
  {
    var cutoff := w.Now() - STALE_LOCK;
    var after := UpdateWhere(w.jobs, StaleAt(cutoff), Requeued());
    if Collides(w.jobs, cutoff) {
      var i, j :| 0 <= i < |w.jobs| && 0 <= j < |w.jobs| && i != j && CollidesAt(w.jobs[i], w.jobs[j], cutoff);
      assert ArmedWake(after[i]) && ArmedWake(after[j]);
    }
  }

  function Row(status: AutomationStatus, next: Instant): Automation {
    Automation(7, "goal", {}, status, Some(next), None, None, None, false, None)
  }

  lemma PausedMidRun()
    ensures var s := [CreateAutomation(7, "goal", {}, 0)] + [ClaimJob(0)] + [PauseAutomation(0, 7)];
            After(INIT, s) == World([Started(NewJob(7, Wake(0, 0), 0), 0)], [Row(Paused, 0)], L.INIT,
                                    [Worker(0, 7, Wake(0, 0), Claimed)])
  {
    var create := CreateAutomation(7, "goal", {}, 0);
    assert [create] == [] + [create];
    AfterAppend(INIT, [], create);
    AfterAppend(INIT, [create], ClaimJob(0));
    AfterAppend(INIT, [create] + [ClaimJob(0)], PauseAutomation(0, 7));
  }

  /** Such a collision is reachable by a pause and a resume during a run. */
  lemma ResumeWhileRunningCollides()
    ensures exists steps :: Collides(After(INIT, steps).jobs, After(INIT, steps).Now() - STALE_LOCK)
  {
    PausedMidRun();
    var s := [CreateAutomation(7, "goal", {}, 0)] + [ClaimJob(0)] + [PauseAutomation(0, 7)];
    var running := After(INIT, s).jobs[0];
    assert !PendingWake(0)(running);
    AfterAppend(INIT, s, ResumeAutomation(0, 7, 9));
    assert After(INIT, s + [ResumeAutomation(0, 7, 9)]).jobs == [running, NewJob(7, Wake(0, 9), 9)];
    AfterAppend(INIT, s + [ResumeAutomation(0, 7, 9)], Execution(L.Tick(STALE_LOCK + 1)));
    var steps := s + [ResumeAutomation(0, 7, 9)] + [Execution(L.Tick(STALE_LOCK + 1))];
    var w := After(INIT, steps);
    assert CollidesAt(w.jobs[0], w.jobs[1], w.Now() - STALE_LOCK);
  }
}
