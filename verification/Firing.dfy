/** One automation occurrence fired from its due wake-up to its close, step by step:
    what is recorded, with which outcome, and what is armed next. */
module Firing {
  import opened Wrappers
  import opened Table
  import opened Scheduler
  import opened WakeUps
  import opened WakeUpProperties
  import E = Executions
  import L = Lifecycle
  import Interaction
  import Text
  import TextFacts
  import LR = LifecycleRuns
  import WakeUpTheorems

  /** An active automation is paused, a paused one resumed with its next run, and any that
      is not cancelled is cancelled and has no next run. */
  predicate Changed(before: Automation, after: Automation, s: Step) {
    match s
    case PauseAutomation(_, _) => after == if before.status == Active then before.(status := Paused) else before
    case ResumeAutomation(_, _, next) =>
      after == if before.status == Paused then before.(status := Active, nextRunAt := Some(next)) else before
    case CancelAutomation(_, _) =>
      after == if before.status in {Active, Paused} then before.(status := Scheduler.Cancelled, nextRunAt := None)
               else before
    case _ => true
  }

  /** WHAT THE PERSON CHANGES: one automation, if it is theirs; and resuming it leaves its
      next run waiting. */
  lemma PersonChanges(w: World, a: AutomationId, contact: E.ContactId, next: Instant, s: Step)
    requires Inv(w) && a < |w.automations|
    requires s == PauseAutomation(a, contact) || s == ResumeAutomation(a, contact, next)
             || s == CancelAutomation(a, contact)
    ensures var v := Apply(w, s);
            var row := w.automations[a];
            if row.contact != contact then v == w
            else
              && |v.automations| == |w.automations| && Changed(row, v.automations[a], s)
              && v == w.(jobs := v.jobs, automations := w.automations[a := v.automations[a]])
              && if s.ResumeAutomation? && row.status == Paused then
                   HasPendingWake(v.jobs, a) && AllAt(v.jobs, a, next)
                 else v.jobs == w.jobs
  {
    if s.ResumeAutomation? && SetStatus(w.automations, a, contact, Active, Some(next)).1 {
      UpsertKeeps(w.jobs, w.automations, contact, a, next);
    }
  }

  /** A new automation is active and has never run, and its first wake-up waits. */
  lemma CreatedIsArmed(w: World, contact: E.ContactId, goal: string, toolkits: set<string>, next: Instant)
    requires Inv(w)
    ensures var v := Apply(w, CreateAutomation(contact, goal, toolkits, next));
            && v == w.(jobs := v.jobs, automations := v.automations)
            && v.automations == w.automations + [
                 Automation(contact, goal, toolkits, Active, Some(next), None, None, None, false, None)]
            && v.jobs == w.jobs + [
                 Job(contact, Wake(|w.automations|, next), next, JobStatus.Pending, 0, 5, None, 0, 0, 0, 0)]
  {
    NoWakeYet(w, |w.automations|);
  }

  lemma NoWakeYet(w: World, a: AutomationId)
    requires Inv(w) && a >= |w.automations|
    ensures FindLast(w.jobs, PendingWake(a)).None?
  {}

  /** The due wake-up p of automation a, with its occurrence. */
  predicate DueWake(w: World, p: JobId, a: AutomationId, occurrence: Instant) {
    && p < |w.jobs| && w.jobs[p].status == Pending && w.jobs[p].runAt <= w.Now()
    && w.jobs[p].payload == Wake(a, occurrence)
    && a < |w.automations| && w.automations[a].contact == w.jobs[p].contact
  }

  /** What a worker that has claimed the wake-up and read its automation does next. */
  predicate Decided(w: World, a: AutomationId, occurrence: Instant, pc: Pc)
    requires a < |w.automations|
  {
    var row := w.automations[a];
    if row.status != Active then pc == Returned
    else if row.lastStatus.Some? && row.lastOccurrence == Some(occurrence) then pc == DuplicateSeen(row.nextRunAt)
    else pc == Firing(w.Now() > occurrence + 2 * 60 * 1_000_000)
  }

  /** Claiming starts the job once more; then a paused or cancelled automation is left
      alone, a recorded occurrence recognised, and any other one fired, as a catch-up
      if it is more than two minutes late. */
  lemma ClaimDecides(w: World, p: JobId, a: AutomationId, occurrence: Instant)
    requires DueWake(w, p, a, occurrence)
    ensures var k := |w.workers|;
            var v := Apply(Apply(w, ClaimJob(p)), LoadRow(k));
            && v.jobs == w.jobs[p := w.jobs[p].(
                 status := Running, lockedAt := Some(w.Now()), starts := w.jobs[p].starts + 1)]
            && v.automations == w.automations && v.exec == w.exec && |v.workers| == k + 1
            && v.workers[k] == Worker(p, w.jobs[p].contact, Wake(a, occurrence), v.workers[k].pc)
            && Decided(w, a, occurrence, v.workers[k].pc)
  {
    var k := |w.workers|;
    var u := Apply(w, ClaimJob(p));
    assert u.workers[k] == Worker(p, w.jobs[p].contact, Wake(a, occurrence), Claimed);
  }

  /** Worker k fires the occurrence of automation a for its contact. */
  predicate Fires(w: World, k: nat, a: AutomationId, occurrence: Instant, late: bool) {
    && k < |w.workers| && a < |w.automations| && w.workers[k].payload == Wake(a, occurrence)
    && w.workers[k].contact == w.automations[a].contact && w.workers[k].pc == Firing(late)
  }

  function KeyAt(a: AutomationId, occurrence: Instant): E.DedupeKey { E.Occurrence(a, occurrence / 1_000_000) }

  /** The words of the goal with single blanks between. */
  function GoalOf(row: Automation): string { Text.Join(TextFacts.Words(row.goal), ' ') }

  /** Without its toolkits or a goal the occurrence is skipped; without a free slot the
      worker raises; else the automation's goal runs with its toolkits and the local
      one under the occurrence's key. */
  lemma FiringStarts(w: World, k: nat, a: AutomationId, occurrence: Instant, late: bool, available: bool)
    requires Fires(w, k, a, occurrence, late)
    requires !E.HasKey(w.exec.db.runs, w.automations[a].contact, KeyAt(a, occurrence))
    ensures var row, contact := w.automations[a], w.automations[a].contact;
            var v := Apply(w, Fire(k, available));
            && v.jobs == w.jobs && v.automations == w.automations
            && v.workers == w.workers[k := w.workers[k].(pc := v.workers[k].pc)]
            && if !available || GoalOf(row) == "" then
                 v.exec == w.exec && v.workers[k].pc == Closing(RunSkipped, None, late)
               else if |E.InFlight(w.exec.db.runs, contact)| >= 2 then v.exec == w.exec && v.workers[k].pc == Raised
               else
                 && LR.Opened(w.exec, v.exec, contact, GoalOf(row), row.toolkits + {"local"}, KeyAt(a, occurrence))
                 && v.workers[k].pc == Awaiting(|w.exec.tasks|, |w.exec.db.runs|, late)
  {
    var row := w.automations[a];
    TextFacts.SqueezedIsJoined(row.goal);
    LR.ScheduledOpens(w.exec, row.contact, GoalOf(row), row.toolkits + {LOCAL_TOOLKIT}, a, occurrence / 1_000_000);
  }

  /** The outcome recorded for a run in each terminal status. */
  predicate Records(last: LastRun, ended: E.Status) {
    match ended
    case Succeeded => last == RunSucceeded
    case Failed => last == RunFailed
    case TimedOut => last == RunTimedOut
    case Cancelled => last == RunCancelled
    case Abandoned => last == RunFailed
    case _ => false
  }

  /** Awaited or found over, an ended run gives its outcome, and an unended one raises
      when it was awaited. */
  lemma OutcomeIsTheRuns(w: World, k: nat, run: E.RunId, late: bool)
    requires k < |w.workers| && w.workers[k].payload.Wake? && run < |w.exec.db.runs|
    requires w.workers[k].pc == Rereading(run, late)
             || (w.workers[k].pc.Awaiting? && w.workers[k].pc.run == run && w.workers[k].pc.catchUp == late
                 && w.workers[k].pc.task < |w.exec.tasks| && w.exec.tasks[w.workers[k].pc.task].pc == L.Ended)
    ensures var ended := w.exec.db.runs[run].status;
            var s := if w.workers[k].pc.Rereading? then Reread(k) else Join(k);
            var v := Apply(w, s);
            && v == WithPc(w, k, v.workers[k].pc)
            && (ended in {E.Succeeded, E.Failed, E.TimedOut, E.Cancelled, E.Abandoned} ==>
                 && v.workers[k].pc.Closing? && Records(v.workers[k].pc.last, ended)
                 && v.workers[k].pc == Closing(v.workers[k].pc.last, Some(run), late))
            && (ended in {E.Pending, E.Running, E.CancelRequested} && w.workers[k].pc.Awaiting? ==>
                 v.workers[k].pc == Raised)
  {}

  /** What the closing block leaves of the automation, its job and its wake-ups. */
  ghost predicate Closed(
    before: seq<Job>, autos: seq<Automation>, after: seq<Job>, recorded: seq<Automation>, j: JobId, a: AutomationId,
    stamp: Stamp, next: Option<Instant>, now: Instant)
  {
    && a < |autos| && j < |before| && j < |after|
    && recorded == autos[a := autos[a].(
         lastStatus := Some(stamp.last), lastOccurrence := Some(stamp.occurrence), lastRun := stamp.run,
         lastWasCatchUp := stamp.catchUp, lastRunAt := Some(now), nextRunAt := next)]
    && (before[j].status == Running ==> after[j] == before[j].(status := Done, lockedAt := None))
    && (next.Some? ==> HasPendingWake(after, a) && AllAt(after, a, next.value))
  }

  lemma BlockCloses(
    jobs: seq<Job>, autos: seq<Automation>, j: JobId, a: AutomationId, contact: E.ContactId, stamp: Stamp,
    next: Option<Instant>, now: Instant)
    requires TableOk(jobs, autos) && j < |jobs| && Owned(autos, a, contact) && autos[a].status == Active
    ensures var (after, recorded) := CloseBlock(jobs, autos, j, a, contact, stamp, next, now);
            Closed(jobs, autos, after, recorded, j, a, stamp, next, now)
  {
    CompleteKeeps(jobs, autos, j);
    if next.Some? { UpsertKeeps(Complete(jobs, j), autos, contact, a, next.value); }
  }

  /** CLOSING RECORDS AND ARMS: the active automation takes the outcome, its occurrence,
      its run, its lateness, the time and the next run; the job is done; and the next
      wake-up, if there is one, waits at the next run. */
  lemma ClosingRecords(w: World, k: nat, next: Option<Instant>)
    requires Inv(w) && HandlesWake(w, k) && w.workers[k].pc.Closing?
    requires w.automations[w.workers[k].payload.automation].status == Active
    ensures var x := w.workers[k];
            var v := Apply(w, CloseWakeUp(k, next));
            var stamp := Stamp(x.payload.occurrence, x.pc.last, x.pc.recorded, x.pc.catchUp);
            && Closed(w.jobs, w.automations, v.jobs, v.automations, x.job, x.payload.automation, stamp, next, w.Now())
            && v.workers[k].pc == Returned
  {
    var x := w.workers[k];
    assert WorkerOk(w, x);
    var stamp := Stamp(x.payload.occurrence, x.pc.last, x.pc.recorded, x.pc.catchUp);
    BlockCloses(w.jobs, w.automations, x.job, x.payload.automation, x.contact, stamp, next, w.Now());
  }

  /** The job is done, and the next wake-up, if there is one, waits where it was to be. */
  ghost predicate Passed(before: seq<Job>, after: seq<Job>, j: JobId, a: AutomationId, next: Option<Instant>) {
    && j < |before| && j < |after|
    && (before[j].status == Running ==> after[j] == before[j].(status := Done, lockedAt := None))
    && (next.Some? ==> HasPendingWake(after, a) && AllAt(after, a, next.value))
  }

  lemma DuplicatePasses(
    jobs: seq<Job>, autos: seq<Automation>, j: JobId, a: AutomationId, contact: E.ContactId, next: Option<Instant>)
    requires TableOk(jobs, autos) && j < |jobs| && Owned(autos, a, contact)
    ensures Passed(jobs, DuplicateBlock(jobs, j, a, contact, next), j, a, next)
  {
    CompleteKeeps(jobs, autos, j);
    if next.Some? { UpsertKeeps(Complete(jobs, j), autos, contact, a, next.value); }
  }

  /** A recorded occurrence is closed without running, its automation left as it was. */
  lemma DuplicateCloses(w: World, k: nat)
    requires Inv(w) && HandlesWake(w, k) && w.workers[k].pc.DuplicateSeen?
    ensures var v := Apply(w, CloseDuplicate(k));
            && v.automations == w.automations && v.exec == w.exec && v.workers[k].pc == Returned
            && Passed(w.jobs, v.jobs, w.workers[k].job, w.workers[k].payload.automation, w.workers[k].pc.next)
  {
    var x := w.workers[k];
    assert WorkerOk(w, x);
    DuplicatePasses(w.jobs, w.automations, x.job, x.payload.automation, x.contact, x.pc.next);
  }

  // ----------------------------------------------------------- how a worker ends

  /** Whatever a worker does may raise, and any job but a wake-up returns; a returned job is
      completed, and the worker is done with it. */
  lemma WorkerReturns(w: World, k: nat)
    requires k < |w.workers|
    ensures w.workers[k].pc !in {Pc.Returned, Pc.Gone} ==> Apply(w, Throw(k)) == WithPc(w, k, Raised)
    ensures w.workers[k].pc == Claimed && w.workers[k].payload == OtherWork ==>
              Apply(w, OtherDone(k)) == WithPc(w, k, Returned)
    ensures var j := w.workers[k].job;
            w.workers[k].pc == Returned ==>
              Apply(w, CompleteReturned(k)) == WithPc(w.(jobs :=
                if j < |w.jobs| && w.jobs[j].status == Running then
                  w.jobs[j := w.jobs[j].(status := Done, lockedAt := None)]
                else w.jobs), k, Gone)
  {}

  /** A raised job fails once, unless that would queue a second wake-up of its automation;
      the worker is done with it either way. */
  lemma WorkerFails(w: World, k: nat)
    requires k < |w.workers| && w.workers[k].pc == Raised && UniqueWakes(w.jobs)
    ensures var j := w.workers[k].job;
            var v := Apply(w, MarkFailed(k));
            && v == WithPc(w.(jobs := v.jobs), k, Gone) && |v.jobs| == |w.jobs|
            && (forall i :: 0 <= i < |w.jobs| && i != j ==> v.jobs[i] == w.jobs[i])
            && if !(j < |w.jobs| && w.jobs[j].status == Running) then v.jobs == w.jobs
               else if WakeUpTheorems.WouldRequeue(w.jobs, j) && HasPendingWake(w.jobs, w.jobs[j].payload.automation)
               then v.jobs == w.jobs
               else FailedOnce(w.jobs[j], v.jobs[j], w.Now())
  {
    var j := w.workers[k].job;
    WakeUpTheorems.FailAborts(w.jobs, j, w.Now());
    if j < |w.jobs| { BackoffTable(w.jobs[j].attempts + 1); }
  }

  // ------------------------------------------------------------ from end to end

  /** The steps of a fired occurrence with nothing between. */
  function Fired(
    w: World, p: JobId, end: L.AgentEnd, e: Interaction.Event, s: Interaction.Script, next: Option<Instant>): World
  {
    var k, t := |w.workers|, |w.exec.tasks|;
    Apply(Apply(Worked(Apply(Apply(Apply(w, ClaimJob(p)), LoadRow(k)), Fire(k, true)), t, end, e, s), Join(k)),
          CloseWakeUp(k, next))
  }

  /** The execution of task t from its claim to the acknowledgement. */
  function Worked(w: World, t: nat, end: L.AgentEnd, e: Interaction.Event, s: Interaction.Script): World {
    w.(exec :=
      L.Apply(
        L.Apply(
          L.Apply(L.Apply(L.Apply(w.exec, L.ClaimRun(t)), L.AgentEnds(t, end)), L.FinishRun(t)),
          L.Reenter(t, e, s)),
        L.Acknowledge(t)))
  }

  lemma WorkedKeeps(w: World, t: nat, end: L.AgentEnd, e: Interaction.Event, s: Interaction.Script)
    requires Inv(w)
    ensures Inv(Worked(w, t, end, e, s))
  {
    var u := Apply(w, Execution(L.ClaimRun(t)));
    StepKeeps(w, Execution(L.ClaimRun(t)));
    var v := Apply(u, Execution(L.AgentEnds(t, end)));
    StepKeeps(u, Execution(L.AgentEnds(t, end)));
    var x := Apply(v, Execution(L.FinishRun(t)));
    StepKeeps(v, Execution(L.FinishRun(t)));
    var y := Apply(x, Execution(L.Reenter(t, e, s)));
    StepKeeps(x, Execution(L.Reenter(t, e, s)));
    StepKeeps(y, Execution(L.Acknowledge(t)));
  }

  lemma WorkEnds(w: World, t: nat, r: E.RunId, end: L.AgentEnd, e: Interaction.Event, s: Interaction.Script)
    requires LR.AboutToClaim(w.exec, t, r)
    ensures var v := Worked(w, t, end, e, s);
            && |v.exec.db.runs| == |w.exec.db.runs| && LR.EndedAs(end, v.exec.db.runs[r])
            && t < |v.exec.tasks| && v.exec.tasks[t].pc == L.Ended && v.Now() == w.Now()
  {
    LR.RunEndsAsItsAgent(w.exec, t, r, end);
    var u := L.Apply(L.Apply(L.Apply(w.exec, L.ClaimRun(t)), L.AgentEnds(t, end)), L.FinishRun(t));
    LR.ReentryAcknowledges(u, t, e, s);
  }

  /** The occurrence is to be fired, and its run can start. */
  ghost predicate CanFire(w: World, p: JobId, a: AutomationId, occurrence: Instant) {
    && DueWake(w, p, a, occurrence) && w.automations[a].status == Active && GoalOf(w.automations[a]) != ""
    && !(w.automations[a].lastStatus.Some? && w.automations[a].lastOccurrence == Some(occurrence))
    && !E.HasKey(w.exec.db.runs, w.automations[a].contact, KeyAt(a, occurrence))
    && |E.InFlight(w.exec.db.runs, w.automations[a].contact)| < 2
  }

  /** The status in which the agent's end leaves its run. */
  function StatusOf(end: L.AgentEnd): E.Status {
    match end
    case TimeoutExpired => E.TimedOut
    case TaskCancelled => E.Cancelled
    case AgentRaised(_) => E.Failed
    case Output(outcome, _, mustStageEmail, staged) =>
      if outcome.OutcomeSucceeded? && (mustStageEmail ==> staged) then E.Succeeded else E.Failed
  }

  /** The worker of a started occurrence waits for its run. */
  predicate Awaits(w: World, u: World, p: JobId, a: AutomationId, occurrence: Instant) {
    var k := |w.workers|;
    && p < |w.jobs| && p < |u.jobs| && u.automations == w.automations && |u.workers| == k + 1 && u.Now() == w.Now()
    && u.workers[k] == Worker(p, w.jobs[p].contact, Wake(a, occurrence),
                              Awaiting(|w.exec.tasks|, |w.exec.db.runs|, w.Now() > occurrence + 2 * 60 * 1_000_000))
    && u.jobs[p] == w.jobs[p].(status := Running, lockedAt := Some(w.Now()), starts := w.jobs[p].starts + 1)
    && LR.AboutToClaim(u.exec, |w.exec.tasks|, |w.exec.db.runs|)
  }

  lemma StartsAre(w: World, p: JobId, a: AutomationId, occurrence: Instant)
    requires CanFire(w, p, a, occurrence)
    ensures var k := |w.workers|;
            Awaits(w, Apply(Apply(Apply(w, ClaimJob(p)), LoadRow(k)), Fire(k, true)), p, a, occurrence)
  {
    var k := |w.workers|;
    var v := Apply(Apply(w, ClaimJob(p)), LoadRow(k));
    ClaimDecides(w, p, a, occurrence);
    FiringStarts(v, k, a, occurrence, w.Now() > occurrence + 2 * 60 * 1_000_000, true);
  }

  lemma StartsKeep(w: World, p: JobId, k: nat)
    requires Inv(w)
    ensures Inv(Apply(Apply(Apply(w, ClaimJob(p)), LoadRow(k)), Fire(k, true)))
  {
    StepKeeps(w, ClaimJob(p));
    var u := Apply(w, ClaimJob(p));
    StepKeeps(u, LoadRow(k));
    StepKeeps(Apply(u, LoadRow(k)), Fire(k, true));
  }

  /** FIRED TO THE END: the automation records the outcome of the run that its goal was
      given, the occurrence, the run and whether it was late; its job is done, and its
      next wake-up waits at the next run. */
  lemma FiredToTheEnd(
    w: World, p: JobId, a: AutomationId, occurrence: Instant, end: L.AgentEnd, e: Interaction.Event,
    s: Interaction.Script, next: Option<Instant>)
    requires Inv(w) && CanFire(w, p, a, occurrence)
    ensures var v := Fired(w, p, end, e, s, next);
            && a < |v.automations| && p < |v.jobs|
            && v.automations[a].lastStatus.Some? && Records(v.automations[a].lastStatus.value, StatusOf(end))
            && v.automations[a] == w.automations[a].(
                 lastStatus := v.automations[a].lastStatus, lastOccurrence := Some(occurrence),
                 lastRun := Some(|w.exec.db.runs|), lastWasCatchUp := w.Now() > occurrence + 2 * 60 * 1_000_000,
                 lastRunAt := Some(w.Now()), nextRunAt := next)
            && v.jobs[p] == w.jobs[p].(status := Done, lockedAt := None, starts := w.jobs[p].starts + 1)
            && (next.Some? ==> HasPendingWake(v.jobs, a) && AllAt(v.jobs, a, next.value))
  {
    var k, t, r := |w.workers|, |w.exec.tasks|, |w.exec.db.runs|;
    StartsAre(w, p, a, occurrence);
    StartsKeep(w, p, k);
    var u := Apply(Apply(Apply(w, ClaimJob(p)), LoadRow(k)), Fire(k, true));
    WorkedKeeps(u, t, end, e, s);
    WorkEnds(u, t, r, end, e, s);
    var x := Worked(u, t, end, e, s);
    StepKeeps(x, Join(k));
    OutcomeIsTheRuns(x, k, r, w.Now() > occurrence + 2 * 60 * 1_000_000);
    ClosingRecords(Apply(x, Join(k)), k, next);
  }
}
