/** Automation occurrences over the durable queue as a protocol: worker replicas
    (app/worker/loop.py, app/services/automation.py), the person creating,
    pausing, resuming and cancelling (app/agent/automation_tools.py), stale
    recovery, and every step of the execution lifecycle, in any interleaving. */
module WakeUps {
  import opened Wrappers
  import opened Table
  import opened Scheduler
  import E = Executions
  import L = Lifecycle
  import Text

  /** Where a worker stands in the job it claimed. */
  datatype Pc =
    | Claimed
    | DuplicateSeen(next: Option<Instant>)
    | Firing(catchUp: bool)
    | Awaiting(task: nat, run: E.RunId, catchUp: bool)
    | Rereading(run: E.RunId, catchUp: bool)
    | Closing(last: LastRun, recorded: Option<E.RunId>, catchUp: bool)
    | Raised
    | Returned
    | Gone

  /** A worker keeps the job row it claimed as a snapshot. */
  datatype Worker = Worker(job: JobId, contact: E.ContactId, payload: Payload, pc: Pc)

  datatype World = World(jobs: seq<Job>, automations: seq<Automation>, exec: L.World, workers: seq<Worker>) {
    function Now(): Instant { exec.db.now }
  }

  const INIT := World([], [], L.INIT, [])

  datatype Step =
    | Execution(step: L.Step)
    | CreateAutomation(contact: E.ContactId, goal: string, toolkits: set<string>, next: Instant)
    | PauseAutomation(automation: AutomationId, contact: E.ContactId)
    | ResumeAutomation(automation: AutomationId, contact: E.ContactId, next: Instant)
    | CancelAutomation(automation: AutomationId, contact: E.ContactId)
    | EnqueueOther(contact: E.ContactId, runAt: Instant)
    | ClaimJob(job: JobId)
    | LoadRow(worker: nat)
    | CloseDuplicate(worker: nat)
    | Fire(worker: nat, available: bool)
    | Join(worker: nat)
    | Reread(worker: nat)
    | CloseWakeUp(worker: nat, computed: Option<Instant>)
    | OtherDone(worker: nat)
    | Throw(worker: nat)
    | MarkFailed(worker: nat)
    | CompleteReturned(worker: nat)
    | CrashWorker(worker: nat)
    | RecoverStaleJobs(crashStop: bool)

  function OccurrenceSecond(occurrence: Instant): int { occurrence / SECOND }

  function KeyOf(p: Payload): E.DedupeKey
    requires p.Wake?
  {
    E.Occurrence(p.automation, OccurrenceSecond(p.occurrence))
  }

  /** `_LAST_RUN_FROM_EXECUTION`, with its default for anything not terminal. */
  function LastRunFor(s: E.Status): LastRun {
    match s
    case Failed => RunFailed
    case TimedOut => RunTimedOut
    case Cancelled => RunCancelled
    case Abandoned => RunFailed
    case _ => RunSucceeded
  }

  function IsCatchUp(scheduled: Instant, now: Instant): bool { now > scheduled + CATCH_UP_GRACE }

  function WithPc(w: World, k: nat, pc: Pc): World
    requires k < |w.workers|
  {
    w.(workers := w.workers[k := w.workers[k].(pc := pc)])
  }

  function ClaimStep(w: World, j: JobId): World
    requires j < |w.jobs|
  {
    var job := w.jobs[j];
    w.(jobs := w.jobs[j := Started(job, w.Now())],
       workers := w.workers + [Worker(j, job.contact, job.payload, Claimed)])
  }

  function AfterLoad(w: World, k: nat): Pc
    requires k < |w.workers| && w.workers[k].payload.Wake?
  {
    var worker := w.workers[k];
    var a := worker.payload.automation;
    if !Owned(w.automations, a, worker.contact) || !w.automations[a].status.Active? then Returned
    else
      var row := w.automations[a];
      if row.lastStatus.Some? && row.lastOccurrence == Some(worker.payload.occurrence) then DuplicateSeen(row.nextRunAt)
      else Firing(IsCatchUp(worker.payload.occurrence, w.Now()))
  }

  function DuplicateStep(w: World, k: nat): World
    requires k < |w.workers| && w.workers[k].pc.DuplicateSeen? && w.workers[k].payload.Wake?
  {
    var worker := w.workers[k];
    var jobs := DuplicateBlock(w.jobs, worker.job, worker.payload.automation, worker.contact, worker.pc.next);
    WithPc(w.(jobs := jobs), k, Returned)
  }

  const LOCAL_TOOLKIT := "local"

  /** The goal with every run of whitespace as one blank. */
  function CleanGoal(goal: string): string { Text.Strip(Text.Squeeze(goal)) }

  /** The session block of `run_scheduled_execution` for this occurrence; a blank goal
      or a toolkit that is not connected makes it unavailable. */
  function FireStep(w: World, k: nat, available: bool): World
    requires k < |w.workers| && w.workers[k].pc.Firing? && w.workers[k].payload.Wake?
  {
    var worker := w.workers[k];
    var a := worker.payload.automation;
    var late := worker.pc.catchUp;
    if !available || a >= |w.automations| || CleanGoal(w.automations[a].goal) == "" then
      WithPc(w, k, Closing(RunSkipped, None, late))
    else
      var row := w.automations[a];
      var (exec, reply) := L.ScheduledStep(
        w.exec, worker.contact, CleanGoal(row.goal), row.toolkits + {LOCAL_TOOLKIT}, a,
        OccurrenceSecond(worker.payload.occurrence));
      var pc :=
        match reply
        case Busy => Raised
        case AlreadyTerminal(run) => Rereading(run, late)
        case Started(run, task) => Awaiting(task, run, late);
      WithPc(w.(exec := exec), k, pc)
  }

  /** The awaited execution returned: read its row back. */
  function AfterJoin(w: World, run: E.RunId, late: bool): Pc {
    if run < |w.exec.db.runs| && E.Terminal(w.exec.db.runs[run].status) then
      Closing(LastRunFor(w.exec.db.runs[run].status), Some(run), late)
    else Raised
  }

  /** The already-terminal path: a missing row would default to succeeded. */
  function AfterReread(w: World, run: E.RunId, late: bool): Pc {
    Closing(if run < |w.exec.db.runs| then LastRunFor(w.exec.db.runs[run].status) else RunSucceeded, Some(run), late)
  }

  function CloseStep(w: World, k: nat, next: Option<Instant>): World
    requires k < |w.workers| && w.workers[k].pc.Closing? && w.workers[k].payload.Wake?
  {
    var worker := w.workers[k];
    var stamp := Stamp(worker.payload.occurrence, worker.pc.last, worker.pc.recorded, worker.pc.catchUp);
    var (jobs, automations) :=
      CloseBlock(w.jobs, w.automations, worker.job, worker.payload.automation, worker.contact, stamp, next, w.Now());
    WithPc(w.(jobs := jobs, automations := automations), k, Returned)
  }

  /** Recording the failure; the worker dies either way of a refused re-queue. */
  function FailStep(w: World, k: nat): World
    requires k < |w.workers|
  {
    var after := Fail(w.jobs, w.workers[k].job, w.Now());
    WithPc(if after.Some? then w.(jobs := after.value) else w, k, Gone)
  }

  /** Under crash-stop the workers of recovered jobs are dead already. */
  function RecoverStep(w: World, crashStop: bool): World {
    var after := RecoverStale(w.jobs, w.Now());
    if after.None? then w
    else
      var cutoff := w.Now() - STALE_LOCK;
      var workers := seq(|w.workers|, k requires 0 <= k < |w.workers| =>
        var j := w.workers[k].job;
        if crashStop && j < |w.jobs| && StaleAt(cutoff)(w.jobs[j]) then w.workers[k].(pc := Gone) else w.workers[k]);
      w.(jobs := after.value, workers := workers)
  }

  predicate HandlesWake(w: World, k: nat) { k < |w.workers| && w.workers[k].payload.Wake? }

  predicate Enabled(w: World, s: Step) {
    match s
    case ClaimJob(j) => j < |w.jobs| && Claimable(w.jobs[j], w.Now())
    case LoadRow(k) => HandlesWake(w, k) && w.workers[k].pc.Claimed?
    case CloseDuplicate(k) => HandlesWake(w, k) && w.workers[k].pc.DuplicateSeen?
    case Fire(k, _) => HandlesWake(w, k) && w.workers[k].pc.Firing?
    case Join(k) => HandlesWake(w, k) && w.workers[k].pc.Awaiting?
      && w.workers[k].pc.task < |w.exec.tasks| && w.exec.tasks[w.workers[k].pc.task].pc.Ended?
    case Reread(k) => HandlesWake(w, k) && w.workers[k].pc.Rereading?
    case CloseWakeUp(k, _) => HandlesWake(w, k) && w.workers[k].pc.Closing?
    case OtherDone(k) => k < |w.workers| && w.workers[k].payload.OtherWork? && w.workers[k].pc.Claimed?
    case Throw(k) => k < |w.workers| && !w.workers[k].pc.Gone? && !w.workers[k].pc.Returned?
    case MarkFailed(k) => k < |w.workers| && w.workers[k].pc.Raised?
    case CompleteReturned(k) => k < |w.workers| && w.workers[k].pc.Returned?
    case CrashWorker(k) => k < |w.workers|
    case _ => true
  }

  function Apply(w: World, s: Step): World {
    if !Enabled(w, s) then w
    else
      match s
      case Execution(step) => w.(exec := L.Apply(w.exec, step))
      case CreateAutomation(contact, goal, toolkits, next) =>
        var (jobs, automations) := CreateBlock(w.jobs, w.automations, contact, goal, toolkits, next);
        w.(jobs := jobs, automations := automations)
      case PauseAutomation(a, contact) => w.(automations := SetStatus(w.automations, a, contact, Paused, None).0)
      case ResumeAutomation(a, contact, next) =>
        var (jobs, automations) := ResumeBlock(w.jobs, w.automations, a, contact, next);
        w.(jobs := jobs, automations := automations)
      case CancelAutomation(a, contact) => w.(automations := SetStatus(w.automations, a, contact, Cancelled, None).0)
      case EnqueueOther(contact, runAt) => w.(jobs := w.jobs + [NewJob(contact, OtherWork, runAt)])
      case ClaimJob(j) => ClaimStep(w, j)
      case LoadRow(k) => WithPc(w, k, AfterLoad(w, k))
      case CloseDuplicate(k) => DuplicateStep(w, k)
      case Fire(k, available) => FireStep(w, k, available)
      case Join(k) => WithPc(w, k, AfterJoin(w, w.workers[k].pc.run, w.workers[k].pc.catchUp))
      case Reread(k) => WithPc(w, k, AfterReread(w, w.workers[k].pc.run, w.workers[k].pc.catchUp))
      case CloseWakeUp(k, next) => CloseStep(w, k, next)
      case OtherDone(k) => WithPc(w, k, Returned)
      case Throw(k) => WithPc(w, k, Raised)
      case MarkFailed(k) => FailStep(w, k)
      case CompleteReturned(k) => WithPc(w.(jobs := Complete(w.jobs, w.workers[k].job)), k, Gone)
      case CrashWorker(k) => WithPc(w, k, Gone)
      case RecoverStaleJobs(crashStop) => RecoverStep(w, crashStop)
  }

  function After(w: World, steps: seq<Step>): World {
    if steps == [] then w else Apply(After(w, steps[..|steps| - 1]), steps[|steps| - 1])
  }
}
