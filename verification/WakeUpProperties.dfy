/** Safety of every interleaving of workers, people, recovery and executions:
    one pending wake-up per automation, honest retry accounting, faithful run
    records, and - when crashed workers stay dead - no automation lost. */
module WakeUpProperties {
  import opened Wrappers
  import opened Table
  import opened Scheduler
  import opened WakeUps
  import E = Executions
  import L = Lifecycle
  import LP = LifecycleProperties

  // -------------------------------------------------------------- invariant

  /** `attempts` counts failures plus recoveries; a handler start is one attempt
      or the run in progress; only recoveries exceed the attempt budget. */
  predicate JobOk(j: Job) {
    && j.attempts == j.failures + j.recoveries
    && j.starts == j.attempts + (if j.status.Running? || j.status.Done? then 1 else 0)
    && j.maxAttempts >= 1
    && j.failures + (if j.status.Dead? then 0 else 1) <= j.maxAttempts
    && (j.status.Dead? ==> j.attempts >= j.maxAttempts && j.failures >= 1)
    && (j.status.Running? <==> j.lockedAt.Some?)
    && j.waited <= BACKOFF_CAP_SECONDS * j.failures
  }

  ghost predicate JobsOk(w: World) {
    && UniqueWakes(w.jobs)
    && (forall j :: 0 <= j < |w.jobs| ==> JobOk(w.jobs[j]))
    && (forall j :: 0 <= j < |w.jobs| && w.jobs[j].payload.Wake? ==>
         Owned(w.automations, w.jobs[j].payload.automation, w.jobs[j].contact))
  }

  /** A run of this very occurrence that has ended, and the status it maps to. */
  predicate Faithful(
    w: World, contact: E.ContactId, a: AutomationId, occurrence: Instant, last: LastRun, run: Option<E.RunId>)
  {
    if run.None? then last.RunSkipped?
    else
      && LP.IsRunFor(w.exec.db, run.value, contact, E.Occurrence(a, OccurrenceSecond(occurrence)))
      && E.Terminal(w.exec.db.runs[run.value].status)
      && last == LastRunFor(w.exec.db.runs[run.value].status)
  }

  predicate AutomationOk(w: World, a: AutomationId)
    requires a < |w.automations|
  {
    var row := w.automations[a];
    && (row.status.Cancelled? ==> row.nextRunAt.None?)
    && (row.lastStatus.Some? <==> row.lastOccurrence.Some?)
    && (row.lastStatus.Some? ==>
         Faithful(w, row.contact, a, row.lastOccurrence.value, row.lastStatus.value, row.lastRun))
  }

  predicate WorkerOk(w: World, x: Worker) {
    && x.job < |w.jobs|
    && (x.payload.Wake? ==>
         Owned(w.automations, x.payload.automation, x.contact) && IsWakeOf(w.jobs[x.job], x.payload.automation))
    && (x.payload.OtherWork? ==> w.jobs[x.job].payload.OtherWork?)
    && (x.payload.OtherWork? ==> x.pc.Claimed? || x.pc.Raised? || x.pc.Returned? || x.pc.Gone?)
    && (x.pc.Awaiting? ==> LP.IsRunFor(w.exec.db, x.pc.run, x.contact, KeyOf(x.payload)))
    && (x.pc.Rereading? ==>
         LP.IsRunFor(w.exec.db, x.pc.run, x.contact, KeyOf(x.payload)) && E.Terminal(w.exec.db.runs[x.pc.run].status))
    && (x.pc.Closing? ==>
         Faithful(w, x.contact, x.payload.automation, x.payload.occurrence, x.pc.last, x.pc.recorded))
  }

  ghost predicate Inv(w: World) {
    && L.Inv(w.exec)
    && JobsOk(w)
    && (forall a :: 0 <= a < |w.automations| ==> AutomationOk(w, a))
    && (forall k :: 0 <= k < |w.workers| ==> WorkerOk(w, w.workers[k]))
  }

  // ------------------------------------------------------ statements on jobs

  /** Wake-ups keep their automation and contact, no row disappears, failures are
      not forgotten, and a done or dead row never changes again. */
  ghost predicate JobsExtend(before: seq<Job>, after: seq<Job>) {
    && |before| <= |after|
    && forall j :: 0 <= j < |before| ==>
         && after[j].contact == before[j].contact
         && (before[j].payload.Wake? <==> after[j].payload.Wake?)
         && (before[j].payload.Wake? ==> after[j].payload.automation == before[j].payload.automation)
         && after[j].maxAttempts == before[j].maxAttempts && after[j].failures >= before[j].failures
         && (before[j].status.Done? || before[j].status.Dead? ==> after[j] == before[j])
  }

  /** Well-formed jobs over a given automation table. */
  ghost predicate TableOk(jobs: seq<Job>, autos: seq<Automation>) {
    && UniqueWakes(jobs)
    && (forall j :: 0 <= j < |jobs| ==> JobOk(jobs[j]))
    && (forall j :: 0 <= j < |jobs| && jobs[j].payload.Wake? ==>
          Owned(autos, jobs[j].payload.automation, jobs[j].contact))
  }

  lemma BackoffBounds(n: nat)
    ensures 1 <= BackoffSeconds(n) <= BACKOFF_CAP_SECONDS
  {}

  lemma UpsertKeeps(jobs: seq<Job>, autos: seq<Automation>, contact: E.ContactId, a: AutomationId, runAt: Instant)
    requires TableOk(jobs, autos) && Owned(autos, a, contact)
    ensures var after := Upsert(jobs, contact, a, runAt);
            && TableOk(after, autos) && JobsExtend(jobs, after) && OthersKept(jobs, after, a)
            && HasPendingWake(after, a) && AllAt(after, a, runAt)
            && (forall j :: 0 <= j < |jobs| && !PendingWake(a)(jobs[j]) ==> after[j] == jobs[j])
  {
    var existing := FindLast(jobs, PendingWake(a));
    var after := Upsert(jobs, contact, a, runAt);
    if existing.Some? {
      assert PendingWake(a)(after[existing.value]);
    } else {
      assert PendingWake(a)(after[|jobs|]);
    }
  }

  lemma CompleteKeeps(jobs: seq<Job>, autos: seq<Automation>, j: JobId)
    requires TableOk(jobs, autos)
    ensures TableOk(Complete(jobs, j), autos) && JobsExtend(jobs, Complete(jobs, j))
  {}

  lemma ClaimKeeps(jobs: seq<Job>, autos: seq<Automation>, j: JobId, now: Instant)
    requires TableOk(jobs, autos) && j < |jobs| && jobs[j].status.Pending?
    ensures var after := jobs[j := Started(jobs[j], now)]; TableOk(after, autos) && JobsExtend(jobs, after)
  {}

  lemma FailKeeps(jobs: seq<Job>, autos: seq<Automation>, j: JobId, now: Instant)
    requires TableOk(jobs, autos)
    ensures Fail(jobs, j, now).Some? ==>
              TableOk(Fail(jobs, j, now).value, autos) && JobsExtend(jobs, Fail(jobs, j, now).value)
  {
    if j < |jobs| { BackoffBounds(jobs[j].attempts + 1); }
  }

  lemma RecoverKeeps(jobs: seq<Job>, autos: seq<Automation>, now: Instant)
    requires TableOk(jobs, autos)
    ensures RecoverStale(jobs, now).Some? ==>
              TableOk(RecoverStale(jobs, now).value, autos) && JobsExtend(jobs, RecoverStale(jobs, now).value)
  {}

  // ---------------------------------------------------------- whole-world steps

  /** Automations keep their owner, and a cancelled one never changes again. */
  ghost predicate AutomationsExtend(before: seq<Automation>, after: seq<Automation>) {
    && |before| <= |after|
    && forall a :: 0 <= a < |before| ==>
         && after[a].contact == before[a].contact
         && (before[a].status.Cancelled? ==> after[a] == before[a])
  }

  ghost predicate Extends(w: World, v: World) {
    LP.DbExtends(w.exec.db, v.exec.db) && AutomationsExtend(w.automations, v.automations) && JobsExtend(w.jobs, v.jobs)
  }

  lemma FaithfulStays(
    w: World, v: World, contact: E.ContactId, a: AutomationId, occurrence: Instant, last: LastRun, run: Option<E.RunId>)
    requires Faithful(w, contact, a, occurrence, last, run) && LP.DbExtends(w.exec.db, v.exec.db)
    ensures Faithful(v, contact, a, occurrence, last, run)
  {}

  lemma WorkerStays(w: World, v: World, x: Worker)
    requires WorkerOk(w, x) && Extends(w, v)
    ensures WorkerOk(v, x)
  {
    if x.pc.Closing? && x.payload.Wake? {
      FaithfulStays(w, v, x.contact, x.payload.automation, x.payload.occurrence, x.pc.last, x.pc.recorded);
    }
  }

  lemma AutomationStays(w: World, v: World, a: AutomationId)
    requires a < |w.automations| && AutomationOk(w, a) && LP.DbExtends(w.exec.db, v.exec.db)
    requires a < |v.automations| && v.automations[a] == w.automations[a]
    ensures AutomationOk(v, a)
  {
    var row := w.automations[a];
    if row.lastStatus.Some? {
      FaithfulStays(w, v, row.contact, a, row.lastOccurrence.value, row.lastStatus.value, row.lastRun);
    }
  }

  lemma TablesKeep(w: World, jobs: seq<Job>, autos: seq<Automation>)
    requires Inv(w) && TableOk(jobs, autos) && JobsExtend(w.jobs, jobs) && AutomationsExtend(w.automations, autos)
    requires var v := w.(jobs := jobs, automations := autos);
             forall a :: 0 <= a < |autos| ==>
               (a < |w.automations| && autos[a] == w.automations[a]) || AutomationOk(v, a)
    ensures var v := w.(jobs := jobs, automations := autos); Inv(v) && Extends(w, v)
  {
    var v := w.(jobs := jobs, automations := autos);
    forall a | 0 <= a < |autos| ensures AutomationOk(v, a) {
      if a < |w.automations| && autos[a] == w.automations[a] { AutomationStays(w, v, a); }
    }
    forall k | 0 <= k < |v.workers| ensures WorkerOk(v, v.workers[k]) { WorkerStays(w, v, w.workers[k]); }
  }

  lemma ExecKeeps(w: World, exec: L.World)
    requires Inv(w) && L.Inv(exec) && LP.DbExtends(w.exec.db, exec.db)
    ensures Inv(w.(exec := exec)) && Extends(w, w.(exec := exec))
  {
    var v := w.(exec := exec);
    forall a | 0 <= a < |v.automations| ensures AutomationOk(v, a) { AutomationStays(w, v, a); }
    forall k | 0 <= k < |v.workers| ensures WorkerOk(v, v.workers[k]) { WorkerStays(w, v, w.workers[k]); }
  }

  lemma PcKeeps(w: World, k: nat, pc: Pc)
    requires Inv(w) && k < |w.workers| && WorkerOk(w, w.workers[k].(pc := pc))
    ensures Inv(WithPc(w, k, pc)) && Extends(w, WithPc(w, k, pc))
  {
    var v := WithPc(w, k, pc);
    forall a | 0 <= a < |v.automations| ensures AutomationOk(v, a) { AutomationStays(w, v, a); }
    forall q | 0 <= q < |v.workers| ensures WorkerOk(v, v.workers[q]) { WorkerStays(w, v, v.workers[q]); }
  }

  predicate Neutral(pc: Pc) { pc.Claimed? || pc.Raised? || pc.Returned? || pc.Gone? }

  lemma TableOver(jobs: seq<Job>, before: seq<Automation>, after: seq<Automation>)
    requires TableOk(jobs, before) && AutomationsExtend(before, after)
    ensures TableOk(jobs, after)
  {}

  lemma StatusKeeps(w: World, a: AutomationId, contact: E.ContactId, status: AutomationStatus, next: Option<Instant>)
    requires Inv(w)
    ensures var v := w.(automations := SetStatus(w.automations, a, contact, status, next).0); Inv(v) && Extends(w, v)
  {
    var autos := SetStatus(w.automations, a, contact, status, next).0;
    TableOver(w.jobs, w.automations, autos);
    var v := w.(jobs := w.jobs, automations := autos);
    assert v == w.(automations := autos);
    if a < |w.automations| && autos[a] != w.automations[a] {
      assert AutomationOk(w, a) && AutomationOk(v, a);
    }
    TablesKeep(w, w.jobs, autos);
  }

  lemma ArmKeeps(w: World, a: AutomationId, contact: E.ContactId, runAt: Instant)
    requires Inv(w) && Owned(w.automations, a, contact)
    ensures var v := w.(jobs := Upsert(w.jobs, contact, a, runAt)); Inv(v) && Extends(w, v)
  {
    UpsertKeeps(w.jobs, w.automations, contact, a, runAt);
    var jobs := Upsert(w.jobs, contact, a, runAt);
    assert w.(jobs := jobs) == w.(jobs := jobs, automations := w.automations);
    TablesKeep(w, jobs, w.automations);
  }

  lemma FinishJobKeeps(w: World, j: JobId)
    requires Inv(w)
    ensures var v := w.(jobs := Complete(w.jobs, j)); Inv(v) && Extends(w, v)
  {
    CompleteKeeps(w.jobs, w.automations, j);
    var jobs := Complete(w.jobs, j);
    assert w.(jobs := jobs) == w.(jobs := jobs, automations := w.automations);
    TablesKeep(w, jobs, w.automations);
  }

  lemma ExtendsTrans(u: World, v: World, w: World)
    requires Extends(u, v) && Extends(v, w)
    ensures Extends(u, w)
  {}

  lemma CreateKeeps(w: World, contact: E.ContactId, goal: string, toolkits: set<string>, next: Instant)
    requires Inv(w)
    ensures var v := Apply(w, CreateAutomation(contact, goal, toolkits, next)); Inv(v) && Extends(w, v)
  {
    var a := |w.automations|;
    var autos := w.automations + [NewAutomation(contact, goal, toolkits, next)];
    TableOver(w.jobs, w.automations, autos);
    var u := w.(jobs := w.jobs, automations := autos);
    assert AutomationOk(u, a);
    TablesKeep(w, w.jobs, autos);
    ArmKeeps(u, a, contact, next);
    ExtendsTrans(w, u, u.(jobs := Upsert(w.jobs, contact, a, next)));
  }

  lemma ResumeKeeps(w: World, a: AutomationId, contact: E.ContactId, next: Instant)
    requires Inv(w)
    ensures var v := Apply(w, ResumeAutomation(a, contact, next)); Inv(v) && Extends(w, v)
  {
    var (autos, updated) := SetStatus(w.automations, a, contact, Active, Some(next));
    StatusKeeps(w, a, contact, Active, Some(next));
    var u := w.(automations := autos);
    if updated {
      ArmKeeps(u, a, contact, next);
      ExtendsTrans(w, u, u.(jobs := Upsert(u.jobs, contact, a, next)));
    }
  }

  lemma ClaimStepKeeps(w: World, j: JobId)
    requires Inv(w) && j < |w.jobs| && Claimable(w.jobs[j], w.Now())
    ensures Inv(ClaimStep(w, j)) && Extends(w, ClaimStep(w, j))
  {
    ClaimKeeps(w.jobs, w.automations, j, w.Now());
    var jobs := w.jobs[j := Started(w.jobs[j], w.Now())];
    var u := w.(jobs := jobs, automations := w.automations);
    TablesKeep(w, jobs, w.automations);
    var v := ClaimStep(w, j);
    forall a | 0 <= a < |v.automations| ensures AutomationOk(v, a) { AutomationStays(u, v, a); }
    forall k | 0 <= k < |v.workers| ensures WorkerOk(v, v.workers[k]) {
      if k < |u.workers| { WorkerStays(u, v, u.workers[k]); }
    }
  }

  lemma DuplicateStepKeeps(w: World, k: nat)
    requires Inv(w) && HandlesWake(w, k) && w.workers[k].pc.DuplicateSeen?
    ensures Inv(DuplicateStep(w, k)) && Extends(w, DuplicateStep(w, k))
  {
    var x := w.workers[k];
    assert WorkerOk(w, x);
    FinishJobKeeps(w, x.job);
    var u := w.(jobs := Complete(w.jobs, x.job));
    var v := u;
    if x.pc.next.Some? {
      ArmKeeps(u, x.payload.automation, x.contact, x.pc.next.value);
      v := u.(jobs := Upsert(u.jobs, x.contact, x.payload.automation, x.pc.next.value));
    }
    WorkerStays(w, v, x.(pc := Returned));
    PcKeeps(v, k, Returned);
    ExtendsTrans(w, u, v);
    ExtendsTrans(w, v, WithPc(v, k, Returned));
  }

  lemma FireStepKeeps(w: World, k: nat, available: bool)
    requires Inv(w) && HandlesWake(w, k) && w.workers[k].pc.Firing?
    ensures Inv(FireStep(w, k, available)) && Extends(w, FireStep(w, k, available))
  {
    var x := w.workers[k];
    assert WorkerOk(w, x);
    var a := x.payload.automation;
    var row := w.automations[a];
    var goal, scope := CleanGoal(row.goal), row.toolkits + {LOCAL_TOOLKIT};
    if !available || goal == "" {
      PcKeeps(w, k, Closing(RunSkipped, None, x.pc.catchUp));
    } else {
      var second := OccurrenceSecond(x.payload.occurrence);
      var (exec, reply) := L.ScheduledStep(w.exec, x.contact, goal, scope, a, second);
      LP.ScheduledStepKeeps(w.exec, x.contact, goal, scope, a, second);
      ExecKeeps(w, exec);
      var u := w.(exec := exec);
      var pc := FireStep(w, k, available).workers[k].pc;
      WorkerStays(w, u, x);
      PcKeeps(u, k, pc);
      ExtendsTrans(w, u, WithPc(u, k, pc));
    }
  }

  /** Stamping an active automation with a faithful record. */
  lemma RecordKeeps(w: World, a: AutomationId, contact: E.ContactId, stamp: Stamp, next: Option<Instant>)
    requires Inv(w) && Faithful(w, contact, a, stamp.occurrence, stamp.last, stamp.run)
    ensures var v := w.(automations := RecordRun(w.automations, a, contact, stamp, next, w.Now()).0);
            Inv(v) && Extends(w, v)
  {
    var (autos, updated) := RecordRun(w.automations, a, contact, stamp, next, w.Now());
    var v := w.(automations := autos);
    assert v == w.(jobs := w.jobs, automations := autos);
    TableOver(w.jobs, w.automations, autos);
    if updated {
      FaithfulStays(w, v, contact, a, stamp.occurrence, stamp.last, stamp.run);
      assert AutomationOk(v, a);
    }
    TablesKeep(w, w.jobs, autos);
  }

  lemma CloseStepKeeps(w: World, k: nat, next: Option<Instant>)
    requires Inv(w) && HandlesWake(w, k) && w.workers[k].pc.Closing?
    ensures Inv(CloseStep(w, k, next)) && Extends(w, CloseStep(w, k, next))
  {
    var x := w.workers[k];
    assert WorkerOk(w, x);
    var a := x.payload.automation;
    var stamp := Stamp(x.payload.occurrence, x.pc.last, x.pc.recorded, x.pc.catchUp);
    RecordKeeps(w, a, x.contact, stamp, next);
    var (autos, updated) := RecordRun(w.automations, a, x.contact, stamp, next, w.Now());
    var t := w.(automations := autos);
    FinishJobKeeps(t, x.job);
    var u := t.(jobs := Complete(w.jobs, x.job));
    ExtendsTrans(w, t, u);
    var v := u;
    if updated && next.Some? {
      ArmKeeps(u, a, x.contact, next.value);
      v := u.(jobs := Upsert(u.jobs, x.contact, a, next.value));
      ExtendsTrans(w, u, v);
    }
    WorkerStays(w, v, x.(pc := Returned));
    PcKeeps(v, k, Returned);
    ExtendsTrans(w, v, WithPc(v, k, Returned));
  }

  lemma FailStepKeeps(w: World, k: nat)
    requires Inv(w) && k < |w.workers|
    ensures Inv(FailStep(w, k)) && Extends(w, FailStep(w, k))
  {
    var x := w.workers[k];
    assert WorkerOk(w, x);
    FailKeeps(w.jobs, w.automations, x.job, w.Now());
    var after := Fail(w.jobs, x.job, w.Now());
    var u := if after.Some? then w.(jobs := after.value, automations := w.automations) else w;
    if after.Some? { TablesKeep(w, after.value, w.automations); }
    WorkerStays(w, u, x.(pc := Gone));
    PcKeeps(u, k, Gone);
    ExtendsTrans(w, u, WithPc(u, k, Gone));
  }

  lemma RecoverStepKeeps(w: World, crashStop: bool)
    requires Inv(w)
    ensures Inv(RecoverStep(w, crashStop)) && Extends(w, RecoverStep(w, crashStop))
  {
    RecoverKeeps(w.jobs, w.automations, w.Now());
    var after := RecoverStale(w.jobs, w.Now());
    if after.Some? {
      var u := w.(jobs := after.value, automations := w.automations);
      TablesKeep(w, after.value, w.automations);
      var v := RecoverStep(w, crashStop);
      forall a | 0 <= a < |v.automations| ensures AutomationOk(v, a) { AutomationStays(u, v, a); }
      forall k | 0 <= k < |v.workers| ensures WorkerOk(v, v.workers[k]) {
        assert WorkerOk(u, u.workers[k].(pc := Gone));
        WorkerStays(u, v, v.workers[k]);
      }
    }
  }

  lemma JoinKeeps(w: World, k: nat)
    requires Inv(w) && HandlesWake(w, k) && w.workers[k].pc.Awaiting?
    ensures var v := WithPc(w, k, AfterJoin(w, w.workers[k].pc.run, w.workers[k].pc.catchUp)); Inv(v) && Extends(w, v)
  {
    assert WorkerOk(w, w.workers[k]);
    PcKeeps(w, k, AfterJoin(w, w.workers[k].pc.run, w.workers[k].pc.catchUp));
  }

  lemma RereadKeeps(w: World, k: nat)
    requires Inv(w) && HandlesWake(w, k) && w.workers[k].pc.Rereading?
    ensures var v := WithPc(w, k, AfterReread(w, w.workers[k].pc.run, w.workers[k].pc.catchUp)); Inv(v) && Extends(w, v)
  {
    assert WorkerOk(w, w.workers[k]);
    PcKeeps(w, k, AfterReread(w, w.workers[k].pc.run, w.workers[k].pc.catchUp));
  }

  lemma NeutralKeeps(w: World, k: nat, pc: Pc)
    requires Inv(w) && k < |w.workers|
    requires Neutral(pc) || (w.workers[k].payload.Wake? && (pc.DuplicateSeen? || pc.Firing?))
    ensures Inv(WithPc(w, k, pc)) && Extends(w, WithPc(w, k, pc))
  {
    assert WorkerOk(w, w.workers[k]);
    PcKeeps(w, k, pc);
  }

  lemma EnqueueKeeps(w: World, contact: E.ContactId, runAt: Instant)
    requires Inv(w)
    ensures var v := w.(jobs := w.jobs + [NewJob(contact, OtherWork, runAt)]); Inv(v) && Extends(w, v)
  {
    var jobs := w.jobs + [NewJob(contact, OtherWork, runAt)];
    assert w.(jobs := jobs) == w.(jobs := jobs, automations := w.automations);
    TablesKeep(w, jobs, w.automations);
  }

  lemma ReturnedKeeps(w: World, k: nat)
    requires Inv(w) && k < |w.workers|
    ensures var v := WithPc(w.(jobs := Complete(w.jobs, w.workers[k].job)), k, Gone); Inv(v) && Extends(w, v)
  {
    var u := w.(jobs := Complete(w.jobs, w.workers[k].job));
    FinishJobKeeps(w, w.workers[k].job);
    NeutralKeeps(u, k, Gone);
    ExtendsTrans(w, u, WithPc(u, k, Gone));
  }

  predicate IsPersonStep(s: Step) {
    s.Execution? || s.CreateAutomation? || s.PauseAutomation? || s.ResumeAutomation? || s.CancelAutomation?
    || s.EnqueueOther? || s.ClaimJob? || s.RecoverStaleJobs?
  }

  lemma PersonStepKeeps(w: World, s: Step)
    requires Inv(w) && IsPersonStep(s) && Enabled(w, s)
    ensures Inv(Apply(w, s)) && Extends(w, Apply(w, s))
  {
    match s
    case Execution(step) =>
      LP.StepKeeps(w.exec, step);
      ExecKeeps(w, L.Apply(w.exec, step));
    case CreateAutomation(contact, goal, toolkits, next) => CreateKeeps(w, contact, goal, toolkits, next);
    case PauseAutomation(a, contact) => StatusKeeps(w, a, contact, Paused, None);
    case ResumeAutomation(a, contact, next) => ResumeKeeps(w, a, contact, next);
    case CancelAutomation(a, contact) => StatusKeeps(w, a, contact, Cancelled, None);
    case EnqueueOther(contact, runAt) => EnqueueKeeps(w, contact, runAt);
    case ClaimJob(j) => ClaimStepKeeps(w, j);
    case RecoverStaleJobs(crashStop) => RecoverStepKeeps(w, crashStop);
  }

  lemma WorkerStepKeeps(w: World, s: Step)
    requires Inv(w) && !IsPersonStep(s) && Enabled(w, s)
    ensures Inv(Apply(w, s)) && Extends(w, Apply(w, s))
  {
    match s
    case LoadRow(k) => NeutralKeeps(w, k, AfterLoad(w, k));
    case CloseDuplicate(k) => DuplicateStepKeeps(w, k);
    case Fire(k, available) => FireStepKeeps(w, k, available);
    case Join(k) => JoinKeeps(w, k);
    case Reread(k) => RereadKeeps(w, k);
    case CloseWakeUp(k, next) => CloseStepKeeps(w, k, next);
    case OtherDone(k) => NeutralKeeps(w, k, Returned);
    case Throw(k) => NeutralKeeps(w, k, Raised);
    case MarkFailed(k) => FailStepKeeps(w, k);
    case CompleteReturned(k) => ReturnedKeeps(w, k);
    case CrashWorker(k) => NeutralKeeps(w, k, Gone);
  }

  lemma StepKeeps(w: World, s: Step)
    requires Inv(w)
    ensures Inv(Apply(w, s)) && Extends(w, Apply(w, s))
  {
    if Enabled(w, s) {
      if IsPersonStep(s) { PersonStepKeeps(w, s); } else { WorkerStepKeeps(w, s); }
    }
  }

  lemma {:induction false} RunKeeps(w: World, steps: seq<Step>)
    requires Inv(w)
    ensures Inv(After(w, steps)) && Extends(w, After(w, steps))
  {
    if steps != [] {
      var init := After(w, steps[..|steps| - 1]);
      RunKeeps(w, steps[..|steps| - 1]);
      StepKeeps(init, steps[|steps| - 1]);
      ExtendsTrans(w, init, After(w, steps));
    }
  }

  lemma {:induction false} AfterAppend(w: World, steps: seq<Step>, s: Step)
    ensures After(w, steps + [s]) == Apply(After(w, steps), s)
  {
    assert (steps + [s])[..|steps|] == steps;
  }

  lemma InitOk()
    ensures Inv(INIT)
  {
    LP.InitOk();
  }
}
