/** When an automation is silently lost: exactly when the wake-up armed last for it
    is completed by a worker that another has overtaken, hence never while crashed
    workers stay dead. */
module NoLoss {
  import opened Wrappers
  import opened Table
  import opened Scheduler
  import opened WakeUps
  import opened WakeUpProperties
  import E = Executions
  import L = Lifecycle

  predicate Live(x: Worker) { !x.pc.Gone? }

  /** The worker will complete its job without arming another wake-up. */
  predicate Doomed(pc: Pc) { pc.Returned? || (pc.DuplicateSeen? && pc.next.None?) }

  predicate NeedsWakeUp(row: Automation) { row.status.Active? && row.nextRunAt.Some? }

  // ---------------------------------------------------- the last armed wake-up

  /** The row an upsert arms. */
  function ArmedRow(jobs: seq<Job>, a: AutomationId): JobId {
    var existing := FindLast(jobs, PendingWake(a));
    if existing.Some? then existing.value else |jobs|
  }

  datatype Arming = Arming(automation: AutomationId, job: JobId)

  /** The wake-up that a step arms, and for which automation. */
  function Arms(w: World, s: Step): Option<Arming> {
    if !Enabled(w, s) then None
    else
      match s
      case CreateAutomation(_, _, _, _) => Some(Arming(|w.automations|, ArmedRow(w.jobs, |w.automations|)))
      case ResumeAutomation(a, contact, next) =>
        if !SetStatus(w.automations, a, contact, Active, Some(next)).1 then None
        else Some(Arming(a, ArmedRow(w.jobs, a)))
      case CloseDuplicate(k) => ArmsAfter(w, k, w.workers[k].pc.next)
      case CloseWakeUp(k, next) => ArmsAfter(w, k, if Recorded(w, k) then next else None)
      case _ => None
  }

  function ArmsAfter(w: World, k: nat, next: Option<Instant>): Option<Arming>
    requires HandlesWake(w, k)
  {
    var x := w.workers[k];
    if next.None? then None
    else Some(Arming(x.payload.automation, ArmedRow(Complete(w.jobs, x.job), x.payload.automation)))
  }

  /** Closing finds the automation still active. */
  predicate Recorded(w: World, k: nat)
    requires HandlesWake(w, k)
  {
    var x := w.workers[k];
    Owned(w.automations, x.payload.automation, x.contact) && w.automations[x.payload.automation].status.Active?
  }

  type Armings = map<AutomationId, JobId>

  function Noted(armed: Armings, arming: Option<Arming>): Armings {
    if arming.None? then armed else armed[arming.value.automation := arming.value.job]
  }

  /** For every automation the wake-up that was armed last in the run. */
  function LastArmed(steps: seq<Step>): Armings {
    if steps == [] then map[]
    else
      var init := steps[..|steps| - 1];
      Noted(LastArmed(init), Arms(After(INIT, init), steps[|steps| - 1]))
  }

  // ------------------------------------------------------- overtaken workers

  /** The living worker that claimed the running job last. */
  predicate Owner(w: World, k: nat) {
    && k < |w.workers| && Live(w.workers[k]) && w.workers[k].job < |w.jobs|
    && w.jobs[w.workers[k].job].status.Running?
    && forall m :: k < m < |w.workers| ==> w.workers[m].job != w.workers[k].job
  }

  /** The step completes a running job, arming nothing, for a worker that is not its
      owner: the job was re-queued and claimed by another since. */
  predicate Overtakes(w: World, s: Step) {
    && Enabled(w, s)
    && (s.CompleteReturned? || (s.CloseDuplicate? && w.workers[s.worker].pc.next.None?))
    && w.workers[s.worker].job < |w.jobs| && w.jobs[w.workers[s.worker].job].status.Running?
    && !Owner(w, s.worker)
  }

  function Lose(lost: set<JobId>, w: World, s: Step): set<JobId> {
    if Overtakes(w, s) then lost + {w.workers[s.worker].job} else lost
  }

  /** The jobs that the run completed for overtaken workers. */
  function Overtaken(steps: seq<Step>): set<JobId> {
    if steps == [] then {}
    else
      var init := steps[..|steps| - 1];
      Lose(Overtaken(init), After(INIT, init), steps[|steps| - 1])
  }

  // -------------------------------------------------------------- invariant

  /** Job j still stands for automation a: pending, dead-lettered, or running
      and not about to be completed for nothing by its owner. */
  ghost predicate Covers(w: World, a: AutomationId, j: JobId) {
    && j < |w.jobs| && IsWakeOf(w.jobs[j], a) && !w.jobs[j].status.Done?
    && forall k :: 0 <= k < |w.workers| && Owner(w, k) && w.workers[k].job == j ==> !Doomed(w.workers[k].pc)
  }

  datatype Ledger = Ledger(armed: Armings, lost: set<JobId>)

  /** The wake-up armed last for the automation stands for it, or was lost. */
  ghost predicate Covered(w: World, x: Ledger, a: AutomationId) {
    && a in x.armed && x.armed[a] < |w.jobs| && IsWakeOf(w.jobs[x.armed[a]], a)
    && (Covers(w, a, x.armed[a]) || x.armed[a] in x.lost)
  }

  ghost predicate AllCovered(w: World, x: Ledger) {
    forall a :: 0 <= a < |w.automations| && NeedsWakeUp(w.automations[a]) ==> Covered(w, x, a)
  }

  ghost predicate CoverInv(w: World, x: Ledger) { Inv(w) && AllCovered(w, x) }

  /** The owners of a job are those it had, none of them newly doomed. */
  ghost predicate SameOwners(w: World, v: World, j: JobId) {
    forall k :: 0 <= k < |v.workers| && Owner(v, k) && v.workers[k].job == j ==>
      !Doomed(v.workers[k].pc)
      || (Owner(w, k) && w.workers[k].job == j && Doomed(w.workers[k].pc))
  }

  lemma CoverStays(w: World, v: World, x: Ledger, y: Ledger, a: AutomationId)
    requires Covered(w, x, a) && a in y.armed && y.armed[a] == x.armed[a] && x.lost <= y.lost
    requires x.armed[a] < |v.jobs| && IsWakeOf(v.jobs[x.armed[a]], a)
    requires x.armed[a] !in y.lost ==> !v.jobs[x.armed[a]].status.Done? && SameOwners(w, v, x.armed[a])
    ensures Covered(v, y, a)
  {}

  // ---------------------------------------------------------- kinds of steps

  /** Only automations and the execution world change, none newly in need. */
  lemma NoNewNeed(w: World, v: World, x: Ledger)
    requires CoverInv(w, x) && Inv(v) && v.jobs == w.jobs && v.workers == w.workers
    requires |v.automations| == |w.automations|
    requires forall a :: 0 <= a < |v.automations| && NeedsWakeUp(v.automations[a]) ==> NeedsWakeUp(w.automations[a])
    ensures CoverInv(v, x)
  {
    forall a | 0 <= a < |v.automations| && NeedsWakeUp(v.automations[a]) ensures Covered(v, x, a) {
      CoverStays(w, v, x, x, a);
    }
  }

  /** The job wakes no automation in need. */
  predicate Unneeded(w: World, p: Payload) {
    p.Wake? && p.automation < |w.automations| ==> !NeedsWakeUp(w.automations[p.automation])
  }

  /** A worker moves on without touching jobs or automations. */
  lemma PcMoves(w: World, v: World, x: Ledger, k: nat, pc: Pc)
    requires CoverInv(w, x) && Inv(v) && k < |w.workers|
    requires v.jobs == w.jobs && v.automations == w.automations && v.workers == w.workers[k := w.workers[k].(pc := pc)]
    requires pc.Gone? || Live(w.workers[k])
    requires Doomed(pc) ==> Unneeded(w, w.workers[k].payload)
    ensures CoverInv(v, x)
  {
    assert WorkerOk(w, w.workers[k]);
    forall a | 0 <= a < |v.automations| && NeedsWakeUp(v.automations[a]) ensures Covered(v, x, a) {
      CoverStays(w, v, x, x, a);
    }
  }

  lemma ClaimKeepsCover(w: World, x: Ledger, j: JobId)
    requires CoverInv(w, x) && j < |w.jobs| && Claimable(w.jobs[j], w.Now())
    ensures CoverInv(ClaimStep(w, j), x)
  {
    ClaimStepKeeps(w, j);
    var v := ClaimStep(w, j);
    forall m | 0 <= m < |w.workers| && Owner(v, m) ensures Owner(w, m) {
      assert v.workers[|w.workers|].job != v.workers[m].job;
      forall q | m < q < |w.workers| ensures w.workers[q].job != w.workers[m].job {
        assert v.workers[q].job != v.workers[m].job;
      }
    }
    forall a | 0 <= a < |v.automations| && NeedsWakeUp(v.automations[a]) ensures Covered(v, x, a) {
      CoverStays(w, v, x, x, a);
    }
  }

  function Note(x: Ledger, arming: Option<Arming>): Ledger { x.(armed := Noted(x.armed, arming)) }

  /** What has just been armed is pending and stands for its automation. */
  lemma ArmedIsCovered(w: World, v: World, y: Ledger, a: AutomationId, contact: E.ContactId, runAt: Instant)
    requires Inv(v) && v.workers == w.workers && v.jobs == Upsert(w.jobs, contact, a, runAt)
    requires TableOk(w.jobs, v.automations) && Owned(v.automations, a, contact)
    requires a in y.armed && y.armed[a] == ArmedRow(w.jobs, a)
    ensures Covered(v, y, a)
  {
    UpsertKeeps(w.jobs, v.automations, contact, a, runAt);
  }

  /** Arming automation a leaves the jobs that are not pending alone. */
  lemma ArmingKeepsCover(w: World, v: World, x: Ledger, a: AutomationId, contact: E.ContactId, runAt: Instant)
    requires Inv(v) && v.workers == w.workers
    requires TableOk(w.jobs, v.automations) && Owned(v.automations, a, contact)
    requires v.jobs == Upsert(w.jobs, contact, a, runAt)
    requires forall b :: 0 <= b < |v.automations| && NeedsWakeUp(v.automations[b]) && b != a ==> Covered(w, x, b)
    ensures CoverInv(v, Note(x, Some(Arming(a, ArmedRow(w.jobs, a)))))
  {
    UpsertKeeps(w.jobs, v.automations, contact, a, runAt);
    var y := Note(x, Some(Arming(a, ArmedRow(w.jobs, a))));
    ArmedIsCovered(w, v, y, a, contact, runAt);
    forall b | 0 <= b < |v.automations| && NeedsWakeUp(v.automations[b]) ensures Covered(v, y, b) {
      if b != a { CoverStays(w, v, x, y, b); }
    }
  }

  lemma CreateKeepsCover(w: World, x: Ledger, s: Step)
    requires CoverInv(w, x) && s.CreateAutomation?
    ensures CoverInv(Apply(w, s), Note(x, Arms(w, s)))
  {
    CreateKeeps(w, s.contact, s.goal, s.toolkits, s.next);
    var v := Apply(w, s);
    TableOver(w.jobs, w.automations, v.automations);
    ArmingKeepsCover(w, v, x, |w.automations|, s.contact, s.next);
  }

  lemma ResumeKeepsCover(w: World, x: Ledger, s: Step)
    requires CoverInv(w, x) && s.ResumeAutomation?
    ensures CoverInv(Apply(w, s), Note(x, Arms(w, s)))
  {
    ResumeKeeps(w, s.automation, s.contact, s.next);
    var v := Apply(w, s);
    if SetStatus(w.automations, s.automation, s.contact, Active, Some(s.next)).1 {
      TableOver(w.jobs, w.automations, v.automations);
      ArmingKeepsCover(w, v, x, s.automation, s.contact, s.next);
    }
  }

  /** Worker k completes its job; only the automation of that job may need more. */
  predicate Completes(w: World, u: World, k: nat)
    requires k < |w.workers|
  {
    && u.jobs == Complete(w.jobs, w.workers[k].job)
    && (|| u.workers == w.workers[k := w.workers[k].(pc := Returned)]
        || u.workers == w.workers[k := w.workers[k].(pc := Gone)])
  }

  /** The completed job is not the one the automation relies on, or it is lost. */
  lemma CompletingKeepsCover(w: World, x: Ledger, y: Ledger, k: nat, u: World, b: AutomationId)
    requires Covered(w, x, b) && k < |w.workers| && Live(w.workers[k]) && Completes(w, u, k)
    requires y.armed == x.armed && x.lost <= y.lost && w.workers[k].job < |w.jobs|
    requires IsWakeOf(w.jobs[w.workers[k].job], b) ==>
               Doomed(w.workers[k].pc)
               && (!w.jobs[w.workers[k].job].status.Running? || Owner(w, k) || w.workers[k].job in y.lost)
    ensures Covered(u, y, b)
  {
    CoverStays(w, u, x, y, b);
  }

  /** Only the automation's own row may differ, and unless the next wake-up is
      armed it is not newly in need. */
  predicate ClosesRow(w: World, v: World, k: nat, next: Option<Instant>)
    requires HandlesWake(w, k)
  {
    var a := w.workers[k].payload.automation;
    && |v.automations| == |w.automations|
    && (forall b :: 0 <= b < |w.automations| && b != a ==> v.automations[b] == w.automations[b])
    && (next.None? && a < |w.automations| && NeedsWakeUp(v.automations[a]) ==>
         Doomed(w.workers[k].pc) && NeedsWakeUp(w.automations[a]))
  }

  /** The closing blocks: complete the job and, when armed, upsert the next. */
  lemma ClosingKeepsCover(w: World, v: World, x: Ledger, lost: set<JobId>, k: nat, next: Option<Instant>)
    requires CoverInv(w, x) && HandlesWake(w, k) && Live(w.workers[k]) && Inv(v) && x.lost <= lost
    requires v.workers == w.workers[k := w.workers[k].(pc := Returned)]
    requires AutomationsExtend(w.automations, v.automations) && ClosesRow(w, v, k, next)
    requires next.None? && NeedsWakeUp(v.automations[w.workers[k].payload.automation]) ==>
               !w.jobs[w.workers[k].job].status.Running? || Owner(w, k) || w.workers[k].job in lost
    requires var x := w.workers[k];
             var closed := Complete(w.jobs, x.job);
             v.jobs == if next.Some? then Upsert(closed, x.contact, x.payload.automation, next.value) else closed
    ensures CoverInv(v, Note(x.(lost := lost), ArmsAfter(w, k, next)))
  {
    var worker := w.workers[k];
    var a := worker.payload.automation;
    assert WorkerOk(w, worker);
    var u := v.(jobs := Complete(w.jobs, worker.job));
    var y := x.(lost := lost);
    forall b | 0 <= b < |v.automations| && NeedsWakeUp(v.automations[b]) && (b != a || next.None?)
      ensures Covered(u, y, b)
    {
      CompletingKeepsCover(w, x, y, k, u, b);
    }
    if next.Some? {
      CompleteKeeps(w.jobs, w.automations, worker.job);
      TableOver(u.jobs, w.automations, v.automations);
      ArmingKeepsCover(u, v, y, a, worker.contact, next.value);
    } else {
      assert u == v;
    }
  }

  lemma ReturnedKeepsCover(w: World, x: Ledger, k: nat)
    requires CoverInv(w, x) && k < |w.workers| && w.workers[k].pc.Returned?
    ensures CoverInv(Apply(w, CompleteReturned(k)), x.(lost := Lose(x.lost, w, CompleteReturned(k))))
  {
    StepKeeps(w, CompleteReturned(k));
    var v := Apply(w, CompleteReturned(k));
    var y := x.(lost := Lose(x.lost, w, CompleteReturned(k)));
    assert WorkerOk(w, w.workers[k]);
    forall b | 0 <= b < |v.automations| && NeedsWakeUp(v.automations[b]) ensures Covered(v, y, b) {
      CompletingKeepsCover(w, x, y, k, v, b);
    }
  }

  lemma FailKeepsCover(w: World, x: Ledger, k: nat)
    requires CoverInv(w, x) && k < |w.workers| && w.workers[k].pc.Raised?
    ensures CoverInv(FailStep(w, k), x)
  {
    FailStepKeeps(w, k);
    var v := FailStep(w, k);
    forall a | 0 <= a < |v.automations| && NeedsWakeUp(v.automations[a]) ensures Covered(v, x, a) {
      CoverStays(w, v, x, x, a);
    }
  }

  lemma RecoverKeepsCover(w: World, x: Ledger, crashStop: bool)
    requires CoverInv(w, x)
    ensures CoverInv(RecoverStep(w, crashStop), x)
  {
    RecoverStepKeeps(w, crashStop);
    var v := RecoverStep(w, crashStop);
    forall a | 0 <= a < |v.automations| && NeedsWakeUp(v.automations[a]) ensures Covered(v, x, a) {
      CoverStays(w, v, x, x, a);
    }
  }

  lemma EnqueueKeepsCover(w: World, x: Ledger, contact: E.ContactId, runAt: Instant)
    requires CoverInv(w, x)
    ensures CoverInv(Apply(w, EnqueueOther(contact, runAt)), x)
  {
    EnqueueKeeps(w, contact, runAt);
    var v := Apply(w, EnqueueOther(contact, runAt));
    forall a | 0 <= a < |v.automations| && NeedsWakeUp(v.automations[a]) ensures Covered(v, x, a) {
      CoverStays(w, v, x, x, a);
    }
  }

  lemma OthersStepKeepsCover(w: World, x: Ledger, s: Step)
    requires CoverInv(w, x) && (s.Execution? || s.PauseAutomation? || s.CancelAutomation?)
    ensures CoverInv(Apply(w, s), x)
  {
    StepKeeps(w, s);
    NoNewNeed(w, Apply(w, s), x);
  }

  lemma PersonStepKeepsCover(w: World, x: Ledger, s: Step)
    requires CoverInv(w, x) && Enabled(w, s) && IsPersonStep(s)
    ensures CoverInv(Apply(w, s), Note(x, Arms(w, s)))
  {
    match s
    case CreateAutomation(_, _, _, _) => CreateKeepsCover(w, x, s);
    case ResumeAutomation(_, _, _) => ResumeKeepsCover(w, x, s);
    case EnqueueOther(contact, runAt) => EnqueueKeepsCover(w, x, contact, runAt);
    case ClaimJob(j) => ClaimKeepsCover(w, x, j);
    case RecoverStaleJobs(crashStop) => RecoverKeepsCover(w, x, crashStop);
    case _ => OthersStepKeepsCover(w, x, s);
  }

  lemma DuplicateKeepsCover(w: World, x: Ledger, k: nat)
    requires CoverInv(w, x) && HandlesWake(w, k) && w.workers[k].pc.DuplicateSeen?
    ensures CoverInv(DuplicateStep(w, k),
                     Note(x.(lost := Lose(x.lost, w, CloseDuplicate(k))), ArmsAfter(w, k, w.workers[k].pc.next)))
  {
    DuplicateStepKeeps(w, k);
    assert WorkerOk(w, w.workers[k]);
    ClosingKeepsCover(w, DuplicateStep(w, k), x, Lose(x.lost, w, CloseDuplicate(k)), k, w.workers[k].pc.next);
  }

  lemma CloseKeepsCover(w: World, x: Ledger, k: nat, next: Option<Instant>)
    requires CoverInv(w, x) && HandlesWake(w, k) && w.workers[k].pc.Closing?
    ensures CoverInv(CloseStep(w, k, next), Note(x, ArmsAfter(w, k, if Recorded(w, k) then next else None)))
  {
    CloseStepKeeps(w, k, next);
    assert WorkerOk(w, w.workers[k]);
    ClosingKeepsCover(w, CloseStep(w, k, next), x, x.lost, k, if Recorded(w, k) then next else None);
  }

  predicate IsPcStep(s: Step) {
    s.LoadRow? || s.Fire? || s.Join? || s.Reread? || s.OtherDone? || s.Throw? || s.CrashWorker?
  }

  lemma LoadKeepsCover(w: World, x: Ledger, k: nat)
    requires CoverInv(w, x) && HandlesWake(w, k) && w.workers[k].pc.Claimed?
    ensures CoverInv(WithPc(w, k, AfterLoad(w, k)), x)
  {
    NeutralKeeps(w, k, AfterLoad(w, k));
    PcMoves(w, WithPc(w, k, AfterLoad(w, k)), x, k, AfterLoad(w, k));
  }

  lemma FireKeepsCover(w: World, x: Ledger, k: nat, available: bool)
    requires CoverInv(w, x) && HandlesWake(w, k) && w.workers[k].pc.Firing?
    ensures CoverInv(FireStep(w, k, available), x)
  {
    FireStepKeeps(w, k, available);
    PcMoves(w, FireStep(w, k, available), x, k, FireStep(w, k, available).workers[k].pc);
  }

  lemma QuietPcStepKeepsCover(w: World, x: Ledger, s: Step)
    requires CoverInv(w, x) && Enabled(w, s) && IsPcStep(s) && !s.LoadRow? && !s.Fire?
    ensures CoverInv(Apply(w, s), x)
  {
    StepKeeps(w, s);
    var v := Apply(w, s);
    match s
    case Join(k) => PcMoves(w, v, x, k, v.workers[k].pc);
    case Reread(k) => PcMoves(w, v, x, k, v.workers[k].pc);
    case OtherDone(k) => PcMoves(w, v, x, k, Returned);
    case Throw(k) => PcMoves(w, v, x, k, Raised);
    case CrashWorker(k) => PcMoves(w, v, x, k, Gone);
  }

  lemma PcStepKeepsCover(w: World, x: Ledger, s: Step)
    requires CoverInv(w, x) && Enabled(w, s) && IsPcStep(s)
    ensures CoverInv(Apply(w, s), x)
  {
    if s.LoadRow? {
      LoadKeepsCover(w, x, s.worker);
    } else if s.Fire? {
      FireKeepsCover(w, x, s.worker, s.available);
    } else {
      QuietPcStepKeepsCover(w, x, s);
    }
  }

  lemma WorkerStepKeepsCover(w: World, x: Ledger, s: Step)
    requires CoverInv(w, x) && Enabled(w, s) && !IsPersonStep(s)
    ensures CoverInv(Apply(w, s), Note(x.(lost := Lose(x.lost, w, s)), Arms(w, s)))
  {
    if IsPcStep(s) {
      PcStepKeepsCover(w, x, s);
    } else {
      match s
      case CloseDuplicate(k) => DuplicateKeepsCover(w, x, k);
      case CloseWakeUp(k, next) => CloseKeepsCover(w, x, k, next);
      case MarkFailed(k) => FailKeepsCover(w, x, k);
      case CompleteReturned(k) => ReturnedKeepsCover(w, x, k);
    }
  }

  // ----------------------------------------------------------------- theorems

  function LedgerOf(steps: seq<Step>): Ledger { Ledger(LastArmed(steps), Overtaken(steps)) }

  /** A job completed for an overtaken worker is done for good. */
  ghost predicate LostAreDone(w: World, lost: set<JobId>) {
    forall j :: j in lost ==> j < |w.jobs| && w.jobs[j].status.Done?
  }

  lemma LosingIsDone(w: World, s: Step, lost: set<JobId>)
    requires Inv(w) && LostAreDone(w, lost)
    ensures LostAreDone(Apply(w, s), Lose(lost, w, s))
  {
    StepKeeps(w, s);
  }

  lemma {:induction false} RunKeepsCover(steps: seq<Step>)
    ensures CoverInv(After(INIT, steps), LedgerOf(steps)) && LostAreDone(After(INIT, steps), Overtaken(steps))
  {
    if steps == [] {
      InitOk();
    } else {
      var init := steps[..|steps| - 1];
      var s := steps[|steps| - 1];
      RunKeepsCover(init);
      var w, x := After(INIT, init), LedgerOf(init);
      LosingIsDone(w, s, Overtaken(init));
      if Enabled(w, s) {
        if IsPersonStep(s) { PersonStepKeepsCover(w, x, s); } else { WorkerStepKeepsCover(w, x, s); }
      }
    }
  }

  /** WHEN A WAKE-UP IS LOST, over all runs: the wake-up armed last for an active
      automation with a next run time is pending, running or dead-lettered, except
      exactly when it was completed for a worker that another had overtaken. */
  lemma {:induction false} LostExactly(steps: seq<Step>, a: AutomationId)
    requires var w := After(INIT, steps); a < |w.automations| && NeedsWakeUp(w.automations[a])
    ensures var w := After(INIT, steps);
            && a in LastArmed(steps) && LastArmed(steps)[a] < |w.jobs|
            && IsWakeOf(w.jobs[LastArmed(steps)[a]], a)
            && (w.jobs[LastArmed(steps)[a]].status.Done? <==> LastArmed(steps)[a] in Overtaken(steps))
  {
    RunKeepsCover(steps);
    assert Covered(After(INIT, steps), LedgerOf(steps), a);
  }

  // --------------------------------------------------------------- crash-stop

  predicate CrashStop(s: Step) { s.RecoverStaleJobs? ==> s.crashStop }

  /** A live worker's job is running and its own; or it has just been closed. */
  ghost predicate OwnersOk(w: World) {
    && (forall k :: 0 <= k < |w.workers| && Live(w.workers[k]) ==>
         && w.workers[k].job < |w.jobs|
         && (w.jobs[w.workers[k].job].status.Running?
             || (w.jobs[w.workers[k].job].status.Done? && w.workers[k].pc.Returned?)))
    && (forall k, m :: 0 <= k < m < |w.workers| && Live(w.workers[k]) ==> w.workers[k].job != w.workers[m].job)
  }

  lemma NobodyIsOvertaken(w: World, s: Step)
    requires OwnersOk(w)
    ensures !Overtakes(w, s)
  {}

  lemma RecoverKeepsOwners(w: World)
    requires OwnersOk(w)
    ensures OwnersOk(RecoverStep(w, true))
  {}

  lemma ClosingKeepsOwners(w: World, s: Step)
    requires OwnersOk(w) && Enabled(w, s) && (s.CloseDuplicate? || s.CloseWakeUp?)
    ensures OwnersOk(Apply(w, s))
  {}

  lemma ReturnedKeepsOwners(w: World, k: nat)
    requires OwnersOk(w) && Enabled(w, CompleteReturned(k))
    ensures OwnersOk(Apply(w, CompleteReturned(k)))
  {}

  lemma PcKeepsOwners(w: World, v: World, k: nat, pc: Pc)
    requires OwnersOk(w) && k < |w.workers| && v.jobs == w.jobs
    requires v.workers == w.workers[k := w.workers[k].(pc := pc)]
    requires pc.Gone? || (Live(w.workers[k]) && !w.workers[k].pc.Returned?)
    ensures OwnersOk(v)
  {}

  lemma FailKeepsOwners(w: World, k: nat)
    requires OwnersOk(w) && k < |w.workers| && w.workers[k].pc.Raised?
    ensures OwnersOk(FailStep(w, k))
  {}

  lemma ClaimKeepsOwners(w: World, j: JobId)
    requires OwnersOk(w) && j < |w.jobs| && Claimable(w.jobs[j], w.Now())
    ensures OwnersOk(ClaimStep(w, j))
  {}

  lemma OtherKeepsOwners(w: World, s: Step)
    requires OwnersOk(w) && Enabled(w, s) && IsPersonStep(s) && !s.RecoverStaleJobs? && !s.ClaimJob?
    ensures OwnersOk(Apply(w, s))
  {}

  lemma {:induction false} CrashStopKeepsOwners(steps: seq<Step>)
    requires forall i :: 0 <= i < |steps| ==> CrashStop(steps[i])
    ensures OwnersOk(After(INIT, steps)) && Overtaken(steps) == {}
  {
    if steps != [] {
      var init := steps[..|steps| - 1];
      var w, s := After(INIT, init), steps[|steps| - 1];
      CrashStopKeepsOwners(init);
      NobodyIsOvertaken(w, s);
      if Enabled(w, s) {
        if s.RecoverStaleJobs? {
          RecoverKeepsOwners(w);
        } else if s.ClaimJob? {
          ClaimKeepsOwners(w, s.job);
        } else if s.CloseDuplicate? || s.CloseWakeUp? {
          ClosingKeepsOwners(w, s);
        } else if s.CompleteReturned? {
          ReturnedKeepsOwners(w, s.worker);
        } else if IsPersonStep(s) {
          OtherKeepsOwners(w, s);
        } else if s.MarkFailed? {
          FailKeepsOwners(w, s.worker);
        } else {
          PcKeepsOwners(w, Apply(w, s), s.worker, Apply(w, s).workers[s.worker].pc);
        }
      }
    }
  }

  /** NO AUTOMATION IS LOST while crashed workers stay dead: in every reachable state
      the wake-up that was armed last for an active automation with a next run time
      is pending or running, unless that very wake-up was dead-lettered. */
  lemma {:induction false} NoAutomationLost(steps: seq<Step>, a: AutomationId)
    requires forall i :: 0 <= i < |steps| ==> CrashStop(steps[i])
    ensures var w := After(INIT, steps);
            a < |w.automations| && NeedsWakeUp(w.automations[a]) ==>
              && a in LastArmed(steps) && LastArmed(steps)[a] < |w.jobs|
              && IsWakeOf(w.jobs[LastArmed(steps)[a]], a) && !w.jobs[LastArmed(steps)[a]].status.Done?
  {
    CrashStopKeepsOwners(steps);
    var w := After(INIT, steps);
    if a < |w.automations| && NeedsWakeUp(w.automations[a]) { LostExactly(steps, a); }
  }

  // ------------------------------------------------- why crash-stop is needed

  /** Every wake-up is done, nobody is left to arm one, yet a run is due. */
  ghost predicate Lost(w: World, a: AutomationId) {
    && a < |w.automations| && NeedsWakeUp(w.automations[a])
    && (forall j :: 0 <= j < |w.jobs| && IsWakeOf(w.jobs[j], a) ==> w.jobs[j].status.Done?)
    && (forall k :: 0 <= k < |w.workers| ==> !Live(w.workers[k]))
  }

  const LATER: nat := 601 * SECOND

  /** A worker that found its automation paused stalls before completing its job;
      the job is recovered, moved by a resume and claimed by a second worker. */
  const STALLED: seq<Step> := [
    CreateAutomation(7, "goal", {}, 0), ClaimJob(0), PauseAutomation(0, 7), LoadRow(0),
    Execution(L.Tick(LATER)), RecoverStaleJobs(false), ResumeAutomation(0, 7, LATER), ClaimJob(0)]

  /** The stalled worker completes the job of the second, whose failure is then
      not recorded because the row no longer runs. */
  const OVERTAKEN: seq<Step> := STALLED + [CompleteReturned(0), LoadRow(1), Throw(1), MarkFailed(1)]

  function Stored(runAt: Instant, attempts: nat): Job {
    NewJob(7, Wake(0, runAt), runAt).(attempts := attempts, starts := attempts, recoveries := attempts)
  }

  function Row(status: AutomationStatus, next: Instant): Automation {
    Automation(7, "goal", {}, status, Some(next), None, None, None, false, None)
  }

  const PAUSED_MID_RUN: seq<Step> :=
    [CreateAutomation(7, "goal", {}, 0), ClaimJob(0), PauseAutomation(0, 7), LoadRow(0)]

  lemma PausedMidRun()
    ensures After(INIT, PAUSED_MID_RUN)
         == World([Started(Stored(0, 0), 0)], [Row(Paused, 0)], L.INIT, [Worker(0, 7, Wake(0, 0), Returned)])
  {
    var s := PAUSED_MID_RUN;
    assert s[..1] == [] + [s[0]] && s[..2] == s[..1] + [s[1]] && s[..3] == s[..2] + [s[2]] && s == s[..3] + [s[3]];
    AfterAppend(INIT, [], s[0]);
    assert After(INIT, s[..1]) == World([Stored(0, 0)], [Row(Active, 0)], L.INIT, []);
    AfterAppend(INIT, s[..1], s[1]);
    var w := World([Started(Stored(0, 0), 0)], [Row(Active, 0)], L.INIT, [Worker(0, 7, Wake(0, 0), Claimed)]);
    assert After(INIT, s[..2]) == w;
    AfterAppend(INIT, s[..2], s[2]);
    assert After(INIT, s[..3]) == w.(automations := [Row(Paused, 0)]);
    AfterAppend(INIT, s[..3], s[3]);
  }

  lemma RecoveredWhileStalled(w: World)
    requires w.jobs == [Started(Stored(0, 0), 0)] && w.Now() == LATER
    ensures RecoverStep(w, false) == w.(jobs := [Stored(0, 1)])
  {
    assert StaleAt(LATER - STALE_LOCK)(w.jobs[0]);
    assert UpdateWhere(w.jobs, StaleAt(LATER - STALE_LOCK), Requeued()) == [Stored(0, 1)];
    assert RecoverStep(w, false).workers == w.workers;
  }

  /** The world of the stalled worker at the later instant. */
  function StalledAt(job: Job, status: AutomationStatus, next: Instant): World {
    World([job], [Row(status, next)], L.INIT.(db := L.INIT.db.(now := LATER)), [Worker(0, 7, Wake(0, 0), Returned)])
  }

  lemma StaleWorld()
    ensures After(INIT, STALLED[..5]) == StalledAt(Started(Stored(0, 0), 0), Paused, 0)
  {
    PausedMidRun();
    var s := STALLED;
    assert s[..4] == PAUSED_MID_RUN && s[..5] == s[..4] + [s[4]];
    AfterAppend(INIT, s[..4], s[4]);
  }

  lemma RecoveredWorld()
    ensures After(INIT, STALLED[..6]) == StalledAt(Stored(0, 1), Paused, 0)
  {
    StaleWorld();
    var s := STALLED;
    assert s[..6] == s[..5] + [s[5]];
    AfterAppend(INIT, s[..5], s[5]);
    RecoveredWhileStalled(After(INIT, s[..5]));
  }

  lemma ResumedWorld(w: World)
    requires w == StalledAt(Stored(0, 1), Paused, 0)
    ensures Apply(w, ResumeAutomation(0, 7, LATER)) == StalledAt(Stored(LATER, 1), Active, LATER)
  {
    assert PendingWake(0)(Stored(0, 1));
  }

  lemma StalledWorld()
    ensures var w := StalledAt(Started(Stored(LATER, 1), LATER), Active, LATER);
            After(INIT, STALLED) == w.(workers := w.workers + [Worker(0, 7, Wake(0, LATER), Claimed)])
  {
    RecoveredWorld();
    var s := STALLED;
    assert s[..7] == s[..6] + [s[6]] && s == s[..7] + [s[7]];
    AfterAppend(INIT, s[..6], s[6]);
    ResumedWorld(After(INIT, s[..6]));
    AfterAppend(INIT, s[..7], s[7]);
  }

  /** WITHOUT CRASH-STOP AN AUTOMATION CAN BE LOST, with no dead letter and no crash. */
  lemma LostWithoutCrashStop()
    ensures Lost(After(INIT, OVERTAKEN), 0)
  {
    StalledWorld();
    var w := After(INIT, STALLED);
    AfterAppend(INIT, STALLED, CompleteReturned(0));
    var w1 := Apply(w, CompleteReturned(0));
    assert w1.jobs[0].status.Done?;
    AfterAppend(INIT, STALLED + [CompleteReturned(0)], LoadRow(1));
    var w2 := Apply(w1, LoadRow(1));
    assert w2.workers[1].pc.Firing?;
    AfterAppend(INIT, STALLED + [CompleteReturned(0)] + [LoadRow(1)], Throw(1));
    AfterAppend(INIT, STALLED + [CompleteReturned(0)] + [LoadRow(1)] + [Throw(1)], MarkFailed(1));
    assert OVERTAKEN == STALLED + [CompleteReturned(0)] + [LoadRow(1)] + [Throw(1)] + [MarkFailed(1)];
    var v := After(INIT, OVERTAKEN);
    assert v.jobs == w1.jobs && v.automations == w.automations;
  }
}
