/** The recovery of stale jobs held up for good: two stale wake-ups of one automation
    that nobody works on make the one recovery statement fail at every later time,
    for every contact, and with it the start of every worker, which begins with it
    (app/worker/loop.py). */
module Jams {
  import opened Wrappers
  import opened Table
  import opened Scheduler
  import opened WakeUps
  import opened WakeUpProperties
  import L = Lifecycle

  /** No living worker has the job. */
  predicate Unattended(w: World, j: JobId) {
    forall k :: 0 <= k < |w.workers| && w.workers[k].job == j ==> w.workers[k].pc.Gone?
  }

  predicate Stale(w: World, j: JobId) { j < |w.jobs| && StaleAt(w.Now() - STALE_LOCK)(w.jobs[j]) }

  /** Two stale wake-ups of one automation. */
  predicate StalePair(w: World, i: JobId, j: JobId) {
    && i != j && Stale(w, i) && Stale(w, j)
    && w.jobs[i].payload.Wake? && IsWakeOf(w.jobs[j], w.jobs[i].payload.automation)
  }

  predicate Jammed(w: World, i: JobId, j: JobId) { StalePair(w, i, j) && Unattended(w, i) && Unattended(w, j) }

  lemma PairBlocks(w: World, i: JobId, j: JobId)
    requires StalePair(w, i, j)
    ensures RecoverStale(w.jobs, w.Now()).None?
  {
    var after := UpdateWhere(w.jobs, StaleAt(w.Now() - STALE_LOCK), Requeued());
    assert ArmedWake(after[i]) && ArmedWake(after[j]);
  }

  // ------------------------------------------------------- nothing moves them

  /** The job is as it was, still stale and still nobody's. */
  predicate LeftAlone(w: World, v: World, x: JobId) {
    Stale(w, x) && x < |v.jobs| && v.jobs[x] == w.jobs[x] && v.Now() >= w.Now() && Unattended(v, x)
  }

  lemma TimeGoesOn(e: L.World, s: L.Step)
    ensures L.Apply(e, s).db.now >= e.db.now
  {}

  lemma PersonLeavesAlone(w: World, s: Step, x: JobId)
    requires Stale(w, x) && Unattended(w, x) && Enabled(w, s) && IsPersonStep(s) && !s.RecoverStaleJobs?
    ensures LeftAlone(w, Apply(w, s), x)
  {
    if s.Execution? { TimeGoesOn(w.exec, s.step); }
  }

  predicate IsClosing(s: Step) { s.CloseDuplicate? || s.CloseWakeUp? || s.MarkFailed? || s.CompleteReturned? }

  lemma ClosingLeavesAlone(w: World, s: Step, x: JobId)
    requires Stale(w, x) && Unattended(w, x) && Enabled(w, s) && IsClosing(s)
    requires !w.workers[s.worker].pc.Gone?
    ensures LeftAlone(w, Apply(w, s), x)
  {
    assert w.workers[s.worker].job != x;
  }

  lemma FiringLeavesAlone(w: World, k: nat, available: bool, x: JobId)
    requires Stale(w, x) && Unattended(w, x) && HandlesWake(w, k) && w.workers[k].pc.Firing?
    ensures LeftAlone(w, FireStep(w, k, available), x)
  {}

  lemma MovingLeavesAlone(w: World, s: Step, x: JobId)
    requires Stale(w, x) && Unattended(w, x) && Enabled(w, s)
    requires !IsPersonStep(s) && !IsClosing(s) && !s.Fire?
    ensures LeftAlone(w, Apply(w, s), x)
  {}

  lemma StepLeavesAlone(w: World, s: Step, i: JobId, j: JobId, x: JobId)
    requires Jammed(w, i, j) && Stale(w, x) && Unattended(w, x)
    ensures LeftAlone(w, Apply(w, s), x)
  {
    if s.RecoverStaleJobs? {
      PairBlocks(w, i, j);
    } else if Enabled(w, s) {
      if IsPersonStep(s) {
        PersonLeavesAlone(w, s, x);
      } else if IsClosing(s) {
        ClosingLeavesAlone(w, s, x);
      } else if s.Fire? {
        FiringLeavesAlone(w, s.worker, s.available, x);
      } else {
        MovingLeavesAlone(w, s, x);
      }
    }
  }

  /** JAMMED FOR GOOD: whatever anybody does, the pair stays as it is, every recovery is
      refused, and so every other stale job that nobody works on, of any contact,
      stays as it is too. */
  lemma {:induction false} JammedForGood(w: World, steps: seq<Step>, i: JobId, j: JobId, x: JobId)
    requires Jammed(w, i, j) && Stale(w, x) && Unattended(w, x)
    ensures var v := After(w, steps);
            Jammed(v, i, j) && RecoverStale(v.jobs, v.Now()).None? && LeftAlone(w, v, x) && Stale(v, x)
  {
    if steps == [] {
      PairBlocks(w, i, j);
    } else {
      var init := steps[..|steps| - 1];
      var u := After(w, init);
      var s := steps[|steps| - 1];
      JammedForGood(w, init, i, j, x);
      StepLeavesAlone(u, s, i, j, x);
      StepLeavesAlone(u, s, i, j, i);
      StepLeavesAlone(u, s, i, j, j);
      PairBlocks(Apply(u, s), i, j);
    }
  }

  // ------------------------------------------------- a living worker breaks one

  /** Some steps end the hold of one of the two. */
  ghost predicate Breaks(w: World, i: JobId, j: JobId) { exists more: seq<Step> :: BrokenBy(w, more, i, j) }

  predicate BrokenBy(w: World, more: seq<Step>, i: JobId, j: JobId) { !StalePair(After(w, more), i, j) }

  /** The automation's pending wake-up, if it has one, is waited for and claimed. */
  function Clearing(w: World, a: AutomationId): seq<Step> {
    var pending := FindLast(w.jobs, PendingWake(a));
    if pending.None? then []
    else
      var p := pending.value;
      [Execution(L.Tick(if w.jobs[p].runAt <= w.Now() then 0 else w.jobs[p].runAt - w.Now()))] + [ClaimJob(p)]
  }

  /** Worker k is where it was, and no wake-up of the automation is pending. */
  ghost predicate Clear(w: World, v: World, a: AutomationId, k: nat) {
    && k < |w.workers| <= |v.workers| && v.workers[k] == w.workers[k]
    && |v.jobs| == |w.jobs| && UniqueWakes(v.jobs)
    && (forall x :: 0 <= x < |w.jobs| && !w.jobs[x].status.Pending? ==> v.jobs[x] == w.jobs[x])
    && (forall x :: 0 <= x < |v.jobs| ==> !PendingWake(a)(v.jobs[x]))
  }

  lemma Claimed(w: World, u: World, a: AutomationId, p: JobId, k: nat)
    requires UniqueWakes(w.jobs) && FindLast(w.jobs, PendingWake(a)) == Some(p) && k < |w.workers|
    requires u.jobs == w.jobs && u.workers == w.workers && w.jobs[p].runAt <= u.Now()
    ensures Clear(w, Apply(u, ClaimJob(p)), a, k)
  {
    var v := ClaimStep(u, p);
    forall x | 0 <= x < |v.jobs| ensures !PendingWake(a)(v.jobs[x]) {
      if PendingWake(a)(v.jobs[x]) { assert ArmedWake(w.jobs[x]) && ArmedWake(w.jobs[p]); }
    }
  }

  lemma {:induction false} Clears(w: World, a: AutomationId, k: nat)
    requires UniqueWakes(w.jobs) && k < |w.workers|
    ensures Clear(w, After(w, Clearing(w, a)), a, k)
  {
    var pending := FindLast(w.jobs, PendingWake(a));
    if pending.Some? {
      var p := pending.value;
      var tick := Execution(L.Tick(if w.jobs[p].runAt <= w.Now() then 0 else w.jobs[p].runAt - w.Now()));
      assert [tick] == [] + [tick];
      AfterAppend(w, [], tick);
      AfterAppend(w, [tick], ClaimJob(p));
      Claimed(w, Apply(w, tick), a, p, k);
    }
  }

  lemma FailingEnds(v: World, k: nat, a: AutomationId)
    requires k < |v.workers| && v.workers[k].job < |v.jobs| && v.jobs[v.workers[k].job].status.Running?
    requires !v.workers[k].pc.Gone? && !v.workers[k].pc.Returned?
    requires UniqueWakes(v.jobs) && IsWakeOf(v.jobs[v.workers[k].job], a)
    requires forall x :: 0 <= x < |v.jobs| ==> !PendingWake(a)(v.jobs[x])
    ensures var u := Apply(Apply(v, Throw(k)), MarkFailed(k));
            |u.jobs| == |v.jobs| && !u.jobs[v.workers[k].job].status.Running?
  {
    var j := v.workers[k].job;
    var u := WithPc(v, k, Raised);
    var after := u.jobs[j := Failed(u.jobs[j], u.Now())];
    forall x, y | 0 <= x < y < |after| && ArmedWake(after[x]) && ArmedWake(after[y])
      ensures after[x].payload.automation != after[y].payload.automation
    {
      if x == j { assert !PendingWake(a)(v.jobs[y]); }
      if y == j { assert !PendingWake(a)(v.jobs[x]); }
    }
  }

  lemma CompletingEnds(w: World, k: nat)
    requires k < |w.workers| && w.workers[k].pc.Returned? && w.workers[k].job < |w.jobs|
    ensures !Stale(Apply(w, CompleteReturned(k)), w.workers[k].job)
  {}

  lemma {:induction false} FoundBroken(w: World, more: seq<Step>, v: World, j: JobId, other: JobId)
    requires After(w, more) == v && !Stale(v, j)
    ensures Breaks(w, j, other) && Breaks(w, other, j)
  {
    assert BrokenBy(w, more, j, other) && BrokenBy(w, more, other, j);
  }

  lemma {:induction false} ReturnedBreaks(w: World, k: nat, j: JobId, other: JobId)
    requires k < |w.workers| && w.workers[k].pc.Returned? && w.workers[k].job == j < |w.jobs|
    ensures Breaks(w, j, other) && Breaks(w, other, j)
  {
    AfterAppend(w, [], CompleteReturned(k));
    CompletingEnds(w, k);
    FoundBroken(w, [] + [CompleteReturned(k)], Apply(w, CompleteReturned(k)), j, other);
  }

  /** Two more steps after which the job does not run end its hold. */
  lemma {:induction false} EndedBreaks(w: World, first: seq<Step>, s: Step, t: Step, j: JobId, other: JobId)
    requires var u := Apply(Apply(After(w, first), s), t); j < |u.jobs| && !u.jobs[j].status.Running?
    ensures Breaks(w, j, other) && Breaks(w, other, j)
  {
    AfterAppend(w, first, s);
    AfterAppend(w, first + [s], t);
    FoundBroken(w, first + [s] + [t], Apply(Apply(After(w, first), s), t), j, other);
  }

  lemma {:induction false} WorkerBreaks(w: World, k: nat, i: JobId, j: JobId)
    requires UniqueWakes(w.jobs) && StalePair(w, i, j) && k < |w.workers| && !w.workers[k].pc.Gone?
    requires w.workers[k].job == i || w.workers[k].job == j
    ensures Breaks(w, i, j)
  {
    var other := if w.workers[k].job == i then j else i;
    if w.workers[k].pc.Returned? {
      ReturnedBreaks(w, k, w.workers[k].job, other);
    } else {
      var a := w.jobs[i].payload.automation;
      Clears(w, a, k);
      FailingEnds(After(w, Clearing(w, a)), k, a);
      EndedBreaks(w, Clearing(w, a), Throw(k), MarkFailed(k), w.workers[k].job, other);
    }
  }

  /** WHICH PAIRS HOLD RECOVERY UP FOR GOOD: two stale wake-ups of one automation, in any
      reachable state, stay so through every further run exactly if no living
      worker has either of them. */
  lemma {:induction false} JamsExactly(steps: seq<Step>, i: JobId, j: JobId)
    requires StalePair(After(INIT, steps), i, j)
    ensures var w := After(INIT, steps);
            !Breaks(w, i, j) <==> Unattended(w, i) && Unattended(w, j)
  {
    InitOk();
    RunKeeps(INIT, steps);
    var w := After(INIT, steps);
    if Jammed(w, i, j) {
      forall more: seq<Step> ensures !BrokenBy(w, more, i, j) { JammedForGood(w, more, i, j, i); }
    } else if !Unattended(w, i) {
      var k :| 0 <= k < |w.workers| && w.workers[k].job == i && !w.workers[k].pc.Gone?;
      WorkerBreaks(w, k, i, j);
    } else {
      var k :| 0 <= k < |w.workers| && w.workers[k].job == j && !w.workers[k].pc.Gone?;
      WorkerBreaks(w, k, i, j);
    }
  }

  // --------------------------------------------------------- how it comes about

  /** A worker dies with a wake-up; its automation is paused and resumed meanwhile, and
      the worker that claims the new wake-up dies too. */
  const CRASHED: seq<Step> :=
    [CreateAutomation(7, "goal", {}, 0)] + [ClaimJob(0)] + [CrashWorker(0)] + [PauseAutomation(0, 7)]

  const RESUMED: seq<Step> := CRASHED + [ResumeAutomation(0, 7, 0)] + [ClaimJob(1)] + [CrashWorker(1)]

  predicate OneCrashed(w: World) {
    && |w.jobs| == 1 && IsWakeOf(w.jobs[0], 0) && w.jobs[0].status.Running? && w.jobs[0].lockedAt == Some(0)
    && |w.automations| == 1 && w.automations[0].status.Paused? && w.automations[0].contact == 7
    && |w.workers| == 1 && w.workers[0].job == 0 && w.workers[0].pc.Gone? && w.Now() == 0
  }

  predicate TwoCrashed(w: World) {
    && |w.jobs| == 2 && w.Now() == 0
    && (forall i :: 0 <= i < 2 ==>
         IsWakeOf(w.jobs[i], 0) && w.jobs[i].status.Running? && w.jobs[i].lockedAt == Some(0))
    && (forall k :: 0 <= k < |w.workers| ==> w.workers[k].pc.Gone?)
  }

  lemma {:induction false} FirstCrash()
    ensures OneCrashed(After(INIT, CRASHED))
  {
    var create := CreateAutomation(7, "goal", {}, 0);
    assert [create] == [] + [create];
    AfterAppend(INIT, [], create);
    AfterAppend(INIT, [create], ClaimJob(0));
    AfterAppend(INIT, [create] + [ClaimJob(0)], CrashWorker(0));
    AfterAppend(INIT, [create] + [ClaimJob(0)] + [CrashWorker(0)], PauseAutomation(0, 7));
  }

  lemma SecondCrash(w: World)
    requires OneCrashed(w)
    ensures TwoCrashed(Apply(Apply(Apply(w, ResumeAutomation(0, 7, 0)), ClaimJob(1)), CrashWorker(1)))
  {
    var u := Apply(w, ResumeAutomation(0, 7, 0));
    assert u.jobs == w.jobs + [NewJob(7, Wake(0, 0), 0)];
  }

  lemma TimePasses(w: World)
    requires TwoCrashed(w)
    ensures Jammed(Apply(w, Execution(L.Tick(STALE_LOCK + 1))), 0, 1)
  {}

  /** Such a jam is reachable. */
  lemma {:induction false} JamIsReachable()
    ensures Jammed(After(INIT, RESUMED + [Execution(L.Tick(STALE_LOCK + 1))]), 0, 1)
  {
    FirstCrash();
    var w := After(INIT, CRASHED);
    SecondCrash(w);
    AfterAppend(INIT, CRASHED, ResumeAutomation(0, 7, 0));
    AfterAppend(INIT, CRASHED + [ResumeAutomation(0, 7, 0)], ClaimJob(1));
    AfterAppend(INIT, CRASHED + [ResumeAutomation(0, 7, 0)] + [ClaimJob(1)], CrashWorker(1));
    AfterAppend(INIT, RESUMED, Execution(L.Tick(STALE_LOCK + 1)));
    TimePasses(After(INIT, RESUMED));
  }
}
