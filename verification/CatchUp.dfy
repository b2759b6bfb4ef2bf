/** Closing a wake-up with the occurrence computed from the calendar: after any
    downtime it advances past now, except in a repeated hour, where the
    automation can be stuck on one instant for good. */
module CatchUp {
  import opened Wrappers
  import opened Scheduler
  import opened Schedule
  import opened WakeUps
  import opened WakeUpProperties
  import E = Executions
  import L = Lifecycle

  /** No pending wake-up of the automation is due. */
  ghost predicate NotDue(w: World, a: AutomationId) {
    forall j :: 0 <= j < |w.jobs| && PendingWake(a)(w.jobs[j]) ==> w.jobs[j].runAt > w.Now()
  }

  lemma ClosedAutomation(w: World, k: nat, next: Option<Instant>)
    requires Inv(w) && HandlesWake(w, k) && w.workers[k].pc.Closing?
    requires w.automations[w.workers[k].payload.automation].status.Active?
    ensures var v := CloseStep(w, k, next);
            var a := w.workers[k].payload.automation;
            && v.automations[a].nextRunAt == next
            && v.automations[a].lastOccurrence == Some(w.workers[k].payload.occurrence)
            && (next.Some? ==> HasPendingWake(v.jobs, a) && AllAt(v.jobs, a, next.value))
  {
    var x := w.workers[k];
    assert WorkerOk(w, x);
    CompleteKeeps(w.jobs, w.automations, x.job);
    if next.Some? {
      UpsertKeeps(Complete(w.jobs, x.job), w.automations, x.contact, x.payload.automation, next.value);
    }
  }

  /** What closing in world v gives automation a when the next slot is `slot`. */
  ghost predicate Advanced(v: World, a: AutomationId, slot: Option<int>, repeated: bool)
    requires a < |v.automations|
  {
    && (slot.None? <==> v.automations[a].nextRunAt.None?)
    && (slot.Some? ==>
         && (v.automations[a].nextRunAt.value > v.Now() <==> !repeated)
         && (NotDue(v, a) <==> !repeated))
  }

  lemma ClosingAdvances(w: World, k: nat, z: Zone, rule: Rule)
    requires Inv(w) && Regular(z) && StrictlyLater(rule)
    requires HandlesWake(w, k) && w.workers[k].pc.Closing?
    requires w.automations[w.workers[k].payload.automation].status.Active?
    ensures var slot := NextSlot(z, rule, w.Now());
            var v := CloseStep(w, k, NextOccurrence(z, rule, w.Now()));
            Advanced(v, w.workers[k].payload.automation, slot, slot.Some? && InRepeatedHour(z, w.Now(), slot.value))
  {
    var a := w.workers[k].payload.automation;
    var next := NextOccurrence(z, rule, w.Now());
    ClosedAutomation(w, k, next);
    if next.Some? {
      NextIsLaterUnlessRepeated(z, rule, w.Now());
      var v := CloseStep(w, k, next);
      var j :| 0 <= j < |v.jobs| && PendingWake(a)(v.jobs[j]);
      assert v.jobs[j].runAt == next.value;
    }
  }

  /** CATCH UP ONCE: in any reachable state, however many occurrences were missed
      since the closing one, an active automation is closed with no next run or
      with one strictly after now and no wake-up due, so none of the other
      missed occurrences is run. The one exception is a next slot inside a
      repeated hour; there, and only there, the wake-up is due at once. */
  lemma {:induction false} CatchUpAdvancesOnce(steps: seq<Step>, k: nat, z: Zone, rule: Rule)
    requires Regular(z) && StrictlyLater(rule)
    requires var w := After(INIT, steps);
             && HandlesWake(w, k) && w.workers[k].pc.Closing?
             && w.workers[k].payload.automation < |w.automations|
             && w.automations[w.workers[k].payload.automation].status.Active?
    ensures var w := After(INIT, steps);
            var slot := NextSlot(z, rule, w.Now());
            var v := CloseStep(w, k, NextOccurrence(z, rule, w.Now()));
            Advanced(v, w.workers[k].payload.automation, slot, slot.Some? && InRepeatedHour(z, w.Now(), slot.value))
  {
    InitOk();
    RunKeeps(INIT, steps);
    ClosingAdvances(After(INIT, steps), k, z, rule);
  }

  /** CATCH UP TO THE FIRST: closing in any reachable state leaves the first slot after
      the local time of now as next run, with its wake-up, and none exactly if no
      slot is left; so a slot still to come is not skipped either. */
  lemma {:induction false} CatchUpTakesTheFirst(
    steps: seq<Step>, k: nat, z: Zone, slots: int -> bool, rule: Rule)
    requires FirstAfter(slots, rule)
    requires var w := After(INIT, steps);
             && HandlesWake(w, k) && w.workers[k].pc.Closing?
             && w.workers[k].payload.automation < |w.automations|
             && w.automations[w.workers[k].payload.automation].status.Active?
    ensures var w := After(INIT, steps);
            var a := w.workers[k].payload.automation;
            var v := CloseStep(w, k, NextOccurrence(z, rule, w.Now()));
            var next := v.automations[a].nextRunAt;
            && (next.None? <==> forall y :: y > Local(z, w.Now()) ==> !slots(y))
            && (next.Some? ==>
                 && HasPendingWake(v.jobs, a) && AllAt(v.jobs, a, next.value)
                 && exists y :: IsFirst(slots, Local(z, w.Now()), y) && next == Some(ToUtc(z, y)))
  {
    InitOk();
    RunKeeps(INIT, steps);
    var w := After(INIT, steps);
    NextIsTheFirst(z, slots, rule, w.Now());
    ClosedAutomation(w, k, NextOccurrence(z, rule, w.Now()));
  }

  // ---------------------------------------------------------------- livelock

  /** Only the recorded occurrence is left: it is known, and the next one, if any, is
      no other. */
  predicate Repeats(row: Automation, occurrence: Instant) {
    row.lastOccurrence == Some(occurrence) && (row.nextRunAt.None? || row.nextRunAt == Some(occurrence))
  }

  /** The worker can only find its occurrence recorded and re-enqueue it. */
  predicate OnlyRepeats(x: Worker, row: Automation) {
    && x.payload.Wake? && Repeats(row, x.payload.occurrence)
    && (x.pc.Claimed? || x.pc == DuplicateSeen(row.nextRunAt) || x.pc.Raised? || x.pc.Returned?)
  }

  /** Neither a wake-up that is not over nor a living worker of the active automation
      is about any occurrence but the recorded one. */
  ghost predicate Inert(w: World, a: AutomationId) {
    && a < |w.automations| && w.automations[a].status.Active?
    && (forall j :: 0 <= j < |w.jobs| && IsWakeOf(w.jobs[j], a) && !w.jobs[j].status.Done? && !w.jobs[j].status.Dead?
          ==> Repeats(w.automations[a], w.jobs[j].payload.occurrence))
    && (forall k :: 0 <= k < |w.workers| && w.workers[k].payload.Wake? && w.workers[k].payload.automation == a ==>
          w.workers[k].pc.Gone? || OnlyRepeats(w.workers[k], w.automations[a]))
  }

  /** Inert, with the recorded occurrence t to come again. */
  ghost predicate Stuck(w: World, a: AutomationId, t: Instant) {
    && Inert(w, a)
    && w.automations[a].nextRunAt == Some(t) && w.automations[a].lastOccurrence == Some(t)
  }

  /** Someone changes the automation's own status. */
  predicate Intervenes(s: Step, a: AutomationId) {
    || (s.PauseAutomation? && s.automation == a)
    || (s.ResumeAutomation? && s.automation == a)
    || (s.CancelAutomation? && s.automation == a)
  }

  lemma ArmingStaysInert(
    w: World, v: World, b: AutomationId, contact: E.ContactId, runAt: Instant, a: AutomationId)
    requires Inert(w, a) && (b == a ==> Repeats(w.automations[a], runAt))
    requires v.jobs == Upsert(w.jobs, contact, b, runAt) && v.workers == w.workers
    requires a < |v.automations| && v.automations[a] == w.automations[a]
    ensures Inert(v, a)
  {}

  lemma PersonStepStaysInert(w: World, s: Step, a: AutomationId)
    requires Inv(w) && Inert(w, a) && IsPersonStep(s) && Enabled(w, s) && !Intervenes(s, a)
    ensures Inert(Apply(w, s), a) && Apply(w, s).automations[a] == w.automations[a]
  {
    var v := Apply(w, s);
    match s
    case CreateAutomation(contact, goal, toolkits, next) =>
      ArmingStaysInert(w, v, |w.automations|, contact, next, a);
    case ResumeAutomation(b, contact, next) =>
      if SetStatus(w.automations, b, contact, Active, Some(next)).1 { ArmingStaysInert(w, v, b, contact, next, a); }
    case _ =>
  }

  lemma ClosingStaysInert(w: World, k: nat, s: Step, a: AutomationId)
    requires Inv(w) && Inert(w, a) && Enabled(w, s)
    requires (s.CloseDuplicate? || s.CloseWakeUp?) && s.worker == k
    ensures Inert(Apply(w, s), a) && Apply(w, s).automations[a] == w.automations[a]
  {
    var v := Apply(w, s);
    var x := w.workers[k];
    var b := x.payload.automation;
    var u := w.(jobs := Complete(w.jobs, x.job), workers := v.workers, automations := v.automations);
    assert Inert(u, a);
    if v.jobs != u.jobs {
      var next := if s.CloseDuplicate? then x.pc.next else s.computed;
      ArmingStaysInert(u, v, b, x.contact, next.value, a);
    }
  }

  lemma LoadingStaysInert(w: World, k: nat, a: AutomationId)
    requires Inv(w) && Inert(w, a) && HandlesWake(w, k) && w.workers[k].pc.Claimed?
    ensures Inert(WithPc(w, k, AfterLoad(w, k)), a)
  {
    assert WorkerOk(w, w.workers[k]) && AutomationOk(w, a);
  }

  /** No worker of an inert automation is firing. */
  lemma FiringStaysInert(w: World, k: nat, available: bool, a: AutomationId)
    requires Inert(w, a) && HandlesWake(w, k) && w.workers[k].pc.Firing?
    ensures Inert(FireStep(w, k, available), a)
  {
    assert w.workers[k].payload.automation != a;
  }

  lemma FailingStaysInert(w: World, k: nat, a: AutomationId)
    requires Inert(w, a) && k < |w.workers|
    ensures Inert(FailStep(w, k), a)
  {}

  lemma WorkerStepStaysInert(w: World, s: Step, a: AutomationId)
    requires Inv(w) && Inert(w, a) && !IsPersonStep(s) && Enabled(w, s)
    ensures Inert(Apply(w, s), a) && Apply(w, s).automations[a] == w.automations[a]
  {
    match s
    case LoadRow(k) => LoadingStaysInert(w, k, a);
    case CloseDuplicate(k) => ClosingStaysInert(w, k, s, a);
    case CloseWakeUp(k, _) => ClosingStaysInert(w, k, s, a);
    case Fire(k, available) => FiringStaysInert(w, k, available, a);
    case MarkFailed(k) => FailingStaysInert(w, k, a);
    case CompleteReturned(k) =>
    case _ =>
  }

  /** INERT FOR GOOD: no interleaving of workers, crashes, failures and recoveries ever
      changes the row of an inert automation again; only its owner can. */
  lemma {:induction false} InertUntilSomeoneIntervenes(w: World, steps: seq<Step>, a: AutomationId)
    requires Inv(w) && Inert(w, a)
    requires forall i :: 0 <= i < |steps| ==> !Intervenes(steps[i], a)
    ensures Inert(After(w, steps), a) && After(w, steps).automations[a] == w.automations[a]
  {
    if steps != [] {
      var init := steps[..|steps| - 1];
      var s := steps[|steps| - 1];
      InertUntilSomeoneIntervenes(w, init, a);
      RunKeeps(w, init);
      var u := After(w, init);
      if Enabled(u, s) {
        if IsPersonStep(s) { PersonStepStaysInert(u, s, a); } else { WorkerStepStaysInert(u, s, a); }
      }
    }
  }

  /** STUCK FOR GOOD: once the next occurrence of an automation is the one it has
      already recorded, it stays due for it, and its row as it is. */
  lemma StuckUntilSomeoneIntervenes(w: World, steps: seq<Step>, a: AutomationId, t: Instant)
    requires Inv(w) && Stuck(w, a, t)
    requires forall i :: 0 <= i < |steps| ==> !Intervenes(steps[i], a)
    ensures Stuck(After(w, steps), a, t) && After(w, steps).automations[a] == w.automations[a]
  {
    InertUntilSomeoneIntervenes(w, steps, a);
  }

  // ------------------------------------------------- how it comes to be stuck

  const HOUR: nat := 3600 * SECOND

  /** The clock goes back from +1 h to +0 h at instant 100 h. */
  const AUTUMN := Zone(HOUR, [Shift(100 * HOUR, 0)])

  /** One slot, at half past the hour that the clock change repeats. */
  const HALF_PAST: int := 100 * HOUR + HOUR / 2

  const ONCE: Rule := x => if x < HALF_PAST then Some(HALF_PAST) else None

  const FIRST_PASS: Instant := 99 * HOUR + HOUR / 2

  lemma ClosedInSecondPass()
    ensures Regular(AUTUMN) && StrictlyLater(ONCE)
    ensures NextOccurrence(AUTUMN, ONCE, 0) == Some(FIRST_PASS)
    ensures NextOccurrence(AUTUMN, ONCE, 100 * HOUR) == Some(FIRST_PASS)
  {
    assert Trunc(Local(AUTUMN, 100 * HOUR)) == 100 * HOUR;
    assert Trunc(Local(AUTUMN, 0)) == HOUR;
  }

  const SCHEDULED: seq<Step> := [CreateAutomation(7, "goal", {}, FIRST_PASS)] + [Execution(L.Tick(100 * HOUR))]

  function RowAt(t: Instant): Automation { NewAutomation(7, "goal", {}, t) }

  lemma ScheduledWorld()
    ensures var w := After(INIT, SCHEDULED);
            && w.jobs == [NewJob(7, Wake(0, FIRST_PASS), FIRST_PASS)] && w.automations == [RowAt(FIRST_PASS)]
            && w.workers == [] && w.Now() == 100 * HOUR
  {
    var create := CreateAutomation(7, "goal", {}, FIRST_PASS);
    AfterAppend(INIT, [], create);
    assert [create] == [] + [create];
    AfterAppend(INIT, [create], Execution(L.Tick(100 * HOUR)));
  }

  lemma FiredLate(w: World)
    requires w.jobs == [NewJob(7, Wake(0, FIRST_PASS), FIRST_PASS)] && w.automations == [RowAt(FIRST_PASS)]
    requires w.workers == [] && w.Now() == 100 * HOUR
    ensures var u := Apply(Apply(Apply(w, ClaimJob(0)), LoadRow(0)), Fire(0, false));
            Stuck(Apply(u, CloseWakeUp(0, Some(FIRST_PASS))), 0, FIRST_PASS)
  {
    var u := Apply(Apply(w, ClaimJob(0)), LoadRow(0));
    assert u.workers[0].pc == Firing(true);
  }

  /** A wake-up scheduled at FIRST_PASS and closed half an hour later, in the
      second pass, with the occurrence the calendar then gives, is stuck. */
  lemma StuckIsReachable()
    ensures var steps := SCHEDULED + [ClaimJob(0)] + [LoadRow(0)] + [Fire(0, false)]
                         + [CloseWakeUp(0, NextOccurrence(AUTUMN, ONCE, After(INIT, SCHEDULED).Now()))];
            Stuck(After(INIT, steps), 0, NextOccurrence(AUTUMN, ONCE, 0).value)
  {
    ScheduledWorld();
    ClosedInSecondPass();
    AfterAppend(INIT, SCHEDULED, ClaimJob(0));
    AfterAppend(INIT, SCHEDULED + [ClaimJob(0)], LoadRow(0));
    AfterAppend(INIT, SCHEDULED + [ClaimJob(0)] + [LoadRow(0)], Fire(0, false));
    AfterAppend(INIT, SCHEDULED + [ClaimJob(0)] + [LoadRow(0)] + [Fire(0, false)], CloseWakeUp(0, Some(FIRST_PASS)));
    FiredLate(After(INIT, SCHEDULED));
  }
}
