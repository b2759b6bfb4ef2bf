/** Exactly when the row of an active automation can still change without its owner. */
module Inertia {
  import opened Wrappers
  import opened Scheduler
  import opened WakeUps
  import opened WakeUpProperties
  import opened CatchUp
  import L = Lifecycle

  /** Some steps, none of them its owner's, change the automation's row. */
  ghost predicate Changes(w: World, a: AutomationId) { exists more: seq<Step> :: ChangedBy(w, more, a) }

  predicate ChangedBy(w: World, more: seq<Step>, a: AutomationId) {
    && (forall i :: 0 <= i < |more| ==> !Intervenes(more[i], a))
    && a < |w.automations| && a < |After(w, more).automations|
    && After(w, more).automations[a] != w.automations[a]
  }

  /** None of the automation's wake-ups is running and none of its workers lives. */
  ghost predicate Settled(w: World, a: AutomationId) {
    && (forall j :: 0 <= j < |w.jobs| && IsWakeOf(w.jobs[j], a) ==> !w.jobs[j].status.Running?)
    && (forall k :: 0 <= k < |w.workers| && w.workers[k].payload.Wake? && w.workers[k].payload.automation == a ==>
          w.workers[k].pc.Gone?)
  }

  /** A pending wake-up is about another occurrence than the recorded one, or finds the
      recorded one and then the next, which is another. */
  predicate LeadsOn(w: World, a: AutomationId, p: JobId) {
    && p < |w.jobs| && PendingWake(a)(w.jobs[p]) && a < |w.automations|
    && !Repeats(w.automations[a], w.jobs[p].payload.occurrence)
  }

  // ----------------------------------------------------------- it can change

  function Due(w: World, p: JobId): Step
    requires p < |w.jobs|
  {
    Execution(L.Tick(if w.jobs[p].runAt <= w.Now() then 0 else w.jobs[p].runAt - w.Now()))
  }

  /** The wake-up p of the active automation a has been claimed and its row loaded. */
  predicate Loaded(w: World, v: World, a: AutomationId, p: JobId) {
    && p < |w.jobs| && w.jobs[p].payload.Wake? && a < |w.automations| && v.automations == w.automations
    && v.jobs == w.jobs[p := Started(w.jobs[p], v.Now())]
    && |v.workers| == |w.workers| + 1
    && v.workers[|w.workers|] == Worker(p, w.jobs[p].contact, w.jobs[p].payload, v.workers[|w.workers|].pc)
    && v.workers[|w.workers|].pc
       == if w.automations[a].lastStatus.Some?
             && w.automations[a].lastOccurrence == Some(w.jobs[p].payload.occurrence)
          then DuplicateSeen(w.automations[a].nextRunAt)
          else Firing(IsCatchUp(w.jobs[p].payload.occurrence, v.Now()))
  }

  lemma {:induction false} Loads(w: World, a: AutomationId, p: JobId)
    requires p < |w.jobs| && PendingWake(a)(w.jobs[p]) && Owned(w.automations, a, w.jobs[p].contact)
    requires w.automations[a].status.Active?
    ensures Loaded(w, After(w, [] + [Due(w, p)] + [ClaimJob(p)] + [LoadRow(|w.workers|)]), a, p)
  {
    AfterAppend(w, [], Due(w, p));
    AfterAppend(w, [] + [Due(w, p)], ClaimJob(p));
    AfterAppend(w, [] + [Due(w, p)] + [ClaimJob(p)], LoadRow(|w.workers|));
    var u := Apply(Apply(w, Due(w, p)), ClaimJob(p));
    assert u.workers[|w.workers|] == Worker(p, w.jobs[p].contact, w.jobs[p].payload, Claimed);
  }

  lemma FiredRowChanges(w: World, v: World, a: AutomationId, p: JobId)
    requires Loaded(w, v, a, p) && w.jobs[p].payload.automation == a && v.workers[|w.workers|].pc.Firing?
    requires Owned(w.automations, a, w.jobs[p].contact) && w.automations[a].status.Active?
    requires w.automations[a].lastOccurrence != Some(w.jobs[p].payload.occurrence)
    ensures var u := Apply(Apply(v, Fire(|w.workers|, false)), CloseWakeUp(|w.workers|, None));
            a < |u.automations| && u.automations[a] != w.automations[a]
  {
    var k := |w.workers|;
    var fired := Apply(v, Fire(k, false));
    assert fired.workers[k].pc.Closing? && fired.automations == w.automations;
    var u := Apply(fired, CloseWakeUp(k, None));
    assert u.automations[a].lastOccurrence == Some(w.jobs[p].payload.occurrence);
  }

  lemma {:induction false} OtherOccurrenceChanges(w: World, a: AutomationId, p: JobId) returns (more: seq<Step>)
    requires p < |w.jobs| && PendingWake(a)(w.jobs[p]) && Owned(w.automations, a, w.jobs[p].contact)
    requires w.automations[a].status.Active? && AutomationOk(w, a)
    requires w.automations[a].lastOccurrence != Some(w.jobs[p].payload.occurrence)
    ensures ChangedBy(w, more, a)
  {
    var k := |w.workers|;
    var loading := [] + [Due(w, p)] + [ClaimJob(p)] + [LoadRow(k)];
    Loads(w, a, p);
    AfterAppend(w, loading, Fire(k, false));
    AfterAppend(w, loading + [Fire(k, false)], CloseWakeUp(k, None));
    FiredRowChanges(w, After(w, loading), a, p);
    more := loading + [Fire(k, false)] + [CloseWakeUp(k, None)];
  }

  /** Closing the recorded occurrence arms the next, as the only pending wake-up. */
  lemma DuplicateArms(w: World, v: World, a: AutomationId, p: JobId)
    requires Loaded(w, v, a, p) && UniqueWakes(w.jobs) && PendingWake(a)(w.jobs[p])
    requires v.workers[|w.workers|].pc.DuplicateSeen? && w.automations[a].nextRunAt.Some?
    ensures var u := Apply(v, CloseDuplicate(|w.workers|));
            var next := w.automations[a].nextRunAt.value;
            && u.automations == w.automations && |u.jobs| == |w.jobs| + 1
            && u.jobs[|w.jobs|] == NewJob(w.jobs[p].contact, Wake(a, next), next)
  {
    var closed := Complete(v.jobs, p);
    forall x | 0 <= x < |closed| ensures !PendingWake(a)(closed[x]) {
      if PendingWake(a)(closed[x]) { assert ArmedWake(w.jobs[x]) && ArmedWake(w.jobs[p]); }
    }
  }

  lemma {:induction false} RecordedOccurrenceLeadsOn(w: World, a: AutomationId, p: JobId) returns (more: seq<Step>)
    requires UniqueWakes(w.jobs) && p < |w.jobs| && PendingWake(a)(w.jobs[p])
    requires Owned(w.automations, a, w.jobs[p].contact) && w.automations[a].status.Active?
    requires w.automations[a].lastStatus.Some? && w.automations[a].nextRunAt.Some?
    requires w.automations[a].lastOccurrence == Some(w.jobs[p].payload.occurrence) != w.automations[a].nextRunAt
    ensures var u := After(w, more);
            && (forall i :: 0 <= i < |more| ==> !Intervenes(more[i], a))
            && u.automations == w.automations && |u.jobs| == |w.jobs| + 1
            && PendingWake(a)(u.jobs[|w.jobs|]) && u.jobs[|w.jobs|].contact == w.jobs[p].contact
            && Some(u.jobs[|w.jobs|].payload.occurrence) != w.automations[a].lastOccurrence
  {
    var k := |w.workers|;
    var loading := [] + [Due(w, p)] + [ClaimJob(p)] + [LoadRow(k)];
    Loads(w, a, p);
    AfterAppend(w, loading, CloseDuplicate(k));
    DuplicateArms(w, After(w, loading), a, p);
    more := loading + [CloseDuplicate(k)];
  }

  lemma {:induction false} AfterConcat(w: World, steps: seq<Step>, more: seq<Step>)
    ensures After(w, steps + more) == After(After(w, steps), more)
  {
    if more == [] {
      assert steps + more == steps;
    } else {
      var n := |more| - 1;
      assert (steps + more)[..|steps| + n] == steps + more[..n];
      AfterConcat(w, steps, more[..n]);
    }
  }

  lemma {:induction false} LeadingOnChanges(w: World, a: AutomationId, p: JobId)
    requires Inv(w) && LeadsOn(w, a, p) && w.automations[a].status.Active?
    ensures Changes(w, a)
  {
    assert AutomationOk(w, a) && Owned(w.automations, a, w.jobs[p].contact);
    if w.automations[a].lastOccurrence != Some(w.jobs[p].payload.occurrence) {
      var more := OtherOccurrenceChanges(w, a, p);
    } else {
      var first := RecordedOccurrenceLeadsOn(w, a, p);
      RunKeeps(w, first);
      var u := After(w, first);
      assert AutomationOk(u, a);
      var second := OtherOccurrenceChanges(u, a, |w.jobs|);
      AfterConcat(w, first, second);
      assert ChangedBy(w, first + second, a);
    }
  }

  // ------------------------------------------------------------------ theorem

  lemma SettledIsInert(w: World, a: AutomationId)
    requires a < |w.automations| && w.automations[a].status.Active? && Settled(w, a)
    requires forall p :: 0 <= p < |w.jobs| ==> !LeadsOn(w, a, p)
    ensures Inert(w, a)
  {
    forall j | 0 <= j < |w.jobs| && IsWakeOf(w.jobs[j], a) && !w.jobs[j].status.Done? && !w.jobs[j].status.Dead?
      ensures Repeats(w.automations[a], w.jobs[j].payload.occurrence)
    {
      assert !LeadsOn(w, a, j);
    }
  }

  /** WHICH ROWS STILL CHANGE: in any reachable state, the row of an active automation
      whose wake-ups and workers have settled can change without its owner exactly
      if its pending wake-up leads on to an occurrence other than the recorded one. */
  lemma {:induction false} ChangesExactly(steps: seq<Step>, a: AutomationId)
    requires var w := After(INIT, steps);
             a < |w.automations| && w.automations[a].status.Active? && Settled(w, a)
    ensures var w := After(INIT, steps);
            Changes(w, a) <==> exists p :: 0 <= p < |w.jobs| && LeadsOn(w, a, p)
  {
    InitOk();
    RunKeeps(INIT, steps);
    var w := After(INIT, steps);
    if p: nat :| p < |w.jobs| && LeadsOn(w, a, p) {
      LeadingOnChanges(w, a, p);
    } else {
      SettledIsInert(w, a);
      forall more: seq<Step> ensures !ChangedBy(w, more, a) {
        if forall i :: 0 <= i < |more| ==> !Intervenes(more[i], a) { InertUntilSomeoneIntervenes(w, more, a); }
      }
    }
  }
}
