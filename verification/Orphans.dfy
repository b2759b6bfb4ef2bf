/** Runs that nobody will ever work on: which pending conversation runs still end,
    and the hole in the lookup that keeps one run per occurrence. */
module Orphans {
  import opened Wrappers
  import opened Table
  import opened Executions
  import opened Lifecycle
  import opened LifecycleProperties

  /** A pending conversation run that no living task will claim. */
  ghost predicate Orphan(w: World, r: RunId) {
    && r < |w.db.runs| && w.db.runs[r].status.Pending? && w.db.runs[r].key.Goal?
    && forall t :: 0 <= t < |w.tasks| && w.tasks[t].run == r ==> w.tasks[t].pc.Ended? || w.tasks[t].pc.Crashed?
  }

  lemma OrphanRowStays(w: World, s: Step, r: RunId)
    requires Inv(w) && Orphan(w, r) && !(s.CancelRun? && s.run == r)
    ensures r < |Apply(w, s).db.runs| && Apply(w, s).db.runs[r] == w.db.runs[r]
  {
    assert RowOk(w.db.runs[r]);
    if Enabled(w, s) && s.FinishRun? { assert w.tasks[s.task].run != r; }
    if Enabled(w, s) && s.ClaimRun? { assert w.tasks[s.task].run != r; }
  }

  lemma OrphanTasksStayDead(w: World, s: Step, r: RunId, t: nat)
    requires Inv(w) && Orphan(w, r) && !(s.CancelRun? && s.run == r)
    requires t < |Apply(w, s).tasks| && Apply(w, s).tasks[t].run == r
    ensures Apply(w, s).tasks[t].pc.Ended? || Apply(w, s).tasks[t].pc.Crashed?
  {
    if t < |w.tasks| { assert w.tasks[t].run == r; }
    if Enabled(w, s) && s.RunScheduled? {
      ScheduledKeeps(w.db, s.contact, s.goal, s.scope, Occurrence(s.automation, s.second));
    }
  }

  lemma OrphanStep(w: World, s: Step, r: RunId)
    requires Inv(w) && Orphan(w, r) && !(s.CancelRun? && s.run == r)
    ensures Orphan(Apply(w, s), r)
  {
    OrphanRowStays(w, s, r);
    var v := Apply(w, s);
    forall t | 0 <= t < |v.tasks| && v.tasks[t].run == r ensures v.tasks[t].pc.Ended? || v.tasks[t].pc.Crashed? {
      OrphanTasksStayDead(w, s, r, t);
    }
  }

  /** NOT EVERY RUN ENDS: a run whose task died before claiming it stays pending,
      and keeps its capacity slot, through any steps but its own cancellation;
      no passage of time and no startup cleanup ends it. */
  lemma {:induction false} OrphanStaysPending(w: World, steps: seq<Step>, r: RunId)
    requires Inv(w) && Orphan(w, r)
    requires forall k :: 0 <= k < |steps| && steps[k].CancelRun? ==> steps[k].run != r
    ensures Orphan(After(w, steps), r)
  {
    if steps != [] {
      var init := steps[..|steps| - 1];
      OrphanStaysPending(w, init, r);
      RunKeeps(w, init);
      OrphanStep(After(w, init), steps[|steps| - 1], r);
    }
  }

  /** Such a run is two steps away: dispatched, then its task dies. */
  lemma OrphanIsReachable()
    ensures exists steps :: Orphan(After(INIT, steps), 0)
  {
    var dispatch := DispatchGoal(7, "goal", {}, "digest");
    var steps := [dispatch, Crash(0)];
    assert steps[..1] == [dispatch] && [dispatch][..0] == [];
    var w := Apply(INIT, dispatch);
    assert w.tasks == [Task(0, 7, "goal", Ready)] && w.db.runs == [NewRun(7, "goal", {}, DedupeKey.Goal("digest"))];
    assert After(INIT, [dispatch]) == w;
    assert After(INIT, steps) == WithPc(w, 0, Crashed);
    assert Orphan(After(INIT, steps), 0);
  }

  // --------------------------------------------------- every other run can end

  /** A pending conversation run was never claimed, as it is never reclaimed. */
  predicate Unclaimed(w: World) {
    forall t :: 0 <= t < |w.tasks| && w.tasks[t].run < |w.db.runs|
                && w.db.runs[w.tasks[t].run].status.Pending? && w.db.runs[w.tasks[t].run].key.Goal? ==>
      Untouched(w.tasks[t].pc)
  }

  predicate Untouched(pc: Pc) { pc.Ready? || pc.Ended? || pc.Crashed? }

  lemma TaskStepKeepsUnclaimed(w: World, s: Step)
    requires Inv(w) && Unclaimed(w) && IsTaskStep(s) && Enabled(w, s)
    ensures Unclaimed(Apply(w, s))
  {
    assert TaskOk(w, w.tasks[s.task]);
  }

  lemma OutsideStepKeepsUnclaimed(w: World, s: Step)
    requires Inv(w) && Unclaimed(w) && !IsTaskStep(s)
    ensures Unclaimed(Apply(w, s))
  {
    forall t | 0 <= t < |w.tasks| ensures TaskOk(w, w.tasks[t]) {}
    if s.RunScheduled? { ScheduledKeepsUnclaimed(w, s); }
  }

  lemma ScheduledKeepsUnclaimed(w: World, s: Step)
    requires Inv(w) && Unclaimed(w) && s.RunScheduled?
    ensures Unclaimed(Apply(w, s))
  {
    forall t | 0 <= t < |w.tasks| ensures TaskOk(w, w.tasks[t]) {}
  }

  lemma {:induction false} RunKeepsUnclaimed(steps: seq<Step>)
    ensures Inv(After(INIT, steps)) && Unclaimed(After(INIT, steps))
  {
    InitOk();
    RunKeeps(INIT, steps);
    if steps != [] {
      var init := steps[..|steps| - 1];
      var s := steps[|steps| - 1];
      RunKeepsUnclaimed(init);
      var w := After(INIT, init);
      if !IsTaskStep(s) {
        OutsideStepKeepsUnclaimed(w, s);
      } else if Enabled(w, s) {
        TaskStepKeepsUnclaimed(w, s);
      }
    }
  }

  /** Some steps, none of them its cancellation, end the run. */
  ghost predicate EndsUncancelled(w: World, r: RunId) { exists more: seq<Step> :: EndedBy(w, more, r) }

  predicate EndedBy(w: World, more: seq<Step>, r: RunId) {
    && (forall k :: 0 <= k < |more| && more[k].CancelRun? ==> more[k].run != r)
    && IsTerminal(After(w, more), r)
  }

  lemma ReadyTaskEnds(w: World, t: nat)
    requires t < |w.tasks| && TaskOk(w, w.tasks[t]) && w.tasks[t].pc.Ready?
    requires RowOk(w.db.runs[w.tasks[t].run]) && w.db.runs[w.tasks[t].run].status.Pending?
    ensures var u := Apply(Apply(w, ClaimRun(t)), AgentEnds(t, TimeoutExpired));
            IsTerminal(Apply(u, FinishRun(t)), w.tasks[t].run)
  {
    var claimed := Apply(w, ClaimRun(t));
    assert claimed.tasks[t].pc == Working && claimed.db.runs[w.tasks[t].run].status.Running?;
  }

  /** WHICH RUNS END: a pending conversation run of a reachable state can end
      without being cancelled exactly if it is no orphan. */
  lemma {:induction false} OrphanExactly(steps: seq<Step>, r: RunId)
    requires var w := After(INIT, steps); r < |w.db.runs| && w.db.runs[r].status.Pending? && w.db.runs[r].key.Goal?
    ensures EndsUncancelled(After(INIT, steps), r) <==> !Orphan(After(INIT, steps), r)
  {
    RunKeepsUnclaimed(steps);
    var w := After(INIT, steps);
    if Orphan(w, r) {
      forall more: seq<Step> ensures !EndedBy(w, more, r) {
        if forall k :: 0 <= k < |more| && more[k].CancelRun? ==> more[k].run != r { OrphanStaysPending(w, more, r); }
      }
    } else {
      var t :| 0 <= t < |w.tasks| && w.tasks[t].run == r && !w.tasks[t].pc.Ended? && !w.tasks[t].pc.Crashed?;
      assert Untouched(w.tasks[t].pc) && TaskOk(w, w.tasks[t]);
      ReadyTaskEnds(w, t);
      AfterThree(w, [], ClaimRun(t), AgentEnds(t, TimeoutExpired), FinishRun(t));
      assert EndedBy(w, [] + [ClaimRun(t)] + [AgentEnds(t, TimeoutExpired)] + [FinishRun(t)], r);
    }
  }

  // ------------------------------------------------ the lookup that is not locked

  lemma RaceWorld()
    ensures var u := Apply(Apply(INIT, RunScheduled(7, "goal", {}, 3, 0)), ClaimRun(0));
            var v := Apply(Apply(u, AgentEnds(0, TimeoutExpired)), FinishRun(0));
            && |v.db.runs| == 1 && WithKey(7, Occurrence(3, 0))(v.db.runs[0]) && v.db.runs[0].status.TimedOut?
  {
    var w := Apply(INIT, RunScheduled(7, "goal", {}, 3, 0));
    assert w.tasks == [Task(0, 7, "goal", Ready)] && w.db.runs == [NewRun(7, "goal", {}, Occurrence(3, 0))];
    var u := Apply(w, ClaimRun(0));
    assert u.tasks[0].pc == Working && u.db.runs[0].status.Running?;
    var v := Apply(u, AgentEnds(0, TimeoutExpired));
    assert v.tasks[0].pc == Finishing(TimedOut, None, Some("execution timeout"));
  }

  const RACE: seq<Step> :=
    [RunScheduled(7, "goal", {}, 3, 0)] + [ClaimRun(0)] + [AgentEnds(0, TimeoutExpired)] + [FinishRun(0)]

  lemma RaceRun()
    ensures var v := After(INIT, RACE);
            |v.db.runs| == 1 && WithKey(7, Occurrence(3, 0))(v.db.runs[0]) && v.db.runs[0].status.TimedOut?
  {
    var scheduled := [RunScheduled(7, "goal", {}, 3, 0)];
    assert scheduled == [] + scheduled;
    AfterAppend(INIT, [], scheduled[0]);
    AfterThree(INIT, scheduled, ClaimRun(0), AgentEnds(0, TimeoutExpired), FinishRun(0));
    RaceWorld();
  }

  /** TWO RUNS OF ONE OCCURRENCE are possible when the lookup and the insert are not
      one step: a worker that looked before another inserted, worked and finished
      inserts a second row, because only active rows are deduplicated. */
  lemma SecondRunSlipsThrough()
    ensures var between := After(INIT, RACE).db;
            var after := RacingBlock(INIT.db, between, 7, "goal", {}, Occurrence(3, 0)).0;
            |after.runs| == 2 && forall i :: 0 <= i < 2 ==> WithKey(7, Occurrence(3, 0))(after.runs[i])
  {
    RaceRun();
    var between := After(INIT, RACE).db;
    assert between.runs[..0] == [];
    assert Count(between.runs, ActiveOf(7)) == 0;
    SecondRowExactly(INIT.db, between, 7, "goal", {}, Occurrence(3, 0));
    assert HasKey(between.runs, 7, Occurrence(3, 0)) && !HasKey(INIT.db.runs, 7, Occurrence(3, 0));
  }
}
