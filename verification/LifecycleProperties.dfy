/** Safety of every interleaving of execution tasks: capacity and dedupe, one
    terminal transition, one event, one re-entry, acknowledged only if delivered. */
module LifecycleProperties {
  import opened Wrappers
  import opened Table
  import opened Executions
  import opened Lifecycle
  import Interaction
  import TurnProperties

  /** Rows keep their identity, terminal rows and events are never rewritten. */
  ghost predicate DbExtends(a: Db, b: Db) {
    && |a.runs| <= |b.runs| && |a.events| <= |b.events|
    && (forall r :: 0 <= r < |a.runs| ==>
         && b.runs[r].contact == a.runs[r].contact && b.runs[r].key == a.runs[r].key && b.runs[r].goal == a.runs[r].goal
         && (Terminal(a.runs[r].status) ==> b.runs[r] == a.runs[r]))
    && (forall e :: 0 <= e < |a.events| ==>
         && b.events[e] == a.events[e].(processedAt := b.events[e].processedAt)
         && (a.events[e].processedAt.Some? ==> b.events[e] == a.events[e]))
  }

  // ------------------------------------------------- one statement at a time

  lemma CapacityAfterUpdate(runs: seq<Run>, r: RunId, row: Run)
    requires r < |runs| && Capacity(runs)
    requires row.contact == runs[r].contact && Active(runs[r].status)
    ensures Capacity(runs[r := row])
  {
    forall c: ContactId ensures Count(runs[r := row], ActiveOf(c)) <= MAX_ACTIVE_RUNS {
      CountUpdate(runs, r, row, ActiveOf(c));
    }
  }

  /** An active row may become any well-formed row that is active or abandoned. */
  lemma RowUpdateKeeps(db: Db, r: RunId, row: Run)
    requires DbOk(db) && r < |db.runs| && Active(db.runs[r].status)
    requires RowOk(row) && !Reported(row.status)
    requires row.contact == db.runs[r].contact && row.key == db.runs[r].key && row.goal == db.runs[r].goal
    ensures DbOk(db.(runs := db.runs[r := row])) && DbExtends(db, db.(runs := db.runs[r := row]))
  {
    CapacityAfterUpdate(db.runs, r, row);
  }

  predicate IsRunFor(db: Db, r: RunId, contact: ContactId, key: DedupeKey) {
    r < |db.runs| && WithKey(contact, key)(db.runs[r])
  }

  lemma InsertKeeps(db: Db, contact: ContactId, goal: string, scope: set<string>, key: DedupeKey)
    requires DbOk(db)
    requires key.Occurrence? ==> forall i :: 0 <= i < |db.runs| ==> !WithKey(contact, key)(db.runs[i])
    ensures var (next, run, created) := CreateOrGet(db, contact, goal, scope, key);
            && DbOk(next) && DbExtends(db, next)
            && (run.Some? ==> IsRunFor(next, run.value, contact, key) && Active(next.runs[run.value].status))
            && (created ==> run == Some(|db.runs|) && next.runs == db.runs + [NewRun(contact, goal, scope, key)])
  {
    var (next, run, created) := CreateOrGet(db, contact, goal, scope, key);
    if created {
      forall i | 0 <= i < |db.runs| && db.runs[i].contact == contact && db.runs[i].key == key
        ensures key.Goal? && Terminal(db.runs[i].status)
      {
        assert !ActiveWithKey(contact, key)(db.runs[i]);
      }
      AppendKeeps(db, contact, goal, scope, key);
    }
  }

  lemma AppendKeeps(db: Db, contact: ContactId, goal: string, scope: set<string>, key: DedupeKey)
    requires DbOk(db) && Count(db.runs, ActiveOf(contact)) < MAX_ACTIVE_RUNS
    requires forall i :: 0 <= i < |db.runs| && db.runs[i].contact == contact && db.runs[i].key == key ==>
               key.Goal? && Terminal(db.runs[i].status)
    ensures var next := db.(runs := db.runs + [NewRun(contact, goal, scope, key)]);
            DbOk(next) && DbExtends(db, next)
  {
    var row := NewRun(contact, goal, scope, key);
    forall c: ContactId ensures Count(db.runs + [row], ActiveOf(c)) <= MAX_ACTIVE_RUNS {
      CountAppend(db.runs, row, ActiveOf(c));
    }
  }

  lemma ScheduledKeeps(db: Db, contact: ContactId, goal: string, scope: set<string>, key: DedupeKey)
    requires DbOk(db)
    ensures var (next, run) := ScheduledBlock(db, contact, goal, scope, key);
            && DbOk(next) && DbExtends(db, next)
            && (run.Some? ==> IsRunFor(next, run.value, contact, key))
  {
    var existing := FindLast(db.runs, WithKey(contact, key));
    if existing.Some? {
      if Reclaimable(db.runs[existing.value].status) {
        var row := db.runs[existing.value];
        RowUpdateKeeps(db, existing.value, row.(status := Pending, startedAt := None, cancelRequested := false));
      }
    } else {
      InsertKeeps(db, contact, goal, scope, key);
    }
  }

  lemma AbandonKeeps(db: Db, olderThan: Instant)
    requires DbOk(db)
    ensures DbOk(AbandonStale(db, olderThan)) && DbExtends(db, AbandonStale(db, olderThan))
  {
    var next := AbandonStale(db, olderThan);
    forall c: ContactId ensures Count(next.runs, ActiveOf(c)) <= MAX_ACTIVE_RUNS {
      CountMonotone(db.runs, next.runs, ActiveOf(c));
    }
  }

  predicate IsNewEvent(db: Db, next: Db, e: EventId, r: RunId) {
    e == |db.events| < |next.events| && next.events[e].run == r && next.events[e].processedAt.None?
  }

  lemma FinishedEventsOk(db: Db, next: Db, r: RunId, row: Run, event: Event)
    requires DbOk(db) && r < |db.runs| && Active(db.runs[r].status)
    requires next.runs == db.runs[r := row] && next.events == db.events + [event]
    requires event.run == r && Matches(event, row)
    ensures EventsOk(next)
  {
    forall q | 0 <= q < |next.runs| && Reported(next.runs[q].status) ensures HasEvent(next.events, q) {
      if q == r {
        assert next.events[|db.events|].run == r;
      } else {
        assert HasEvent(db.events, q);
        var e :| 0 <= e < |db.events| && db.events[e].run == q;
        assert next.events[e].run == q;
      }
    }
  }

  lemma FinishKeeps(
    db: Db, r: RunId, contact: ContactId, goal: string, status: Status, result: Option<RunResult>,
    error: Option<string>)
    requires DbOk(db) && Reported(status) && (r < |db.runs| && db.runs[r].key.Goal? ==> goal == db.runs[r].goal)
    ensures var (next, event) := FinishBlock(db, r, contact, goal, status, result, error);
            && DbOk(next) && DbExtends(db, next)
            && (event.Some? ==> IsNewEvent(db, next, event.value, r))
            && (event.None? ==> next == db)
  {
    var (next, event) := FinishBlock(db, r, contact, goal, status, result, error);
    if event.Some? {
      CapacityAfterUpdate(db.runs, r, next.runs[r]);
      FinishedEventsOk(db, next, r, next.runs[r], next.events[|db.events|]);
    }
  }

  lemma MarkedEventsOk(db: Db, e: EventId, event: Event)
    requires EventsOk(db) && e < |db.events| && event == db.events[e].(processedAt := event.processedAt)
    ensures EventsOk(db.(events := db.events[e := event]))
  {
    var next := db.(events := db.events[e := event]);
    forall q | 0 <= q < |next.runs| && Reported(next.runs[q].status) ensures HasEvent(next.events, q) {
      assert HasEvent(db.events, q);
      var f :| 0 <= f < |db.events| && db.events[f].run == q;
      assert next.events[f].run == q;
    }
  }

  lemma MarkKeeps(db: Db, e: EventId, contact: ContactId)
    requires DbOk(db)
    ensures var next := MarkProcessed(db, e, contact).0;
            && DbOk(next) && DbExtends(db, next)
            && (forall f :: 0 <= f < |db.events| && next.events[f].processedAt.Some? ==>
                 f == e || db.events[f].processedAt.Some?)
  {
    var (next, marked) := MarkProcessed(db, e, contact);
    if marked { MarkedEventsOk(db, e, next.events[e]); }
  }

  // ------------------------------------------------------- one step of a task

  /** A database change that leaves every task and re-entry meaningful. */
  lemma DbStepKeeps(w: World, db: Db)
    requires Inv(w) && DbOk(db) && DbExtends(w.db, db)
    requires forall e :: 0 <= e < |db.events| && db.events[e].processedAt.Some? ==> Delivered(w, e)
    ensures Inv(w.(db := db))
  {
    var v := w.(db := db);
    forall e | Delivered(w, e) ensures Delivered(v, e) {
      var k :| 0 <= k < |w.reentries| && w.reentries[k].event == e
               && Answered(w.reentries[k]) && Interaction.Delivered(w.reentries[k].report.turn);
      assert v.reentries[k] == w.reentries[k];
    }
  }

  predicate Idle(pc: Pc) {
    !pc.Reentering? && !pc.Acking? && (pc.Finishing? ==> Reported(pc.status))
  }

  lemma PcStepKeeps(w: World, t: nat, pc: Pc)
    requires Inv(w) && t < |w.tasks| && Idle(pc)
    ensures Inv(WithPc(w, t, pc))
  {
    var v := WithPc(w, t, pc);
    forall e | Delivered(w, e) ensures Delivered(v, e) { SameReentries(w, v, e); }
    forall u | 0 <= u < |v.tasks| ensures TaskOk(v, v.tasks[u]) { assert TaskOk(w, w.tasks[u]); }
  }

  lemma SpawnKeeps(w: World, run: RunId, contact: ContactId, goal: string, pc: Pc)
    requires Inv(w) && run < |w.db.runs| && w.db.runs[run].contact == contact && Idle(pc)
    requires w.db.runs[run].key.Goal? ==> goal == w.db.runs[run].goal
    ensures Inv(Spawn(w, run, contact, goal, pc))
  {
    var v := Spawn(w, run, contact, goal, pc);
    forall e | Delivered(w, e) ensures Delivered(v, e) { SameReentries(w, v, e); }
    forall u | 0 <= u < |w.tasks| ensures TaskOk(v, v.tasks[u]) { assert TaskOk(w, w.tasks[u]); }
  }

  lemma SameReentries(w: World, v: World, e: EventId)
    requires Delivered(w, e) && w.reentries <= v.reentries
    ensures Delivered(v, e)
  {
    var k :| 0 <= k < |w.reentries| && w.reentries[k].event == e
             && Answered(w.reentries[k]) && Interaction.Delivered(w.reentries[k].report.turn);
    assert v.reentries[k] == w.reentries[k];
  }

  lemma FinishStepKeeps(w: World, t: nat)
    requires Inv(w) && t < |w.tasks| && w.tasks[t].pc.Finishing?
    ensures Inv(FinishStep(w, t)) && DbExtends(w.db, FinishStep(w, t).db)
  {
    var task := w.tasks[t];
    assert TaskOk(w, task);
    var (db, event) := FinishBlock(
      w.db, task.run, task.contact, task.goal, task.pc.status, task.pc.result, task.pc.error);
    FinishKeeps(w.db, task.run, task.contact, task.goal, task.pc.status, task.pc.result, task.pc.error);
    if event.None? {
      PcStepKeeps(w, t, Ended);
    } else {
      var u := w.(db := db);
      DbStepKeeps(w, db);
      var v := WithPc(u, t, Reentering(event.value));
      forall e | Delivered(u, e) ensures Delivered(v, e) { SameReentries(u, v, e); }
      forall q | 0 <= q < |v.tasks| ensures TaskOk(v, v.tasks[q]) { assert TaskOk(u, u.tasks[q]); }
      forall q | 0 <= q < |w.tasks| && w.tasks[q].pc.Reentering? ensures w.tasks[q].pc.event != event.value {
        assert TaskOk(w, w.tasks[q]);
      }
    }
  }

  lemma ReenterStepKeeps(w: World, t: nat, e: Interaction.Event, s: Interaction.Script)
    requires Inv(w) && t < |w.tasks| && w.tasks[t].pc.Reentering?
    ensures Inv(ReenterStep(w, t, e, s))
  {
    var event := w.tasks[t].pc.event;
    assert TaskOk(w, w.tasks[t]);
    var v := ReenterStep(w, t, e, s);
    var n := |w.reentries|;
    TurnProperties.AnsweredIsDelivered(e.(kind := Interaction.ExecutionResult, requireVisible := true), s);
    if Answered(v.reentries[n]) {
      assert v.reentries[n].event == event;
      assert Delivered(v, event);
    }
    forall f | Delivered(w, f) ensures Delivered(v, f) { SameReentries(w, v, f); }
    forall q | 0 <= q < |v.tasks| ensures TaskOk(v, v.tasks[q]) { assert TaskOk(w, w.tasks[q]); }
  }

  lemma AcknowledgeStepKeeps(w: World, t: nat)
    requires Inv(w) && t < |w.tasks| && w.tasks[t].pc.Acking?
    ensures Inv(AcknowledgeStep(w, t)) && DbExtends(w.db, AcknowledgeStep(w, t).db)
  {
    var task := w.tasks[t];
    assert TaskOk(w, task);
    MarkKeeps(w.db, task.pc.event, task.contact);
    var db := MarkProcessed(w.db, task.pc.event, task.contact).0;
    DbStepKeeps(w, db);
    PcStepKeeps(w.(db := db), t, Ended);
  }

  lemma ClaimStepKeeps(w: World, t: nat)
    requires Inv(w) && t < |w.tasks|
    ensures Inv(ClaimStep(w, t)) && DbExtends(w.db, ClaimStep(w, t).db)
  {
    var (db, claimed) := Claim(w.db, w.tasks[t].run, w.tasks[t].contact);
    var r := w.tasks[t].run;
    if claimed { RowUpdateKeeps(w.db, r, db.runs[r]); }
    DbStepKeeps(w, db);
    PcStepKeeps(w.(db := db), t, if claimed then Working else Ended);
  }

  lemma ScheduledStepKeeps(
    w: World, contact: ContactId, goal: string, scope: set<string>, automation: nat, second: int)
    requires Inv(w)
    ensures var (v, reply) := ScheduledStep(w, contact, goal, scope, automation, second);
            var key := Occurrence(automation, second);
            && Inv(v) && DbExtends(w.db, v.db)
            && (reply.AlreadyTerminal? ==>
                  IsRunFor(v.db, reply.run, contact, key) && Terminal(v.db.runs[reply.run].status))
            && (reply.Started? ==> IsRunFor(v.db, reply.run, contact, key) && reply.task < |v.tasks|)
            && (reply.Started? ==> v.tasks[reply.task].run == reply.run)
  {
    var (db, run) := ScheduledBlock(w.db, contact, goal, scope, Occurrence(automation, second));
    ScheduledKeeps(w.db, contact, goal, scope, Occurrence(automation, second));
    DbStepKeeps(w, db);
    if run.Some? && Active(db.runs[run.value].status) {
      SpawnKeeps(w.(db := db), run.value, contact, goal, Ready);
    }
  }

  lemma CancelStepKeeps(w: World, contact: ContactId, run: RunId)
    requires Inv(w)
    ensures Inv(CancelStep(w, contact, run)) && DbExtends(w.db, CancelStep(w, contact, run).db)
  {
    var (db, requested) := RequestCancel(w.db, run, contact);
    if requested {
      RowUpdateKeeps(w.db, run, db.runs[run]);
      DbStepKeeps(w, db);
      SpawnKeeps(w.(db := db), run, contact, db.runs[run].goal, Finishing(Cancelled, None, None));
    }
  }

  lemma DispatchStepKeeps(w: World, contact: ContactId, goal: string, scope: set<string>, digest: string)
    requires Inv(w)
    ensures var v := DispatchStep(w, contact, goal, scope, digest); Inv(v) && DbExtends(w.db, v.db)
  {
    InsertKeeps(w.db, contact, goal, scope, DedupeKey.Goal(digest));
    var (db, run, created) := CreateOrGet(w.db, contact, goal, scope, DedupeKey.Goal(digest));
    DbStepKeeps(w, db);
    if created { SpawnKeeps(w.(db := db), run.value, contact, goal, Ready); }
  }

  lemma AbandonStepKeeps(w: World, timeout: nat)
    requires Inv(w)
    ensures var db := AbandonStale(w.db, timeout); Inv(w.(db := db)) && DbExtends(w.db, db)
  {
    AbandonKeeps(w.db, timeout);
    DbStepKeeps(w, AbandonStale(w.db, timeout));
  }

  lemma TickKeeps(w: World, elapsed: nat)
    requires Inv(w)
    ensures var db := w.db.(now := w.db.now + elapsed); Inv(w.(db := db)) && DbExtends(w.db, db)
  {
    DbStepKeeps(w, w.db.(now := w.db.now + elapsed));
  }

  predicate IsTaskStep(s: Step) {
    s.ClaimRun? || s.AgentEnds? || s.FinishRun? || s.Reenter? || s.Acknowledge? || s.Crash?
  }

  lemma TaskStepKeeps(w: World, s: Step)
    requires Inv(w) && IsTaskStep(s) && Enabled(w, s)
    ensures Inv(Apply(w, s)) && DbExtends(w.db, Apply(w, s).db)
  {
    match s
    case ClaimRun(t) => ClaimStepKeeps(w, t);
    case AgentEnds(t, end) => PcStepKeeps(w, t, FinishFor(end));
    case FinishRun(t) => FinishStepKeeps(w, t);
    case Reenter(t, e, script) => ReenterStepKeeps(w, t, e, script);
    case Acknowledge(t) => AcknowledgeStepKeeps(w, t);
    case Crash(t) => PcStepKeeps(w, t, Crashed);
  }

  lemma StartStepKeeps(w: World, s: Step)
    requires Inv(w) && (s.DispatchGoal? || s.RunScheduled?)
    ensures Inv(Apply(w, s)) && DbExtends(w.db, Apply(w, s).db)
  {
    if s.DispatchGoal? {
      DispatchStepKeeps(w, s.contact, s.goal, s.scope, s.digest);
    } else {
      ScheduledStepKeeps(w, s.contact, s.goal, s.scope, s.automation, s.second);
    }
  }

  lemma ClockStepKeeps(w: World, s: Step)
    requires Inv(w) && (s.Tick? || s.AbandonExpired?)
    ensures Inv(Apply(w, s)) && DbExtends(w.db, Apply(w, s).db)
  {
    if s.Tick? { TickKeeps(w, s.elapsed); } else { AbandonStepKeeps(w, s.timeout); }
  }

  lemma OutsideStepKeeps(w: World, s: Step)
    requires Inv(w) && !IsTaskStep(s)
    ensures Inv(Apply(w, s)) && DbExtends(w.db, Apply(w, s).db)
  {
    if s.CancelRun? {
      CancelStepKeeps(w, s.contact, s.run);
    } else if s.Tick? || s.AbandonExpired? {
      ClockStepKeeps(w, s);
    } else {
      StartStepKeeps(w, s);
    }
  }

  lemma StepKeeps(w: World, s: Step)
    requires Inv(w)
    ensures Inv(Apply(w, s)) && DbExtends(w.db, Apply(w, s).db)
  {
    if !IsTaskStep(s) {
      OutsideStepKeeps(w, s);
    } else if Enabled(w, s) {
      TaskStepKeeps(w, s);
    }
  }

  lemma {:induction false} AfterAppend(w: World, steps: seq<Step>, s: Step)
    ensures After(w, steps + [s]) == Apply(After(w, steps), s)
  {
    assert (steps + [s])[..|steps|] == steps;
  }

  lemma {:induction false} AfterThree(w: World, steps: seq<Step>, s: Step, t: Step, u: Step)
    ensures After(w, steps + [s] + [t] + [u]) == Apply(Apply(Apply(After(w, steps), s), t), u)
  {
    AfterAppend(w, steps, s);
    AfterAppend(w, steps + [s], t);
    AfterAppend(w, steps + [s] + [t], u);
  }

  lemma InitOk()
    ensures Inv(INIT)
  {}

  lemma {:induction false} RunKeeps(w: World, steps: seq<Step>)
    requires Inv(w)
    ensures Inv(After(w, steps)) && DbExtends(w.db, After(w, steps).db)
  {
    if steps != [] {
      RunKeeps(w, steps[..|steps| - 1]);
      StepKeeps(After(w, steps[..|steps| - 1]), steps[|steps| - 1]);
    }
  }

  // ---------------------------------------------------------------- theorems

  /** CAPACITY AND DEDUPE in every reachable state: at most two active runs per
      contact, one active run per key, and row flags consistent with statuses. */
  lemma {:induction false} CapacityAndDedupe(steps: seq<Step>)
    ensures var runs := After(INIT, steps).db.runs;
            && (forall c: ContactId :: |InFlight(runs, c)| <= 2)
            && (forall i: RunId, j: RunId, c: ContactId ::
                  i in InFlight(runs, c) && j in InFlight(runs, c) && runs[i].key == runs[j].key ==> i == j)
            && (forall r :: 0 <= r < |runs| ==> RowOk(runs[r]))
  {
    InitOk();
    RunKeeps(INIT, steps);
    var runs := After(INIT, steps).db.runs;
    forall c: ContactId ensures |InFlight(runs, c)| <= 2 {
      CountIsCardinality(runs, ActiveOf(c));
      assert InFlight(runs, c) == Matching(runs, ActiveOf(c));
    }
  }

  function IsEventOf(r: RunId): Event -> bool { (e: Event) => e.run == r }

  lemma {:induction false} CountOfUnique(events: seq<Event>, r: RunId)
    requires forall e, f :: 0 <= e < f < |events| ==> events[e].run != events[f].run
    ensures Count(events, IsEventOf(r)) == if HasEvent(events, r) then 1 else 0
  {
    var n := |events| - 1;
    if n >= 0 {
      CountOfUnique(events[..n], r);
      if HasEvent(events[..n], r) {
        var e :| 0 <= e < n && events[..n][e].run == r;
        assert events[e].run == r;
      } else {
        forall e | 0 <= e < n ensures events[e].run != r { assert events[..n][e] == events[e]; }
      }
    }
  }

  /** EXACTLY ONE EVENT for a run that ended succeeded, failed, timed out or
      cancelled, none for an active or abandoned one, and it agrees with the row. */
  lemma {:induction false} OneEventPerReportedRun(steps: seq<Step>, r: RunId)
    ensures var db := After(INIT, steps).db;
            && (r < |db.runs| ==>
                 Count(db.events, IsEventOf(r))
                 == if db.runs[r].status in {Succeeded, Failed, TimedOut, Cancelled} then 1 else 0)
            && (forall e :: 0 <= e < |db.events| ==>
                 db.events[e].run < |db.runs| && Matches(db.events[e], db.runs[db.events[e].run]))
  {
    InitOk();
    RunKeeps(INIT, steps);
    var db := After(INIT, steps).db;
    CountOfUnique(db.events, r);
  }

  /** Terminal rows and their events are frozen whatever happens later. */
  lemma {:induction false} TerminalIsAbsorbing(steps: seq<Step>, more: seq<Step>, r: RunId)
    ensures var w := After(INIT, steps);
            r < |w.db.runs| && w.db.runs[r].status in {Succeeded, Failed, TimedOut, Cancelled, Abandoned} ==>
              var v := After(w, more); r < |v.db.runs| && v.db.runs[r] == w.db.runs[r]
  {
    InitOk();
    RunKeeps(INIT, steps);
    RunKeeps(After(INIT, steps), more);
  }

  predicate IsTerminal(w: World, r: RunId) {
    r < |w.db.runs| && w.db.runs[r].status in {Succeeded, Failed, TimedOut, Cancelled, Abandoned}
  }

  /** How many steps of the run moved row r into a terminal status. */
  function Endings(w: World, steps: seq<Step>, r: RunId): nat {
    if steps == [] then 0
    else
      var before := After(w, steps[..|steps| - 1]);
      Endings(w, steps[..|steps| - 1], r)
      + if !IsTerminal(before, r) && IsTerminal(Apply(before, steps[|steps| - 1]), r) then 1 else 0
  }

  /** EXACTLY ONCE FINISH: among all racing finishers one ending commits, and
      only for a run that is terminal from then on. */
  lemma {:induction false} ExactlyOnceFinish(steps: seq<Step>, r: RunId)
    ensures Endings(INIT, steps, r) == if IsTerminal(After(INIT, steps), r) then 1 else 0
  {
    if steps != [] {
      var init := steps[..|steps| - 1];
      ExactlyOnceFinish(init, r);
      InitOk();
      RunKeeps(INIT, init);
      StepKeeps(After(INIT, init), steps[|steps| - 1]);
    }
  }

  /** Once a finisher's block has committed its run is terminal, whoever won. */
  lemma {:induction false} FinisherLeavesTerminal(steps: seq<Step>, t: nat)
    requires var w := After(INIT, steps); t < |w.tasks| && w.tasks[t].pc.Finishing?
    ensures var w := After(INIT, steps); IsTerminal(Apply(w, FinishRun(t)), w.tasks[t].run)
  {
    InitOk();
    RunKeeps(INIT, steps);
    var w := After(INIT, steps);
    assert TaskOk(w, w.tasks[t]);
  }

  /** The event tells of a run of this occurrence. */
  predicate TellsOf(db: Db, e: EventId, contact: ContactId, key: DedupeKey) {
    e < |db.events| && IsRunFor(db, db.events[e].run, contact, key)
  }

  /** At most one run, one event and one result re-entry of what has this key. */
  ghost predicate Once(w: World, contact: ContactId, key: DedupeKey) {
    && (forall i: RunId, j: RunId :: IsRunFor(w.db, i, contact, key) && IsRunFor(w.db, j, contact, key) ==> i == j)
    && (forall e: EventId, f: EventId :: TellsOf(w.db, e, contact, key) && TellsOf(w.db, f, contact, key) ==> e == f)
    && (forall j, k :: 0 <= j < k < |w.reentries| ==>
         !(TellsOf(w.db, w.reentries[j].event, contact, key) && TellsOf(w.db, w.reentries[k].event, contact, key)))
  }

  lemma OccurrencesAreOnce(w: World, contact: ContactId, key: DedupeKey)
    requires Inv(w) && key.Occurrence?
    ensures Once(w, contact, key)
  {
    forall i: RunId, j: RunId | IsRunFor(w.db, i, contact, key) && IsRunFor(w.db, j, contact, key) ensures i == j {
      assert w.db.runs[i].key == w.db.runs[j].key == key;
    }
  }

  /** OCCURRENCE ONCE: one automation occurrence has at most one run, one event
      and one result re-entry, however often its goal was worked on. */
  lemma {:induction false} OccurrenceOnce(steps: seq<Step>, contact: ContactId, automation: nat, second: int)
    ensures Once(After(INIT, steps), contact, Occurrence(automation, second))
  {
    InitOk();
    RunKeeps(INIT, steps);
    OccurrencesAreOnce(After(INIT, steps), contact, Occurrence(automation, second));
  }

  /** ACKNOWLEDGED IMPLIES DELIVERED: an event is marked processed only if the
      one turn started for it answered with a delivered outbound. */
  lemma {:induction false} ProcessedWasDelivered(steps: seq<Step>, e: EventId)
    ensures var w := After(INIT, steps);
            e < |w.db.events| && w.db.events[e].processedAt.Some? ==> Delivered(w, e)
  {
    InitOk();
    RunKeeps(INIT, steps);
  }

  /** Reclaiming a run for a retry undoes its claim, and only then can the same
      row be claimed again. */
  lemma ReclaimUndoesClaim(db: Db, r: RunId, contact: ContactId)
    requires DbOk(db) && Claim(db, r, contact).1
    ensures var claimed := Claim(db, r, contact).0;
            Reclaim(claimed, r, contact) == (db, true) && !Claim(claimed, r, contact).1
  {
    assert RowOk(db.runs[r]);
    assert Reclaim(Claim(db, r, contact).0, r, contact).0.runs == db.runs;
  }

  /** A run is ended as succeeded exactly when the agent said so and staged what it
      had to; every other end is a failure, a timeout or a cancellation, and
      the stored texts are bounded. */
  lemma EndsAsTheAgentDid(end: AgentEnd)
    ensures var pc := FinishFor(end);
            && pc.Finishing? && Reported(pc.status)
            && (pc.status.Succeeded?
                <==> end.Output? && end.outcome.OutcomeSucceeded? && (end.mustStageEmail ==> end.staged))
            && (pc.status.TimedOut? <==> end.TimeoutExpired?) && (pc.status.Cancelled? <==> end.TaskCancelled?)
            && (pc.result.Some? ==>
                 && |pc.result.value.summary| <= 800
                 && (pc.result.value.outcome == "succeeded" <==> pc.status.Succeeded?))
            && (pc.error.Some? ==> |pc.error.value| <= 240)
  {}

}
