/** One execution run from its dispatch to the acknowledgement of its event, step by
    step, and what a cancellation and a startup cleanup do to the rows. */
module LifecycleRuns {
  import opened Wrappers
  import opened Table
  import opened Executions
  import opened Lifecycle
  import Text
  import Interaction

  /** The terminal columns that each way the agent can end leads to. */
  ghost predicate EndedAs(end: AgentEnd, row: Run) {
    match end
    case TimeoutExpired => row.status == TimedOut && row.result == None && row.error == Some("execution timeout")
    case TaskCancelled => row.status == Cancelled && row.result == None && row.error == None
    case AgentRaised(message) =>
      row.status == Failed && row.result == None && row.error == Some(Text.Compact(message, 240))
    case Output(outcome, summary, mustStageEmail, staged) =>
      row.error == None
      && if outcome.OutcomeSucceeded? && mustStageEmail && !staged then
           row.status == Failed
           && row.result == Some(RunResult("Não encenei o envio do e-mail para confirmação.", "failed"))
         else
           match outcome
           case OutcomeSucceeded =>
             row.status == Succeeded && row.result == Some(RunResult(Text.Compact(summary, 800), "succeeded"))
           case OutcomeFailed =>
             row.status == Failed && row.result == Some(RunResult(Text.Compact(summary, 800), "failed"))
           case NeedsInput =>
             row.status == Failed && row.result == Some(RunResult(Text.Compact(summary, 800), "needs_input"))
  }

  /** No active run has the key and a slot is free. */
  ghost predicate Free(w: World, contact: ContactId, key: DedupeKey) {
    !HasActive(w.db.runs, contact, key) && |InFlight(w.db.runs, contact)| < 2
  }

  /** A run of the contact has been inserted, with the task that will work on it. */
  ghost predicate Opened(
    w: World, v: World, contact: ContactId, goal: string, scope: set<string>, key: DedupeKey)
  {
    && v.db.runs == w.db.runs + [Run(contact, goal, scope, key, Pending, None, None, false, None, None)]
    && v.tasks == w.tasks + [Task(|w.db.runs|, contact, goal, Ready)]
    && v.db.events == w.db.events && v.db.now == w.db.now && v.reentries == w.reentries
  }

  lemma CountedInFlight(runs: seq<Run>, contact: ContactId)
    ensures Count(runs, ActiveOf(contact)) == |InFlight(runs, contact)|
  {
    CountIsCardinality(runs, ActiveOf(contact));
    assert InFlight(runs, contact) == Matching(runs, ActiveOf(contact));
  }

  lemma FoundActive(runs: seq<Run>, contact: ContactId, key: DedupeKey)
    ensures FindLast(runs, ActiveWithKey(contact, key)).Some? <==> HasActive(runs, contact, key)
  {
    var found := FindLast(runs, ActiveWithKey(contact, key));
    if found.Some? { assert found.value in InFlight(runs, contact); }
    if HasActive(runs, contact, key) {
      var r :| r in InFlight(runs, contact) && runs[r].key == key;
      assert ActiveWithKey(contact, key)(runs[r]);
    }
  }

  /** A conversation goal opens a run exactly when it is free, and else changes nothing. */
  lemma DispatchOpens(w: World, contact: ContactId, goal: string, scope: set<string>, digest: string)
    ensures var v := Apply(w, DispatchGoal(contact, goal, scope, digest));
            if Free(w, contact, DedupeKey.Goal(digest)) then
              Opened(w, v, contact, goal, scope, DedupeKey.Goal(digest))
            else v == w
  {
    CountedInFlight(w.db.runs, contact);
    FoundActive(w.db.runs, contact, DedupeKey.Goal(digest));
  }

  /** So does an occurrence that was never run. */
  lemma ScheduledOpens(
    w: World, contact: ContactId, goal: string, scope: set<string>, automation: nat, second: int)
    requires !HasKey(w.db.runs, contact, Occurrence(automation, second))
    ensures var (v, reply) := ScheduledStep(w, contact, goal, scope, automation, second);
            if |InFlight(w.db.runs, contact)| < 2 then
              && Opened(w, v, contact, goal, scope, Occurrence(automation, second))
              && reply == Started(|w.db.runs|, |w.tasks|)
            else v == w && reply == Busy
  {
    var key := Occurrence(automation, second);
    CountedInFlight(w.db.runs, contact);
    FoundActive(w.db.runs, contact, key);
  }

  /** The newest run of an occurrence is resumed whatever its state: left alone if it is
      over, returned to the queue if it was being worked on, and worked on anew. */
  lemma ScheduledResumes(
    w: World, contact: ContactId, goal: string, scope: set<string>, automation: nat, second: int, r: RunId)
    requires Newest(w.db.runs, contact, Occurrence(automation, second), r)
    ensures var (v, reply) := ScheduledStep(w, contact, goal, scope, automation, second);
            var row := w.db.runs[r];
            match row.status
            case Pending => v == w.(tasks := v.tasks)
            case Running =>
              v == w.(tasks := v.tasks, db := w.db.(
                     runs := w.db.runs[r := row.(status := Pending, startedAt := None, cancelRequested := false)]))
            case CancelRequested =>
              v == w.(tasks := v.tasks, db := w.db.(
                     runs := w.db.runs[r := row.(status := Pending, startedAt := None, cancelRequested := false)]))
            case _ => v == w && reply == AlreadyTerminal(r)
    ensures var (v, reply) := ScheduledStep(w, contact, goal, scope, automation, second);
            w.db.runs[r].status in {Pending, Running, CancelRequested} ==>
              v.tasks == w.tasks + [Task(r, contact, goal, Ready)] && reply == Started(r, |w.tasks|)
  {
    assert FindLast(w.db.runs, WithKey(contact, Occurrence(automation, second))) == Some(r);
  }

  /** Task t, about to claim its pending run r. */
  predicate AboutToClaim(w: World, t: nat, r: RunId) {
    && t < |w.tasks| && w.tasks[t].pc == Ready && w.tasks[t].run == r < |w.db.runs|
    && w.db.runs[r].status == Pending && !w.db.runs[r].cancelRequested
    && w.db.runs[r].contact == w.tasks[t].contact
  }

  /** The run has ended as the agent did, with the event that tells of it, and its task
      is about to re-enter the conversation. */
  ghost predicate EndedWith(w: World, v: World, t: nat, end: AgentEnd)
    requires t < |w.tasks| && w.tasks[t].run < |w.db.runs|
  {
    var r, task, e := w.tasks[t].run, w.tasks[t], |w.db.events|;
    && |v.db.runs| == |w.db.runs|
    && (forall i :: 0 <= i < |w.db.runs| && i != r ==> v.db.runs[i] == w.db.runs[i])
    && EndedAs(end, v.db.runs[r])
    && v.db.runs[r] == w.db.runs[r].(
         status := v.db.runs[r].status, result := v.db.runs[r].result, error := v.db.runs[r].error,
         startedAt := Some(w.db.now), finishedAt := Some(w.db.now))
    && |v.db.events| == e + 1 && w.db.events <= v.db.events
    && Reports(v.db.events[e], task.contact, r, task.goal, v.db.runs[r].status, v.db.runs[r].result, v.db.runs[r].error)
    && v.tasks == w.tasks[t := task.(pc := Reentering(e))] && v.reentries == w.reentries && v.db.now == w.db.now
  }

  lemma Claims(w: World, t: nat, r: RunId)
    requires AboutToClaim(w, t, r)
    ensures Apply(w, ClaimRun(t))
         == WithPc(w.(db := w.db.(runs := w.db.runs[r := w.db.runs[r].(
                                             status := Running, startedAt := Some(w.db.now))])), t, Working)
  {}

  lemma AgentsEnd(end: AgentEnd, row: Run)
    ensures var pc := FinishFor(end);
            && pc.Finishing? && Terminal(pc.status)
            && EndedAs(end, row.(status := pc.status, result := pc.result, error := pc.error))
  {}

  lemma FinishEnds(u: World, t: nat, end: AgentEnd)
    requires t < |u.tasks| && u.tasks[t].pc == Working && u.tasks[t].run < |u.db.runs|
    requires u.db.runs[u.tasks[t].run].status == Running && u.db.runs[u.tasks[t].run].contact == u.tasks[t].contact
    ensures var v := Apply(Apply(u, AgentEnds(t, end)), FinishRun(t));
            var r, task, e := u.tasks[t].run, u.tasks[t], |u.db.events|;
            && |v.db.runs| == |u.db.runs| && EndedAs(end, v.db.runs[r])
            && v.db.runs == u.db.runs[r := u.db.runs[r].(
                 status := v.db.runs[r].status, result := v.db.runs[r].result, error := v.db.runs[r].error,
                 finishedAt := Some(u.db.now))]
            && |v.db.events| == e + 1 && u.db.events <= v.db.events
            && Reports(v.db.events[e], task.contact, r, task.goal,
                       v.db.runs[r].status, v.db.runs[r].result, v.db.runs[r].error)
            && v.tasks == u.tasks[t := task.(pc := Reentering(e))] && v.reentries == u.reentries
            && v.db.now == u.db.now
  {
    var pc := FinishFor(end);
    var r := u.tasks[t].run;
    AgentsEnd(end, u.db.runs[r].(finishedAt := Some(u.db.now)));
    assert Apply(u, AgentEnds(t, end)) == WithPc(u, t, pc);
    NewEventReports(u.tasks[t].contact, u.tasks[t].run, u.tasks[t].goal, pc.status, pc.result, pc.error);
  }

  /** ONE RUN TO ITS END: claimed, worked on and finished with nothing between, the row
      has the status and texts of the way its agent ended and one event reports it. */
  lemma RunEndsAsItsAgent(w: World, t: nat, r: RunId, end: AgentEnd)
    requires AboutToClaim(w, t, r)
    ensures EndedWith(w, Apply(Apply(Apply(w, ClaimRun(t)), AgentEnds(t, end)), FinishRun(t)), t, end)
  {
    Claims(w, t, r);
    FinishEnds(Apply(w, ClaimRun(t)), t, end);
  }

  /** ITS EVENT IS ACKNOWLEDGED exactly if the turn started for it returns a state. */
  lemma ReentryAcknowledges(w: World, t: nat, e: Interaction.Event, s: Interaction.Script)
    requires t < |w.tasks| && w.tasks[t].pc.Reentering? && w.tasks[t].pc.event < |w.db.events|
    requires w.db.events[w.tasks[t].pc.event].contact == w.tasks[t].contact
    requires w.db.events[w.tasks[t].pc.event].processedAt.None?
    ensures var id := w.tasks[t].pc.event;
            var report := Interaction.RunTurn(e.(kind := Interaction.ExecutionResult, requireVisible := true), s);
            var v := Apply(Apply(w, Reenter(t, e, s)), Acknowledge(t));
            && v.reentries == w.reentries + [Reentry(id, report)] && v.db.runs == w.db.runs
            && v.tasks[t].pc == Ended
            && v.db.events == if report.end.Returned? && report.end.state.Some? then
                                w.db.events[id := w.db.events[id].(processedAt := Some(w.db.now))]
                              else w.db.events
  {}

  /** A cancellation marks the run and ends it as cancelled, with its event, when its
      finalizer commits; a run that is over or not the contact's is left alone. */
  lemma CancellationEnds(w: World, contact: ContactId, r: RunId)
    ensures var u := Apply(w, CancelRun(contact, r));
            var v := Apply(u, FinishRun(|w.tasks|));
            if r < |w.db.runs| && w.db.runs[r].contact == contact && w.db.runs[r].status in {Pending, Running} then
              && u.db.runs == w.db.runs[r := w.db.runs[r].(status := CancelRequested, cancelRequested := true)]
              && v.db.runs == w.db.runs[r := w.db.runs[r].(
                   status := Cancelled, cancelRequested := true, result := None, error := None,
                   finishedAt := Some(w.db.now))]
              && |v.db.events| == |w.db.events| + 1 && w.db.events <= v.db.events
              && Reports(v.db.events[|w.db.events|], contact, r, w.db.runs[r].goal, Cancelled, None, None)
            else u == w
  {
    if r < |w.db.runs| && w.db.runs[r].contact == contact && w.db.runs[r].status in {Pending, Running} {
      NewEventReports(contact, r, w.db.runs[r].goal, Cancelled, None, None);
      var u := Apply(w, CancelRun(contact, r));
      assert u.tasks[|w.tasks|] == Task(r, contact, w.db.runs[r].goal, Finishing(Cancelled, None, None));
    }
  }

  /** STARTUP CLEANUP abandons exactly the started work older than the timeout, silently:
      younger, unstarted and ended runs stay as they are. */
  lemma CleanupAbandonsTheOverdue(w: World, timeout: nat)
    ensures var v := Apply(w, AbandonExpired(timeout));
            && OverdueAbandoned(w.db.runs, v.db.runs, w.db.now - timeout, w.db.now)
            && v == w.(db := w.db.(runs := v.db.runs))
  {}
}
