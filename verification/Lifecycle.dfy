/** The detached execution lifecycle of app/services/execution.py as a protocol:
    any number of runners, cancel finalizers, retries and startup cleanups take
    atomic database steps in any order, and any of them may die at any point. */
module Lifecycle {
  import opened Wrappers
  import opened Table
  import opened Executions
  import Text
  import Interaction

  /** Where a runner or finalizer task stands between its database blocks. */
  datatype Pc =
    | Ready
    | Working
    | Finishing(status: Status, result: Option<RunResult>, error: Option<string>)
    | Reentering(event: EventId)
    | Acking(event: EventId)
    | Ended
    | Crashed

  datatype Task = Task(run: RunId, contact: ContactId, goal: string, pc: Pc)

  /** One Interaction turn started for a terminal event, and how it went. */
  datatype Reentry = Reentry(event: EventId, report: Interaction.Report)

  datatype World = World(db: Db, tasks: seq<Task>, reentries: seq<Reentry>)

  const INIT := World(Db([], [], 0), [], [])

  datatype AgentEnd =
    | TimeoutExpired
    | TaskCancelled
    | AgentRaised(message: string)
    | Output(outcome: Outcome, summary: string, mustStageEmail: bool, staged: bool)

  datatype Outcome = OutcomeSucceeded | OutcomeFailed | NeedsInput {
    function Name(): string {
      match this
      case OutcomeSucceeded => "succeeded"
      case OutcomeFailed => "failed"
      case NeedsInput => "needs_input"
    }
  }

  /** The terminal row written for each way the goal's agent can end. */
  function FinishFor(end: AgentEnd): Pc {
    match end
    case TimeoutExpired => Finishing(TimedOut, None, Some("execution timeout"))
    case TaskCancelled => Finishing(Cancelled, None, None)
    case AgentRaised(message) => Finishing(Failed, None, Some(Text.Compact(message, 240)))
    case Output(outcome, summary, mustStageEmail, staged) =>
      if outcome.OutcomeSucceeded? && mustStageEmail && !staged then
        Finishing(Failed, Some(RunResult("Não encenei o envio do e-mail para confirmação.", "failed")), None)
      else
        Finishing(if outcome.OutcomeSucceeded? then Succeeded else Failed,
                  Some(RunResult(Text.Compact(summary, 800), outcome.Name())), None)
  }

  datatype Step =
    | Tick(elapsed: nat)
    | DispatchGoal(contact: ContactId, goal: string, scope: set<string>, digest: string)
    | RunScheduled(contact: ContactId, goal: string, scope: set<string>, automation: nat, second: int)
    | ClaimRun(task: nat)
    | AgentEnds(task: nat, end: AgentEnd)
    | FinishRun(task: nat)
    | Reenter(task: nat, event: Interaction.Event, script: Interaction.Script)
    | Acknowledge(task: nat)
    | CancelRun(contact: ContactId, run: RunId)
    | AbandonExpired(timeout: nat)
    | Crash(task: nat)

  function WithPc(w: World, t: nat, pc: Pc): World
    requires t < |w.tasks|
  {
    w.(tasks := w.tasks[t := w.tasks[t].(pc := pc)])
  }

  function Spawn(w: World, run: RunId, contact: ContactId, goal: string, pc: Pc): World {
    w.(tasks := w.tasks + [Task(run, contact, goal, pc)])
  }

  function DispatchStep(w: World, contact: ContactId, goal: string, scope: set<string>, digest: string): World {
    var (db, run, created) := CreateOrGet(w.db, contact, goal, scope, DedupeKey.Goal(digest));
    if created then Spawn(w.(db := db), run.value, contact, goal, Ready) else w
  }

  datatype ScheduledReply = Busy | AlreadyTerminal(run: RunId) | Started(run: RunId, task: nat)

  function ScheduledStep(
    w: World, contact: ContactId, goal: string, scope: set<string>, automation: nat, second: int)
    : (World, ScheduledReply)
  {
    var (db, run) := ScheduledBlock(w.db, contact, goal, scope, Occurrence(automation, second));
    var v := w.(db := db);
    if run.None? then (v, Busy)
    else if Terminal(db.runs[run.value].status) then (v, AlreadyTerminal(run.value))
    else (Spawn(v, run.value, contact, goal, Ready), Started(run.value, |w.tasks|))
  }

  function ClaimStep(w: World, t: nat): World
    requires t < |w.tasks|
  {
    var (db, claimed) := Claim(w.db, w.tasks[t].run, w.tasks[t].contact);
    WithPc(w.(db := db), t, if claimed then Working else Ended)
  }

  function FinishStep(w: World, t: nat): World
    requires t < |w.tasks| && w.tasks[t].pc.Finishing?
  {
    var task := w.tasks[t];
    if Active(task.pc.status) then WithPc(w, t, Crashed)
    else
      var (db, event) := FinishBlock(
        w.db, task.run, task.contact, task.goal, task.pc.status, task.pc.result, task.pc.error);
      WithPc(w.(db := db), t, if event.Some? then Reentering(event.value) else Ended)
  }

  function ReenterStep(w: World, t: nat, e: Interaction.Event, s: Interaction.Script): World
    requires t < |w.tasks| && w.tasks[t].pc.Reentering?
  {
    var event := w.tasks[t].pc.event;
    var report := Interaction.RunTurn(e.(kind := Interaction.ExecutionResult, requireVisible := true), s);
    var answered := report.end.Returned? && report.end.state.Some?;
    WithPc(w.(reentries := w.reentries + [Reentry(event, report)]), t, if answered then Acking(event) else Ended)
  }

  function AcknowledgeStep(w: World, t: nat): World
    requires t < |w.tasks| && w.tasks[t].pc.Acking?
  {
    WithPc(w.(db := MarkProcessed(w.db, w.tasks[t].pc.event, w.tasks[t].contact).0), t, Ended)
  }

  function CancelStep(w: World, contact: ContactId, run: RunId): World {
    var (db, requested) := RequestCancel(w.db, run, contact);
    if requested then Spawn(w.(db := db), run, contact, db.runs[run].goal, Finishing(Cancelled, None, None)) else w
  }

  predicate Enabled(w: World, s: Step) {
    match s
    case ClaimRun(t) => t < |w.tasks| && w.tasks[t].pc.Ready?
    case AgentEnds(t, _) => t < |w.tasks| && w.tasks[t].pc.Working?
    case FinishRun(t) => t < |w.tasks| && w.tasks[t].pc.Finishing?
    case Reenter(t, _, _) => t < |w.tasks| && w.tasks[t].pc.Reentering?
    case Acknowledge(t) => t < |w.tasks| && w.tasks[t].pc.Acking?
    case Crash(t) => t < |w.tasks|
    case _ => true
  }

  /** One atomic step; a step that is not enabled changes nothing. */
  function Apply(w: World, s: Step): World {
    if !Enabled(w, s) then w
    else
      match s
      case Tick(elapsed) => w.(db := w.db.(now := w.db.now + elapsed))
      case DispatchGoal(contact, goal, scope, digest) => DispatchStep(w, contact, goal, scope, digest)
      case RunScheduled(contact, goal, scope, automation, second) =>
        ScheduledStep(w, contact, goal, scope, automation, second).0
      case ClaimRun(t) => ClaimStep(w, t)
      case AgentEnds(t, end) => WithPc(w, t, FinishFor(end))
      case FinishRun(t) => FinishStep(w, t)
      case Reenter(t, e, script) => ReenterStep(w, t, e, script)
      case Acknowledge(t) => AcknowledgeStep(w, t)
      case CancelRun(contact, run) => CancelStep(w, contact, run)
      case AbandonExpired(timeout) => w.(db := AbandonStale(w.db, timeout))
      case Crash(t) => WithPc(w, t, Crashed)
  }

  /** An interleaving is a sequence of steps. */
  function After(w: World, steps: seq<Step>): World {
    if steps == [] then w else Apply(After(w, steps[..|steps| - 1]), steps[|steps| - 1])
  }

  // -------------------------------------------------------------- invariant

  /** The ends that are reported by an event; abandonment is silent. */
  predicate Reported(s: Status) { Terminal(s) && !s.Abandoned? }

  predicate RowOk(r: Run) {
    && (r.status.Pending? ==> !r.cancelRequested && r.startedAt.None?)
    && (r.status.Running? ==> !r.cancelRequested && r.startedAt.Some?)
    && (r.status.CancelRequested? ==> r.cancelRequested)
    && (Active(r.status) <==> r.finishedAt.None?)
    && (Active(r.status) ==> r.result.None? && r.error.None?)
  }

  ghost predicate Capacity(runs: seq<Run>) {
    forall c: ContactId :: Count(runs, ActiveOf(c)) <= MAX_ACTIVE_RUNS
  }

  /** One active run per key, and one run ever per automation occurrence. */
  ghost predicate KeysOk(runs: seq<Run>) {
    forall i, j :: 0 <= i < j < |runs| && runs[i].contact == runs[j].contact && runs[i].key == runs[j].key ==>
      runs[i].key.Goal? && (Terminal(runs[i].status) || Terminal(runs[j].status))
  }

  ghost predicate HasEvent(events: seq<Event>, r: RunId) {
    exists e :: 0 <= e < |events| && events[e].run == r
  }

  predicate Matches(e: Event, r: Run) {
    && Reported(r.status) && e.contact == r.contact && e.kind == "execution." + r.status.Name()
    && e.status == r.status && e.result == r.result && e.error == r.error
    && (r.key.Goal? ==> e.goal == Text.Compact(r.goal, MAX_EVENT_GOAL))
  }

  ghost predicate EventsOk(db: Db) {
    && (forall e :: 0 <= e < |db.events| ==>
         db.events[e].run < |db.runs| && Matches(db.events[e], db.runs[db.events[e].run]))
    && (forall e, f :: 0 <= e < f < |db.events| ==> db.events[e].run != db.events[f].run)
    && (forall r :: 0 <= r < |db.runs| && Reported(db.runs[r].status) ==> HasEvent(db.events, r))
  }

  ghost predicate DbOk(db: Db) {
    && (forall r :: 0 <= r < |db.runs| ==> RowOk(db.runs[r]))
    && Capacity(db.runs) && KeysOk(db.runs) && EventsOk(db)
  }

  predicate Answered(x: Reentry) { x.report.end.Returned? && x.report.end.state.Some? }

  ghost predicate Delivered(w: World, e: EventId) {
    exists k :: 0 <= k < |w.reentries| && w.reentries[k].event == e
                && Answered(w.reentries[k]) && Interaction.Delivered(w.reentries[k].report.turn)
  }

  ghost predicate TaskOk(w: World, t: Task) {
    && t.run < |w.db.runs| && t.contact == w.db.runs[t.run].contact
    && (w.db.runs[t.run].key.Goal? ==> t.goal == w.db.runs[t.run].goal)
    && (t.pc.Finishing? ==> Reported(t.pc.status))
    && (t.pc.Reentering? ==> t.pc.event < |w.db.events| && w.db.events[t.pc.event].run == t.run)
    && (t.pc.Reentering? ==> forall k :: 0 <= k < |w.reentries| ==> w.reentries[k].event != t.pc.event)
    && (t.pc.Acking? ==> Delivered(w, t.pc.event))
  }

  ghost predicate ReentriesOk(w: World) {
    && (forall k :: 0 <= k < |w.reentries| ==> w.reentries[k].event < |w.db.events|)
    && (forall j, k :: 0 <= j < k < |w.reentries| ==> w.reentries[j].event != w.reentries[k].event)
    && (forall s, t :: 0 <= s < t < |w.tasks| && w.tasks[s].pc.Reentering? && w.tasks[t].pc.Reentering? ==>
         w.tasks[s].pc.event != w.tasks[t].pc.event)
    && (forall e :: 0 <= e < |w.db.events| && w.db.events[e].processedAt.Some? ==> Delivered(w, e))
  }

  ghost predicate Inv(w: World) {
    && DbOk(w.db)
    && (forall t :: 0 <= t < |w.tasks| ==> TaskOk(w, w.tasks[t]))
    && ReentriesOk(w)
  }
}
