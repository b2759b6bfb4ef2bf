# A verified model of the assistant's durable runtime

The assistant keeps its promises through rows of a few database tables. API
tasks, worker replicas, cancel finalizers, startup cleanup, retries and the
person advance those rows at the same time, by conditional updates. This project
models the tables and those updates, considers every interleaving of the actors as
a sequence of atomic steps, and proves what holds in every reachable state, what
holds over a whole run, and - where a promise does not hold - exactly when it fails.

Two layers meet at one specification. Each database module is a class whose
methods change its tables in place, proved equal to a function on table values.
The protocols (`Lifecycle`, `SplitLookups`, `WakeUps`, `Confirmations`, `Reminders`,
`SendRaces`) compose those same functions into steps taken in any order by any number
of tasks that may die at any point. The model, the providers, the clock and the order
of steps are adversarial. Each protocol's fields that count history (handler starts,
provider acknowledgements, re-entries) are the model's own tally.

| file | part of the system |
|---|---|
| `Executions`, `Lifecycle`, `LifecycleRuns`, `LifecycleProperties`, `Orphans`, `SplitLookups` | execution runs and their terminal events |
| `Interaction`, `TurnProperties`, `TurnDecisions`, `TurnEnds`, `SendRaces` | one Interaction turn against any model and provider, and its sends at the same time |
| `Scheduler`, `UpsertRaces`, `WakeUps`, `Firing`, `WakeUpProperties`, `WakeUpTheorems`, `NoLoss`, `Jams` | automations over the durable job queue |
| `Schedule`, `CatchUp`, `Inertia` | local time, the next occurrence, catching up |
| `PendingActions`, `Offers`, `Confirmations`, `ConfirmationRuns`, `ConfirmationProperties`, `ConfirmationTheorems`, `ConfirmationOrigins` | two-phase sensitive writes |
| `Calendar` | staging an event and building its request |
| `Reminders` | reminder delivery |
| `RRule`, `RRuleFacts`, `RRuleProperties`, `RRuleOrder` | canonical recurrence rules (section 3.3.10 of RFC 5545) |
| `Mime` | choosing the text of a MIME message |
| `Wrappers`, `Table`, `Text`, `TextFacts` | nullable columns, tables, strings |

What one run of each operation does is also stated outright, against the rows, the
statuses and the numbers themselves and not through the functions that compute them:
`LifecycleRuns`, `Firing`, `TurnEnds`, `ConfirmationRuns`, `RRuleFacts`, `TextFacts`, and
the contracts of the classes.

Hypotheses, stated where they are used: a committed session block is atomic;
`NoAutomationLost` needs crash-stop workers, and without them the exact condition is
`NoLoss.LostExactly`; the next occurrence is later than now only outside a repeated
hour. The atomicity of blocks is examined where it matters most: the wake-up upsert
is also proved statement by statement, with any number of other transactions in each
gap; the lookup and the insert of a scheduled run are taken apart in a protocol of
their own; and two overlapping stagings are shown to leave two live proposals.

The promises below fail in the code. Each has a concrete run and an exact condition.

- An acknowledged result event need not have reached the person:
  `TurnDecisions.AnsweredUnsentExactly`, and with fresh call ids
  `TurnDecisions.FreshAnsweredUnsentExactly`.
- A provider can act more than once for one action or reminder, namely once per
  acknowledged call and once per call carried out unheard:
  `ConfirmationTheorems.EffectsAreAccountedFor`, `Reminders.EffectsAreAccountedFor`.
- A pending conversation run, a claimed action or a claimed reminder whose task died
  is stuck: `Orphans.OrphanExactly`, `ConfirmationTheorems.AbandonedExactly`,
  `Reminders.SilentExactly`.
- A turn can confirm what its own dispatch staged: exactly if, as its context was
  loaded, a proposal of that kind was pending or claimed, or some such action of either
  kind quoted the kind's tag in its title, start, recipient or subject
  (`ConfirmationOrigins.OwnProposalExactly`). The second case needs no proposal of the
  kind at all: an event titled `tipo=send_email` is enough
  (`ConfirmationOrigins.TitleOffersTheEmailTool`).
- An upsert can leave nothing of its own: `UpsertRaces.UpsertTakesInGeneral`.
- One occurrence can have several runs: `SplitLookups.OccurrenceOnceExactly`.
- An automation can be lost once a stalled worker completes the job of the worker
  that overtook it: `NoLoss.LostExactly`.
- Recovery can be jammed for every contact: `Jams.JamsExactly`.
- An automation can repeat a recorded occurrence for ever: `CatchUp.StuckIsReachable`,
  and `Inertia.ChangesExactly` for which rows still change.
- A send cut before its local mark counts as delivered on a retry:
  `SendRaces.ReplayedSendExactly`.

Where code and comments disagree the model follows the code. The claim of a pending
action means to refuse the turn that staged it, but staging stores an execution id and
confirming passes a message id (app/agent/calendar_tools.py:195,
app/agent/interaction.py:505). The model keeps the two as different constructors of
one type and proves that the comparison never refuses. The upsert's promise of one
pending wake-up (app/db/automations.py:120) is unconditional in its comment and
conditional in the code. The email service answers that more than one action is
pending when only a calendar event is.

## Model

| member | source | states |
|---|---|---|
| Executions.ExecutionStore.CreateOrGetExecutionRun | app/db/executions.py:39-86 | the newest active duplicate, else a new row while fewer than two runs are active, else none; any run returned is active under the asked key |
| Executions.ExecutionStore.CountActiveExecutionRuns | app/db/executions.py:139-147 | the number returned is the size of the set of ids of the pending, running and cancel-requested runs of the contact |
| Executions.ExecutionStore.GetExecutionRunByDedupe | app/db/executions.py:89-105 | the newest run under the key whatever its status, or none if there is no such row |
| Executions.ExecutionStore.ReclaimExecutionRunForRetry | app/db/executions.py:108-136 | a running or cancelling row of this contact returns to pending, never started and not cancelled; nothing else changes |
| Executions.ExecutionStore.ClaimExecutionRun | app/db/executions.py:150-169 | only a pending, uncancelled row of this contact starts |
| Executions.ExecutionStore.FinishExecutionRun | app/db/executions.py:172-200 | refuses a non-terminal target untouched; otherwise ends the row only if it was still active |
| Executions.ExecutionStore.RequestExecutionCancellation | app/db/executions.py:242-262 | only pending or running rows become cancel-requested |
| Executions.ExecutionStore.AppendExecutionEvent | app/db/executions.py:203-222 | adds the event and leaves every other row |
| Executions.ExecutionStore.MarkExecutionEventProcessed | app/db/executions.py:225-239 | stamps an unprocessed event of this contact once |
| Executions.ExecutionStore.AbandonStaleExecutionRuns | app/db/executions.py:265-285 | exactly the running and cancel-requested rows started before now minus the age become abandoned, finished now and otherwise unchanged; every row started at the cutoff or later, never started, pending or terminal stays as it is; the count is the size of that set |
| Executions.ExecutionStore.FinishWithEvent | app/services/execution.py:529-555 | the terminal row and its one event are written together or not at all |
| Executions.ExecutionStore.ScheduledRun | app/services/execution.py:240-268 | statement by statement: given any state the others commit after the lookup, resumes the run found whatever its state, inserts only when none was found, and is busy if the found run can no longer be reclaimed; undisturbed it is the atomic block of the protocol |
| Executions.SecondRowExactly | app/services/execution.py:240-268 | for one block and any state committed between its statements: a second row for one occurrence is inserted exactly when the lookup found none, others inserted and ended one before the insert, and a slot is free |
| Orphans.SecondRunSlipsThrough | app/db/executions.py:39-86 | such an interleaving of two workers exists, because only active rows are deduplicated |
| SplitLookups.RowsAreAccountedFor | app/services/execution.py:240-302 | with lookup and insert as separate steps among those of every task: over any run the rows of an occurrence are its first plus one per insert that slipped through |
| SplitLookups.OccurrenceOnceExactly | app/services/execution.py:240-302 | so an occurrence has at most one run if and only if no follow-up found, after a lookup that found none, every row of its key over and a slot free |
| SplitLookups.SecondRowIsReachable | app/services/execution.py:240-268 | a run of two workers that ends with two rows |
| SplitLookups.UnsplitIsScheduled | app/services/execution.py:240-302 | a lookup followed at once is the scheduled step of the lifecycle |
| LifecycleProperties.StepKeeps | app/services/execution.py:149-693 | every step of every task keeps capacity, keys, events and acknowledgements consistent and never rewrites a terminal row or an event |
| LifecycleProperties.CapacityAndDedupe | app/db/executions.py:39-86 | in every reachable state at most two pending, running or cancel-requested runs per contact, one per key, and flags consistent with statuses |
| LifecycleProperties.OneEventPerReportedRun | app/services/execution.py:516-555 | a run has exactly one event if it ended succeeded, failed, timed out or cancelled, else none, and the event agrees with the row |
| LifecycleProperties.TerminalIsAbsorbing | app/db/executions.py:172-200 | a terminal row never changes again |
| LifecycleProperties.ExactlyOnceFinish | app/services/execution.py:440-513 | over any run of racing finishers a row enters a terminal status exactly once if it ends terminal, else never |
| LifecycleProperties.FinisherLeavesTerminal | app/services/execution.py:306-334 | once a finalizer's block commits its run is terminal, whoever won |
| LifecycleProperties.OccurrenceOnce | app/services/execution.py:240-302 | with the lookup and the insert in one step (SplitLookups has them apart), one run per automation occurrence, and for the runs of that occurrence one event each and one re-entry per event |
| LifecycleProperties.ProcessedWasDelivered | app/services/execution.py:642-674 | an event is marked processed only if its re-entry answered with a delivered outbound |
| LifecycleProperties.ReclaimUndoesClaim | app/db/executions.py:108-169 | reclaiming undoes exactly the claim, after which the row can be claimed again and not before |
| LifecycleProperties.EndsAsTheAgentDid | app/services/execution.py:440-513 | a run is ended succeeded exactly when the agent said so and staged the e-mail it had to; stored texts are bounded |
| LifecycleRuns.DispatchOpens | app/services/execution.py:149-203 | a dispatched goal inserts a pending run with the goal and its toolkits exactly when no active run has its key and fewer than two of the contact are active; else nothing changes |
| LifecycleRuns.ScheduledOpens | app/services/execution.py:207-302 | so does an occurrence that was never run, which is busy otherwise |
| LifecycleRuns.ScheduledResumes | app/services/execution.py:240-302 | the newest run of an occurrence is resumed: an ended one left alone, one being worked on returned to pending, and a task started for it |
| LifecycleRuns.RunEndsAsItsAgent | app/services/execution.py:387-555 | claimed, worked on and finished, a run has the status, result and error of each way its agent can end, and one event reports them |
| LifecycleRuns.ReentryAcknowledges | app/services/execution.py:597-674 | the event is stamped exactly if the turn started for it returns a state |
| LifecycleRuns.CancellationEnds | app/services/execution.py:306-334 | a pending or running run of the contact is marked and then ended as cancelled with its event; any other is left alone |
| LifecycleRuns.CleanupAbandonsTheOverdue | app/services/execution.py:677-693 | the cleanup step abandons exactly the started work older than the timeout and changes nothing else |
| Orphans.OrphanStaysPending | app/db/executions.py:271-277 | a run whose task died before claiming stays pending and keeps its slot until it is cancelled |
| Orphans.OrphanIsReachable | app/services/execution.py:175-203 | such a run exists two steps from the start |
| Orphans.OrphanExactly | app/services/execution.py:149-203 | in every reachable state a pending conversation run can end without being cancelled if and only if some living task has still to claim it |
| Interaction.InteractionDeps.SequenceFor | app/agent/interaction.py:113-118 | numbers a new call id next and keeps the number of a known one |
| Interaction.InteractionDeps.RecordOutboundOutcome | app/agent/interaction.py:125-127 | appends the outcome and changes nothing else |
| Interaction.InteractionDeps.CallProvider | app/agent/interaction.py:283-364 | one provider call and its bookkeeping, with the flag false exactly when recording a refusal fails |
| Interaction.InteractionDeps.SendVisible | app/agent/interaction.py:239-366 | the whole effect of one send: blank, over the fuse, reservation failed or lost, duplicate, or sent |
| Interaction.SendStepSends | app/agent/interaction.py:239-366 | what one send does to numbers, reservations, rows, provider calls and outcomes, case by case: blank, over five, reservation failed or lost, already reserved, accepted or refused, recorded or not |
| Interaction.InteractionDeps.RunTools | app/agent/interaction.py:369-437 | the tool calls of a model run that makes them one after another act in order and stop at the first that raises; SendRaces has sends made at the same time |
| Interaction.InteractionDeps.SendConfirmation | app/agent/interaction.py:755-776 | the code-owned confirmation answers done only if delivered or delivery was not required |
| Interaction.InteractionDeps.SendFallback | app/agent/interaction.py:929-947 | one apology, after which the turn returns nothing |
| Interaction.InteractionDeps.Answer | app/agent/interaction.py:812-867 | what a finished model run is answered with, including the result fallback and the refused waiting state |
| Interaction.RunInteractionEvent | app/agent/interaction.py:688-947 | the loop of two attempts computes the turn that the theorems below are about |
| TurnProperties.TurnIsSafe | app/agent/interaction.py:781-947 | sequence numbers are exactly 1..n, one per call id; at most five provider calls, none twice for one sequence; at most two model runs; replay and fallback only with nothing reserved or sent; one apology at most, and last |
| TurnProperties.AnsweredIsDelivered | app/agent/interaction.py:859-866 | a result event that must be delivered is answered only if a reserved outbound was delivered |
| TurnProperties.WaitingHasActiveRun | app/agent/interaction.py:825-832 | a person's turn waits only if the loaded context or the last dispatch had an active run; TurnEnds.PersonWaitsExactly has the equivalence |
| TurnProperties.ActiveFlagIsLastDispatch | app/agent/interaction.py:399-420 | the flag behind that decision is the one of the last dispatch call |
| TurnProperties.AnsweredIsAccepted | app/db/executions.py:288-335 | a condition that is enough: with fresh call ids and no lost first reservation, an answered result was accepted by the provider; TurnDecisions has the exact one |
| TurnProperties.ReusedIdIsAcknowledgedUnsent | app/agent/interaction.py:275-280 | a reused call id is acknowledged although its only send was refused |
| TurnProperties.LostReservationIsAcknowledgedUnsent | app/agent/interaction.py:262-272 | so is a result whose reservation committed but was reported as failed |
| TurnDecisions.AnsweredUnsentExactly | app/agent/interaction.py:781-947 | for every event and script, a result event is answered with nothing accepted if and only if the deciding model run, the first that is not replayed, repeated a number already reserved and had no message taken, or reserved nothing and its result message repeats such a number |
| TurnDecisions.FreshAnsweredUnsentExactly | app/agent/interaction.py:262-280 | when the model never reuses a call id: if and only if both model runs complete silently and the reservation of the first result message committed although it was reported as failed |
| TurnDecisions.RunExactly | app/agent/interaction.py:239-366 | a run of calls counts as delivered by a repeated or a taken send, and has something accepted by a taken send only |
| TurnDecisions.WaitingOnResultExactly | app/agent/interaction.py:812-867 | a result event ends waiting if and only if the deciding model run asks to wait having reserved and delivered a message |
| TurnDecisions.WaitingOnResultHappens | app/agent/interaction.py:812-832 | a turn that ends so |
| TurnEnds.OrdinaryTurnAnswers | app/agent/interaction.py:781-867 | for every event that needs no visible result and every script, the turn returns a state if and only if its deciding run completed and finished with that state, a person's waiting becoming done when nothing runs |
| TurnEnds.PersonWaitsExactly | app/agent/interaction.py:812-832 | a person's turn ends waiting if and only if the deciding run finished so and a run was loaded active or reported by the last dispatch |
| TurnEnds.PersonWaitsHappens | app/agent/interaction.py:399-420 | a turn that dispatches and ends so |
| TurnEnds.ResultTurnAnswers | app/agent/interaction.py:812-928 | a result that must be visible is answered with the finished state of a deciding run that reserved and reached the person, with done if it reserved nothing and the result message reached the person, and in no other case |
| TurnEnds.ConfirmationAnswers | app/agent/interaction.py:755-776 | the code-owned confirmation raises, answers done or answers nothing, by its text, what the provider did and whether it had to be visible |
| TurnEnds.UnloadedAnswersNothing | app/agent/interaction.py:688-740 | a turn without its contact answers nothing and touches nothing |
| TurnEnds.SendRaisesExactly | app/agent/interaction.py:239-366 | a send raises if and only if it is not blank, under the fuse, and its reservation failed or was reported so, or the refusal of a new number was not recorded |
| TurnEnds.ApologyExactly | app/agent/interaction.py:868-947 | the fixed apology is sent if and only if a run hits its request limit with nothing reserved or both runs have to be retried; it is the last send, under its own id, after which the turn answers nothing, or raises with it |
| TurnEnds.FlagIsReported | app/agent/interaction.py:399-420 | after any calls the active flag is what the last dispatch that was run reported |
| SendRaces.RacingSendsAreSafe | app/agent/interaction.py:239-366 | for any number of sends interleaved at every await and cut anywhere: numbers are 1..n, at most five provider calls, none twice for one number and each behind a reservation, one holder per number, and every acceptance noted once or belonging to one send cut or still recording |
| SendRaces.NothingReservedNothingSent | app/agent/interaction.py:868-928 | the test before a replay is sound: with nothing marked as reserved nothing was handed to the provider, whatever was cancelled |
| SendRaces.SendableExactly | app/agent/interaction.py:262-280 | a reserved number never handed over can still be sent if and only if the send that created its row still holds it |
| SendRaces.CutBeforeMarkCountsAsDelivered | app/agent/interaction.py:262-280 | a send cut between its committed reservation and the local mark strands its number, and a retry under its id counts as delivered |
| SendRaces.AloneIsSendStep | app/agent/interaction.py:239-366 | an uninterrupted send is exactly the send of the sequential turn, for every reservation, provider and record outcome |
| SendRaces.ReplayLeavesStranded | app/agent/interaction.py:781-928 | when the first attempt is over with nothing marked, no replay ever sends what it had reserved unmarked, and each such number leaves one message less for the whole turn |
| SendRaces.ReplayedSendExactly | app/agent/interaction.py:262-280 | a send of the replay that reserves is sent if and only if its number was not stranded; if it was, it counts as delivered unsent and ends all replays |
| Scheduler.Store.ClaimJob | app/db/jobs.py:35-53 | starts the due pending job with the smallest run time, or nothing if none is due |
| Scheduler.Store.CompleteJob | app/db/jobs.py:56-62 | a running job is done; any other row is left as it is |
| Scheduler.Store.FailJob | app/db/jobs.py:65-97 | re-queues with backoff or dead-letters, unless the unique index aborts it and nothing changes |
| Scheduler.Store.RecoverStaleJobs | app/db/jobs.py:100-126 | every stale running job is re-queued with one more attempt, or none is |
| Scheduler.Store.GetPendingAutomationDue | app/db/automations.py:96-110 | none exactly if no wake-up of the automation is pending; otherwise a pending one of it, the newest, and the only one while wake-ups are unique |
| Scheduler.Store.MoveRacing | app/db/automations.py:122-129 | moving a wake-up found pending after any transactions of others: it takes effect exactly if that row is still pending |
| Scheduler.Store.InsertRacing | app/db/automations.py:131-142 | inserting one after any transactions of others: refused exactly if they left one pending |
| Scheduler.Store.TryInsert | app/db/automations.py:138-154 | one try of the loop with any transactions in its three gaps: inserted, moved, overtaken by a claim, or spoiled |
| Scheduler.Store.UpsertAutomationDue | app/db/automations.py:113-155 | with any transactions in each gap wake-ups stay unique and those of others as they were; when it takes effect a wake-up is pending at the requested time and at no other; undisturbed it is the atomic upsert |
| UpsertRaces.UpsertTakesInGeneral | app/db/automations.py:113-155 | for any claims, inserts, moves and re-queues in each gap, it takes effect if and only if it is not one of the losing interleavings, told by what the others alone would leave |
| UpsertRaces.UpsertTakesExactly | app/db/automations.py:113-155 | without re-queues the losing interleavings are told by the lists of transactions: a claim between a look and its update, or an insert before each insert that is gone at the look after it |
| UpsertRaces.LostLeavesOthers | app/db/automations.py:113-155 | a lost upsert leaves the table as the others alone would have |
| UpsertRaces.ClaimedThenResumed | app/db/automations.py:122-129 | a claim and an insert in one gap leave a wake-up pending at another time than the one asked for |
| Scheduler.Store.SetAutomationStatus | app/db/automations.py:158-192 | allowed transitions only; cancelling clears the next run |
| Scheduler.Store.RecordAutomationRun | app/db/automations.py:195-227 | only an active automation is stamped |
| Scheduler.Store.CloseWakeUp | app/services/automation.py:97-131 | stamp, complete and arm in one block |
| Scheduler.Store.CreateAutomation | app/agent/automation_tools.py:141-158 | an active row with its wake-up |
| Scheduler.Store.ResumeAutomation | app/agent/automation_tools.py:230-245 | a paused row becomes active with its wake-up, or nothing changes |
| WakeUpProperties.StepKeeps | app/services/automation.py:165-268 | every step of workers, people, recovery and executions keeps the cross-table invariant; done and dead jobs and cancelled automations are frozen |
| WakeUpTheorems.UpsertArmsExactlyOne | app/db/automations.py:113-155 | after the upsert the automation has exactly one pending wake-up, as requested, and every other row is unchanged |
| WakeUpTheorems.OnePendingWakeUp | app/database/models/job.py:53-58 | at most one job waits for one automation in every reachable state |
| WakeUpTheorems.CancelledIsFinal | app/db/automations.py:158-192 | a cancelled automation keeps no next run and never changes |
| WakeUpTheorems.RetryAccounting | app/db/jobs.py:65-126 | attempts are failures plus recoveries, starts exceed the attempt limit by recoveries at most, backoff is bounded, dead means the limit was reached |
| WakeUpTheorems.FailureSpendsBudget | app/db/jobs.py:65-97 | every failure lowers the remaining budget and the last one dead-letters |
| WakeUpTheorems.BudgetNeverRises | app/db/jobs.py:35-126 | no step of any kind raises the remaining budget of a job, nor overdraws it |
| WakeUpTheorems.FinishedJobsAreFrozen | app/worker/loop.py:95-110 | done and dead are absorbing and a second completion does nothing |
| WakeUpTheorems.BackoffSchedule | app/db/session.py:41-43 | the delay after n failures is 1, 2, 4, ..., 256 seconds for n up to 8 and 300 beyond, and never falls |
| WakeUpTheorems.CrashesAreNotCapped | app/db/jobs.py:119-123 | for every n a run leaves a job pending after n attempts |
| WakeUpTheorems.RecordedOutcomeIsFaithful | app/services/automation.py:247-268 | at any later time the recorded outcome is succeeded if and only if the run of that occurrence ended succeeded, timed out iff timed out, cancelled iff cancelled, and failed iff failed or abandoned; skipped has no run |
| Firing.PersonChanges | app/db/automations.py:158-192 | pausing, resuming and cancelling change the status and next run of one automation of that contact, as its status allows, and resuming leaves its next run waiting |
| Firing.CreatedIsArmed | app/agent/automation_tools.py:141-158 | a new automation is active with its goal, toolkits and next run, and one job for it waits then with five attempts |
| Firing.ClaimDecides | app/services/automation.py:165-210 | after claiming, the worker leaves an inactive automation alone, recognises a recorded occurrence, or fires it, late if more than two minutes have passed |
| Firing.FiringStarts | app/services/automation.py:212-252 | with a toolkit missing or a blank goal the occurrence is skipped, without a free slot the worker raises, and else a run of the automation's own goal, its blanks squeezed, with its toolkits and the local one is opened under the occurrence and awaited |
| Firing.WorkerReturns | app/worker/loop.py:93-110 | any worker that has not returned may raise, and a returned one completes its job if it is still running |
| Firing.WorkerFails | app/db/jobs.py:65-97 | a raised job has one attempt more and is queued again after its backoff or dead at the limit, or nothing changes if that would queue a second wake-up of its automation |
| Firing.OutcomeIsTheRuns | app/services/automation.py:34-40 | an awaited or already ended run gives the outcome of each terminal status, and an awaited run that has not ended raises |
| Firing.ClosingRecords | app/services/automation.py:97-131 | closing stamps the outcome, occurrence, run, lateness, time and next run, finishes the job and leaves the next run waiting |
| Firing.DuplicateCloses | app/services/automation.py:197-210 | a recorded occurrence is closed without touching the automation or the runs, and the stored next run waits |
| Firing.FiredToTheEnd | app/services/automation.py:165-268 | from the due job to its close with nothing between: every way the agent can end gives the recorded outcome, with occurrence, run and lateness, the job done and the next run waiting |
| WakeUpTheorems.OneRunPerOccurrence | app/services/automation.py:44-46 | occurrence-once, with its events and re-entries, while wake-up workers race, retry and overtake each other |
| WakeUpTheorems.FailAborts | app/db/jobs.py:86-97 | recording a failure aborts exactly when another wake-up of that automation is pending |
| WakeUpTheorems.RecoveryBlocked | app/db/jobs.py:112-125 | in any one state, recovery is blocked for every job exactly when two wake-ups of one automation collide |
| WakeUpTheorems.ResumeWhileRunningCollides | app/agent/automation_tools.py:230-245 | a pause and resume during a run reach such a collision |
| Jams.JammedForGood | app/db/jobs.py:100-126 | two stale wake-ups of one automation that no living worker has: over any further run every recovery is refused, so every other stale job that nobody works on, of any contact, stays as it is |
| Jams.JamsExactly | app/db/jobs.py:56-126 | in every reachable state two stale wake-ups of one automation stay so for good if and only if no living worker has either |
| Jams.JamIsReachable | app/worker/loop.py:110-123 | two crashes around a pause and a resume get there |
| NoLoss.NoAutomationLost | app/services/automation.py:97-210 | with crash-stop workers the wake-up that was armed last for an active automation with a next run is pending or running, unless that very wake-up was dead-lettered |
| NoLoss.LostExactly | app/db/jobs.py:56-62 | over all runs, crash-stop or not: the wake-up armed last for an active automation with a next run is done if and only if it was completed, arming nothing, for a worker that another had overtaken |
| NoLoss.LostWithoutCrashStop | app/db/jobs.py:58-62 | a recovered job's old worker can complete its successor and leave none |
| Schedule.SlotIsLater | app/core/rrule.py:127-137 | a later local time converts to a later instant exactly outside the repeated stretch, and inside it to before the clock change |
| Schedule.NextIsLaterUnlessRepeated | app/core/rrule.py:140-159 | the next occurrence is after now if and only if its slot is not in a repeated hour already in its second pass |
| Schedule.NextIsTheFirst | app/core/rrule.py:140-159 | for any set of slots on whole seconds and the rule that gives the least of them later than a time: the next occurrence is the conversion of a slot after the current local time with no slot between, and none exactly if none is left |
| Schedule.LocalExactly | app/core/rrule.py:127-137 | local time is the instant plus the offset of the last shift at or before it, or the base offset before all |
| Schedule.ToUtcIsTheEarliest | app/core/rrule.py:127-137 | a wall-clock time that some instant shows is converted to the earliest such instant |
| Schedule.SkippedTimeReads | app/core/rrule.py:127-137 | a wall-clock time that a shift skips, which no instant shows, is read with the offset before it |
| Schedule.NextIsLaterOnFirstPass | app/core/rrule.py:127-159 | so whenever the current local time reads back as the current instant |
| Schedule.ReadsBack | app/core/rrule.py:127-137 | local time reads back as its instant exactly outside a second pass |
| Schedule.RepeatedSlotIsTheSameInstant | app/core/rrule.py:136-137 | a slot of the repeated hour falls on two instants, before the change and after now; the answer is the first, the very one scheduled before the change |
| CatchUp.CatchUpAdvancesOnce | app/services/automation.py:106-131 | closing after any downtime leaves no next run or one strictly later and nothing due, exactly outside the repeated hour |
| CatchUp.CatchUpTakesTheFirst | app/services/automation.py:106-131 | in every reachable state closing leaves as next run, with its wake-up, the conversion of the first slot after the current local time, and none exactly if no slot is left |
| CatchUp.StuckUntilSomeoneIntervenes | app/services/automation.py:197-210 | once the next occurrence is the recorded one no worker, crash or recovery ever changes the automation |
| CatchUp.InertUntilSomeoneIntervenes | app/services/automation.py:97-210 | nor when no wake-up that is not over and no living worker is about another occurrence than the recorded one |
| Inertia.ChangesExactly | app/services/automation.py:97-268 | in every reachable state, the row of an active automation with no running wake-up and no living worker can change without its owner if and only if its pending wake-up is about another occurrence than the recorded one, or finds it recorded and a different one next |
| CatchUp.StuckIsReachable | app/services/automation.py:197-210 | a wake-up closed in the second pass of a repeated hour gets there |
| PendingActions.ActionStore.CreatePendingAction | app/db/integrations.py:173-213 | cancels the live proposals of the kind and adds a pending one with its deadline |
| PendingActions.ActionStore.ClaimPendingAction | app/db/integrations.py:216-259 | claims the newest pending, unexpired row of this contact and kind that matches the id and the hash, if given, and was staged under another turn id, and returns it |
| PendingActions.ActionStore.ListPendingActions | app/db/integrations.py:262-277 | exactly the unexpired pending rows, newest first |
| PendingActions.ActionStore.DiscardPendingAction | app/db/integrations.py:280-293 | only a claimed row becomes executed |
| PendingActions.ActionStore.ReleasePendingAction | app/db/integrations.py:296-314 | only a claimed row becomes pending, with its old deadline |
| PendingActions.ActionStore.FailPendingAction | app/db/integrations.py:317-331 | only a claimed row becomes failed |
| PendingActions.ActionStore.ExpirePendingActions | app/db/integrations.py:334-344 | exactly the pending rows at or past their deadline expire |
| PendingActions.FreshlyStaged | app/db/integrations.py:173-314 | a staged action can be claimed exactly under another turn id before its deadline, once; a release undoes the claim |
| Offers.EntryShows | app/agent/interaction.py:518-540 | the rendered entry of an action contains the tag of a kind if and only if the action has the kind or one of its two quoted texts contains the tag |
| Offers.OfferedExactly | app/agent/interaction.py:632-750 | a kind is offered, its tag occurring in the rendered summary, if and only if some pending or claimed action of the contact has the kind or quotes its tag |
| Offers.EntryReads | app/agent/interaction.py:518-540 | the entry of an event shows its title and start, that of an e-mail its recipient and subject, each under its label and cut to its length |
| Offers.SummaryReads | app/agent/interaction.py:518-540 | the summary is one word when nothing is pending or claimed, and else the entries of those actions in order, with semicolons between |
| Confirmations.ConfirmationService.SelectAction | app/services/calendar_confirmation.py:67-95 | listing, choosing and checking the stored hash, as the protocol's step |
| Confirmations.ConfirmationService.ConfirmStaged | app/services/email_confirmation.py:58-145 | a whole confirmation is the protocol's own steps in a row, with its outcome |
| Confirmations.ConfirmationService.ExecuteClaimed | app/services/calendar_confirmation.py:106-146 | check, call and settlement of a claimed action for every provider answer |
| ConfirmationRuns.StagedEmailExactly | app/agent/gmail_tools.py:194-238 | an e-mail is staged exactly for a draft id of 1 to 256 characters, a subject of 1 to 300 and a valid address, and the row has the stripped draft id, address and subject each in its place, its kind, its origin and its deadline |
| ConfirmationRuns.StagedEventExactly | app/agent/calendar_tools.py:154-200 | an event is staged exactly for acceptable arguments, with its payload, kind, origin and deadline |
| ConfirmationRuns.StagingSupersedes | app/db/integrations.py:189-199 | staging cancels the pending and claimed actions of that contact and kind and leaves every other as it is |
| ConfirmationRuns.TurnOpens | app/agent/interaction.py:632-750 | a turn loads exactly the pending and claimed actions of its contact and is offered the kinds that some of them shows |
| ConfirmationRuns.ConfirmStarts | app/agent/interaction.py:439-513 | a confirmation acts for the contact and message of its turn, and only where the kind was offered |
| ConfirmationRuns.ExpiryExactly | app/db/integrations.py:334-344 | expiry ends exactly the pending actions at or past their deadline |
| ConfirmationRuns.ChosenExactly | app/services/email_confirmation.py:39-75 | the action chosen is the unexpired one of the kind that was named, or the only one; without one a calendar confirmation finds nothing, and an e-mail one is ambiguous if anything is pending |
| ConfirmationRuns.ConfirmedExactly | app/services/email_confirmation.py:58-145 | in every reachable state, from end to end with nothing between: the action meant is sent carrying what was staged, executed and completed when acknowledged, and pending again and to be retried after every other end, disconnection included; with none meant nothing changes |
| ConfirmationProperties.StepKeeps | app/services/calendar_confirmation.py:58-146 | every step of stagings, confirmers and expiry keeps the invariant behind the theorems below |
| ConfirmationProperties.CalendarIsNeverAmbiguous | app/services/calendar_confirmation.py:39-79 | with one live proposal per kind the calendar service is never ambiguous |
| ConfirmationProperties.EmailAmbiguity | app/services/email_confirmation.py:39-75 | unnamed, the email service is ambiguous exactly if no email but an event is pending |
| ConfirmationProperties.NamedEmailAmbiguity | app/services/email_confirmation.py:39-75 | named, exactly if the name is no pending email while some action is pending |
| ConfirmationTheorems.AtMostOneAcknowledgement | app/services/calendar_confirmation.py:80-146 | over any run at most one acknowledged call per staged action; that of an e-mail carries its stored draft id and that of an event its stored fields, none else; executed had one; pending, expired and failed none |
| ConfirmationTheorems.AcknowledgedEventCarriesStagedFields | app/integrations/calendar.py:350-386 | the request of a staged event is exactly its fields |
| ConfirmationTheorems.OneConfirmerInFlight | app/services/email_confirmation.py:76-140 | one confirmer holds an action, which is claimed or was cancelled meanwhile |
| ConfirmationTheorems.OneLiveProposal | app/db/integrations.py:173-213 | one pending or claimed action per contact and kind; no service finds a staged row invalid |
| ConfirmationTheorems.ClaimsBeforeTheDeadline | app/db/integrations.py:216-259 | every claim is of a pending action and strictly before the deadline of fifteen minutes |
| ConfirmationOrigins.GateNeverRefuses | app/db/integrations.py:216-259 | in every reachable state a claim succeeds if and only if it would without the turn comparison |
| ConfirmationOrigins.OwnExactlyBySource | app/db/integrations.py:173-259 | a claim takes a proposal staged by its own turn's dispatch if and only if it succeeds and the row's source column names that turn |
| ConfirmationOrigins.OwnProposalExactly | app/agent/interaction.py:152-160 | in every reachable state a turn can go on to confirm what its own dispatch staged if and only if it was offered the confirmation of that kind: a loaded action had the kind or quoted its tag in a text |
| ConfirmationOrigins.OwnProposalIsReachable | app/agent/interaction.py:439-513 | a run in which a turn gets to claim its own proposal |
| ConfirmationOrigins.OwnSupersededExactly | app/agent/interaction.py:747-750 | what a turn confirms of its own superseded an older proposal it had loaded if and only if it had loaded one; otherwise a loaded text quotes the tag |
| ConfirmationOrigins.OwnUnpromptedExactly | app/agent/interaction.py:747-750 | a turn can confirm its own proposal having superseded none if and only if it had loaded none of the kind and a loaded text quotes the tag |
| ConfirmationOrigins.TitleOffersTheEmailTool | app/agent/interaction.py:747-750 | with one event titled after the e-mail tag and no e-mail proposal ever, a turn confirms the e-mail its own dispatch staged |
| ConfirmationOrigins.SuchATitleIsAccepted | app/integrations/calendar.py:307-346 | such an event is accepted in every zone that exists, if its times resolve |
| ConfirmationTheorems.StagedRowsAreFixed | app/db/integrations.py:296-331 | releases never move a deadline and the four terminal statuses are final |
| ConfirmationTheorems.AbandonedUntilRestaged | app/services/calendar_confirmation.py:96-139 | the action of a crashed confirmer stays claimed until a new proposal of its kind |
| ConfirmationTheorems.AbandonedExactly | app/services/calendar_confirmation.py:96-139 | in every reachable state a claimed action can change other than by a new proposal if and only if some confirmer holds it |
| ConfirmationTheorems.AbandonedIsReachable | app/services/calendar_confirmation.py:96-139 | a confirmer that dies with its claim gets there |
| ConfirmationTheorems.EffectsAreAccountedFor | app/services/calendar_confirmation.py:106-146 | over any run the provider acts for an action exactly once per acknowledged call plus once per call carried out unheard |
| ConfirmationTheorems.AtMostOneEffect | app/services/email_confirmation.py:122-140 | at most one effect if and only if no call is carried out unheard, or one is and none is acknowledged |
| ConfirmationTheorems.HeardEffectsAreAcknowledged | app/services/email_confirmation.py:122-140 | when no such call occurs the effects are the acknowledged calls, entry by entry |
| ConfirmationTheorems.UnacknowledgedEffectsRepeat | app/services/email_confirmation.py:122-130 | with lost answers any one staged e-mail, still pending, can take effect any number of times |
| ConfirmationTheorems.OverlappingStagingLeavesTwo | app/db/integrations.py:189-212 | two stagings that are not atomic leave two live proposals and make the calendar service ambiguous |
| Calendar.CollectEmails | app/integrations/calendar.py:329-333 | all addresses validated in order, or an error if one is invalid |
| Calendar.ValidateCreatePayload | app/integrations/calendar.py:307-346 | accepts, cleans and refuses in the order of the checks |
| Calendar.CreateEventRequest | app/integrations/calendar.py:350-386 | builds the request step by step, or fails with the first error |
| Calendar.AcceptedTextsAreFixpoints | app/integrations/calendar.py:46-48 | accepted titles, locations and descriptions are fixpoints of their cleaning |
| Calendar.StagedExactly | app/integrations/calendar.py:307-346 | exactly the acceptable drafts are staged (title of 1 to 300 characters, location up to 500, description up to 4000, at most twenty valid addresses of up to 320, a known zone, resolvable times, a calendar id of 1 to 256 without whitespace), each field cleaned and in its place and both bounds as resolved |
| Calendar.RefusedExactly | app/integrations/calendar.py:307-346 | a draft is refused for the first thing wrong with it in the order title, location, description, addresses, their number, zone, times, calendar |
| Calendar.RequestExactly | app/integrations/calendar.py:350-386 | which payloads build a request, staged or not, and the error of each other |
| Calendar.EmailExactly | app/integrations/calendar.py:89-93 | an address is valid exactly if it is a name, an at sign and a host with a dot inside, none holding whitespace, at signs or angle brackets |
| Calendar.StagedIsExecutable | app/integrations/calendar.py:307-386 | every accepted payload builds a request that carries exactly it |
| Calendar.CompactIsNotIdempotent | app/integrations/calendar.py:46-48 | a text whose second compaction differs |
| Text.CompactTwice | app/integrations/calendar.py:46-48 | compaction is idempotent exactly if the cut was not needed or does not end on a blank |
| TextFacts.StripExactly | app/integrations/calendar.py:46-48 | stripping takes all whitespace off both ends and nothing else |
| TextFacts.CompactIsJoined | app/integrations/calendar.py:46-48 | compaction joins the words of the text by single blanks and cuts the result to the limit |
| TextFacts.NumeralExactly | app/core/rrule.py:92-106 | the numerals read are digits with single underscores between them |
| TextFacts.NumeralValue | app/core/rrule.py:92-106 | their value, digit by digit |
| TextFacts.NoOtherNumbers | app/core/rrule.py:92-106 | a number is such a numeral after an optional sign, stripped, and nothing else is one |
| Reminders.ReminderStore.CreateReminder | app/db/reminders.py:14-30 | adds an active reminder |
| Reminders.ReminderStore.ClaimReminderForSend | app/db/reminders.py:100-121 | only an active reminder becomes sent |
| Reminders.ReminderStore.ReleaseReminderClaim | app/db/reminders.py:124-142 | only a sent reminder becomes active again, never sent |
| Reminders.ReminderStore.CancelReminderRow | app/db/reminders.py:71-89 | only an active reminder is cancelled |
| Reminders.ReminderHandler.RunReminderDue | app/worker/handlers/reminder_due.py:42-125 | a whole delivery is the protocol's own steps in a row, with its outcome |
| Reminders.StepKeeps | app/worker/handlers/reminder_due.py:42-125 | every step of handlers and cancels keeps the invariant behind the theorems below |
| Reminders.ReleaseUndoesClaim | app/db/reminders.py:100-142 | releasing undoes exactly the claim; a claimed reminder can be neither claimed nor cancelled |
| Reminders.AtMostOnePing | app/worker/handlers/reminder_due.py:42-125 | at most one accepted ping per reminder, whose text is its body stripped, and none unless it is marked sent |
| Reminders.DeliveredExactly | app/worker/handlers/reminder_due.py:42-125 | a delivery with nothing between: an active reminder is marked sent with its time and pinged with its stripped body, or active again and unsent after a refused or unheard send; any other is left alone; each with its outcome |
| Reminders.CancelledAndPingedAreFinal | app/db/reminders.py:71-121 | cancelled is final; a pinged reminder, recorded or not, is never touched or pinged again |
| Reminders.SilentForGood | app/worker/handlers/reminder_due.py:77-81 | a handler that dies after claiming leaves its reminder marked sent and never pinged |
| Reminders.SilentExactly | app/worker/handlers/reminder_due.py:77-125 | in every reachable state a reminder marked sent and not pinged can still be pinged or released if and only if some handler holds it |
| Reminders.SilentIsReachable | app/worker/handlers/reminder_due.py:77-81 | a handler that dies after claiming gets there |
| Reminders.EffectsAreAccountedFor | app/worker/handlers/reminder_due.py:77-125 | over any run a reminder goes out exactly once per accepted ping plus once per send carried out unheard |
| Reminders.AtMostOneEffect | app/worker/handlers/reminder_due.py:77-125 | it goes out at most once if and only if no send is carried out unheard, or one is and none is accepted |
| Reminders.HeardEffectsAreAccepted | app/worker/handlers/reminder_due.py:77-125 | when no such send occurs the reminders that go out are the accepted ones, entry by entry |
| Reminders.LostAnswersRepeat | app/worker/handlers/reminder_due.py:117-124 | with lost answers an active reminder can be pinged any number of times |
| RRule.ParsePieces | app/core/rrule.py:70-84 | the loop reads the parts that the specification reads, or its first error |
| RRule.CanonicalizeRrule | app/core/rrule.py:55-123 | step by step the canonical text of the specification, or its first failing check; RRuleFacts says what that text and those checks are |
| RRuleFacts.BodyExactly | app/core/rrule.py:57-67 | the body is the stripped text without its prefix in any case; blank, several lines and any DTSTART are refused in that order |
| RRuleFacts.PartExactly | app/core/rrule.py:71-80 | a part is what stands before and after its first equals sign, stripped, the key in capitals; without the sign or with a blank side it is invalid |
| RRuleFacts.ReadExactly | app/core/rrule.py:69-84 | reading takes every nonblank piece under a key of its own, or refuses the first piece that is invalid or repeats a key |
| RRuleFacts.FilledExactly | app/core/rrule.py:86-112 | exactly the five frequencies, a positive interval and a count from 1 to 730 are accepted, refused in that order; frequency, interval, count and second are normalised and every other part keeps its value |
| RRuleFacts.ArrangedExactly | app/core/rrule.py:114-119 | known parts stand in the fixed order of fourteen keys, the others behind them as they came, and none is dropped or changed |
| RRuleFacts.CanonicalExactly | app/core/rrule.py:69-126 | for any pieces: the canonical text part by part, key, equals sign and value between semicolons, or the first reason against the rule, the library's refusal being the last |
| RRuleProperties.CanonicalReadsBack | app/core/rrule.py:86-116 | the canonical text reads back as the given parts with the defaults filled in |
| RRuleProperties.CanonicalIsFixpoint | app/core/rrule.py:55-150 | canonicalizing is idempotent, so the rule read at firing time is the stored one |
| RRuleProperties.CanonicalRanges | app/core/rrule.py:86-112 | the stored text has one of the five frequencies, a positive interval, a count from 1 to 730 if any, and a second |
| RRuleOrder.OrderAndCaseDoNotMatter | app/core/rrule.py:70-116 | permuted known parts give the same canonical text or the same error |
| RRuleOrder.KeyCaseDoesNotMatter | app/core/rrule.py:76-78 | a part reads the same in any key case |
| Mime.ExtractText | app/integrations/gmail.py:234-254 | the recursive extraction computes the text and flag of the specification |
| Mime.LeafReads | app/integrations/gmail.py:223-243 | a plain or HTML part gives its body decoded, or nothing without one, and says which it is; a malformed part gives nothing |
| Mime.PartTextIsFlat | app/integrations/gmail.py:234-254 | that text is all nonempty plain leaves in document order, or all nonempty HTML leaves if there are none |

## Left out

- The automation handler, the execution runner and the worker loop are steps of protocols and not also methods, because other tasks run between their transactions; the Interaction turn, the confirmation services and the reminder handler are both.
- Atomicity inside a session block, except where it is examined above: the read before `fail_job` is taken together with its update, and in `WakeUps` so are the lookup and the insert of a scheduled run.
- WakeUpTheorems.OneRunPerOccurrence: an occurrence is identified by its automation and whole second, as its dedupe key is; two occurrences in one second are one.
- Inertia.ChangesExactly: speaks of automations none of whose wake-ups runs and none of whose workers lives; while one does, whether the row can still change also depends on whether recovery is jammed.
- Offers.OfferedExactly: the ids in the summary are numerals and its rows in id order; the source has random ids, which contain no tag either, and an unspecified order, on which the condition does not depend.
- TurnProperties.AnsweredIsAccepted: a provider call that raises counts as refused, although the provider may have acted; the same limit is exhibited for confirmations and reminders.
- Tool calls of one model run are sequential in the turn of `Interaction`; `SendRaces` has the sends of one turn at the same time, with cancellation at every await and across a replay, but not the model runs around them.
- The templates, windows and texts of messages, the prompts and the choice of tools: the model is an adversary.
- RRuleProperties.CanonicalIsFixpoint: upper-casing and digits are those of ASCII, and numerals have no length limit; other scripts' case mappings are not modelled.
- What a recurrence rule expands to, which texts the rule library accepts, the zone database and how start and end texts resolve are parameters with the laws stated; the gaps and overlaps of a zone do not overlap each other.
- Calendar.StagedIsExecutable: the zone database is the same at staging and at confirmation, payload fields have the types staging gives them, and the percent-encoding of the calendar id is left to the endpoint.
- Firing.FiringStarts: the toolkits of an automation are stored stripped, in lower case and without the local one, as creating it leaves them.
- Hashing and JSON normalization of payloads: the digest is collision-free by construction.
- The automation's name, time zone and rule columns, the job's other kinds, the dead-lettering of a job of unknown kind, and of an execution event's payload everything but its kind, goal, status, result and error.
- The per-contact advisory lock: reminders and confirmations are proved without it, turns are taken one at a time.
- Connect links, integration rows, notifications, task lists, formatting, web routes, logging, migrations and relative date windows: single-branch code, or no guarantee to prove.
- Progress: nothing is said about when a step is taken, only what holds whenever it is.
