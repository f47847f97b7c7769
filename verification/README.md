# The event bridge, modelled and proved in Dafny

The bridge sits between a ticket board, a chat relay and the operator. It watches the board and
announces transitions, splits agent time between two tracks and locks a track by pausing its agents,
nudges the split by measured work, and reminds about silent runs. All of it shares one store, any of
it can die between two writes, and its safety rests on code spread over several files. This project
models that control loop, and two small functions of the memory plugin, and proves what they promise.

## How it is modelled

A moment is a whole number of milliseconds. An event id is a constructor over the parts the source
digests. Every method of the store is one committed step. A crash is a cut: the writes of an operation
form a script, and a process that dies leaves the effect of a prefix of it. The sender, the clock,
the board's answers and the fate of the process are inputs, so statements hold for all of them.

There are two layers. The value layer gives each machine as functions over its tables and proves the
statements about whole runs. The object layer has the source's own shape, classes whose methods loop
and update fields, and every method is proved to write exactly the script of the value layer, in
order; ghost journals make that order part of the contracts. What the functions of the value layer
compute is in turn stated from the inputs alone, without naming them: which channel, which slots, which
rows and mandates count, which key and date, which fields end up in which row.

| file | what it holds |
|---|---|
| Basics.dfy, Events.dfy | shared types; issues, events, ids and their classification |
| Outbox.dfy, Outcomes.dfy | the outbox machine: conservation, send accounting, termination; what each turn records, and who expires |
| Observation.dfy, Sightings.dfy | the poller's scripts: refinement, replay, recovery, paging, first start; what a pass files, told from the tickets' columns |
| Policy.dfy | the precedence resolver: what is in force, what outranks what, its loops, what a tie is worth |
| Allocation.dfy | the five records of a lock, the pause ledger, crashes, the restart pass |
| Resuming.dfy | what a completed call leaves of each agent: status on record, status resumed to, slots |
| Records.dfy | how a call ends and what it writes down, field by field |
| Stranding.dfy | which crashes of an unlocking call strand its agents, and that it is for good |
| Adaptive.dfy, Ticks.dfy | measuring, deciding, the drift timer over whole runs; what a tick finds and stores |
| Health.dfy, Looks.dfy | run health: classification, reminders, rate and freshness; what a look leaves |
| Bridge.dfy | poller, monitor and deliverer together, end to end |
| Store.dfy, Paperclip.dfy | the shared store and the work board as objects |
| Deliver.dfy, Poller.dfy, Control.dfy | the deliverer, the poller and the control calls |
| AdaptiveController.dfy, HealthMonitor.dfy | the two periodic controllers |
| Recall.dfy, Rendering.dfy, Snapshot.dfy | the recall fence, what its blocks show, and the pruned snapshot ledger |

## Where the code and what is said of it differ

The model follows the code. Each of these is proved, with the exact condition under which the
intended property does hold, and where it helps with an input.

- The adaptive docstring speaks of a nudge toward the measured split; the code moves away from it, and
  a steady measurement outside the tolerance runs the split to its edge
  (`Adaptive.MovesWidenTheGap`, `Adaptive.MovesRunToTheEdge`, `Adaptive.SteadyRunsSettle`).
- A tick within tolerance or with too few samples forgets when drift began but not its direction; the
  timer then never ripens while the drift stays on that side (`Adaptive.StallLastsExactly`).
- The comment on internal errors says they end at the attempt cap; they are rescheduled without looking
  at it (`Outbox.CapPassedOnlyByExceptions`, `Outbox.ExceptionsRetryForever`).
- A refused resume is meant for holds somebody else changed; because the ledger stores a printed list,
  any recorded hold refuses it (`Allocation.UnchangedHoldsAreRefusedIfAny`,
  `Allocation.OwnHoldsRefuseTheResume`).
- A resume always sets idle, not the status the ledger recorded: a lock and an unlock restore an agent's
  status exactly if it was idle (`Resuming.ResumeRestoresExactlyIdle`, over whole calls
  `Resuming.LockThenUnlockRestoresExactlyIdle`; an input is `Resuming.ActiveAgentsComeBackIdle`).
- A crash of an unlocking call after a track's share row and before an agent's resume, followed by a
  restart pass that gets to the agent's row, closes that row while the agent is still paused, and nothing the bridge does
  short of locking its track again and unlocking it brings it back
  (`Stranding.CrashedUnlockStrandsExactly`, `Stranding.StrandedForGood`, `Records.RelockingBringsBack`).
- Two allocations in the same millisecond are resolved key by key: the shares need not sum to 100, and a
  track can have share 0 and read unlocked (`Allocation.SameMomentSharesSumExactlyWhenEqual`,
  `Allocation.SameMomentLockAgreesExactly`).
- The value that "grants less" is not defined for two different texts: the first one wins
  (`Policy.TextTiesDependOnOrder`).
- A reconciliation that meets a row before the next tick silences the tick for news whose stamp is not
  after the watermark (`Observation.ReconcileFirstLosesExactlyStaleNews`; an input is
  `Observation.AnEndDuringTheFirstStartIsLost`).
- A health alert is lost if the process dies after the row was written
  (`Health.CutAlarmsWaitAnInterval`), and a run first seen as unknown is later announced as recovered
  (`Health.RecoveriesWithoutAlarm`).

## Model

| member | source | states |
|---|---|---|
| Bridge.AnnouncementsAreServedOnce | patches/event-bridge/opc_bridge/deliver.py:53-155 | end to end, over any interleaving of polls, reconciliations, back-fills, alarms, deliveries and restarts, each cut anywhere: an issue event that lands was found on a terminal row the board served, an issue event is known exactly if it has its delivery row, and in calm weather it lands once if its row is sent and never otherwise |
| Bridge.KnownIsFiled | patches/event-bridge/opc_bridge/store.py:303-334 | nothing found is lost: the event keys the poller and the monitor know are exactly the events filed in the outbox |
| Bridge.KnownIssuesWereServed | patches/event-bridge/opc_bridge/poller.py:233-260 | every issue key ever filed came from a terminal row of a served snapshot |
| Outbox.RunKeepsInv | patches/event-bridge/opc_bridge/store.py:394-456 | in every reachable state events and deliveries have the same ids, events are filed under their own id, and every row still to be attempted is in sending |
| Outbox.OutboxConserved | patches/event-bridge/opc_bridge/store.py:303-334 | over any run no event or delivery row is ever removed or rewritten and a row in a terminal state never changes at a later step |
| Outbox.FinishedRowsArePutBackExactly | patches/event-bridge/opc_bridge/deliver.py:61-107 | and within a turn: a row the turn has finished is put back to pending if and only if an exception follows the record, from the work after it or from the alert that a refusal causes |
| Outbox.BootRecovers | patches/event-bridge/opc_bridge/store.py:413-419 | after a restart no row is in sending, each one that was is pending and unchanged otherwise, and a second restart changes nothing |
| Outbox.SendAccounting | patches/event-bridge/opc_bridge/deliver.py:53-155 | at-least-once counted exactly: accepted tagged sends of an event equal its recorded send, if any, plus the turns cut after landing |
| Outbox.CutExactly | patches/event-bridge/opc_bridge/deliver.py:62-155 | a turn is cut exactly when a send landed and its acceptance was lost, or a fault fell before the record, or an exception struck after it |
| Outbox.SentMeansLanded | patches/event-bridge/opc_bridge/deliver.py:90-107 | a turn that leaves a row sent or fallback_sent landed a send carrying that row's id |
| Outbox.ExactlyOnceWhenCalm | patches/event-bridge/opc_bridge/deliver.py:53-155 | if no acknowledgement is lost and no fault falls between landing and record, an event lands once if its row is sent, otherwise never |
| Outbox.TurnMakesProgress | patches/event-bridge/opc_bridge/deliver.py:109-129 | when failures are sender errors only, a turn that ends finishes the row or uses up one attempt of it, below the cap, with the right delay; a crash uses none |
| Outbox.DeliveryTerminates | patches/event-bridge/opc_bridge/deliver.py:109-129 | with sender errors only, every row has attempts below the cap in every reachable state and no event is given more than max_attempts turns, whatever crashes come between |
| Outbox.WholeOutboxTerminates | patches/event-bridge/opc_bridge/deliver.py:53-73 | n events take at most n * max_attempts turns in all |
| Outbox.CapPassedOnlyByExceptions | patches/event-bridge/opc_bridge/deliver.py:61-73 | on its last attempt a row passes the cap if and only if an exception, not a refusal, ended the turn |
| Outbox.ExceptionsRetryForever | patches/event-bridge/opc_bridge/deliver.py:61-73 | why the premise is needed: for every n there is a run of exceptions after which the row is pending with n attempts, whatever the cap |
| Outbox.BackoffGrows | patches/event-bridge/opc_bridge/deliver.py:42-43 | retry delays lie between 5 and 300 seconds, never shrink, double until the cap and are at the cap from the sixth on |
| Delivering.MessagesAreAddressed | patches/event-bridge/opc_bridge/deliver.py:84-155 | a turn hands over nothing if and only if it faults first, the event is too old or has nowhere to go; else first the event, to its origin channel, without one to the configured fallback, without that to the control channel; a second message is the event again, to another fallback or control channel, exactly when the bridge is no member of the first, or an untagged alert to the configured fallback, exactly when the last attempt was refused and recorded |
| Outcomes.TurnsRecordWhatHappened | patches/event-bridge/opc_bridge/deliver.py:75-155 | an undisturbed turn case by case, field by field: too old, nowhere to go, taken, refused with attempts left or none, no member and then nowhere else to go, taken, refused or no member again |
| Outcomes.ExceptionsPutOff | patches/event-bridge/opc_bridge/deliver.py:61-73 | an exception leaves the row pending with one more attempt, the delay of the attempts it had, and an internal error |
| Outcomes.CrashesLeave | patches/event-bridge/opc_bridge/deliver.py:62-155 | a crash leaves the row as it was, or as an undisturbed turn with the same answers records it |
| Outcomes.TurnsEndExactly | patches/event-bridge/opc_bridge/deliver.py:53-183 | whether a turn ends, is rescued or dies with the process, by faults, exceptions of the sender and the alert, case by case |
| Outcomes.OnlyOldEventsExpire | patches/event-bridge/opc_bridge/deliver.py:158-163 | over any run, an event that is expired was too old by the clock of some claim |
| Outcomes.PromptAlertsNeverExpire | patches/event-bridge/opc_bridge/deliver.py:158-163 | an event dated at a moment is never expired if every claim comes within the maximum age of it |
| Outcomes.ClaimsTakeTheOldestDue | patches/event-bridge/opc_bridge/store.py:394-412 | a claim takes pending rows whose time has come, at most the limit, none left out that was due earlier, and marks those and no others |
| Outcomes.NewEventsAreDue | patches/event-bridge/opc_bridge/store.py:303-334 | a new event is stored as given with a pending, untried row that is due at once |
| Delivering.Deliverer.DestinationOf | patches/event-bridge/opc_bridge/deliver.py:45-50 | origin channel, else the configured fallback, else the control channel, channel by channel |
| Delivering.Deliverer.HasExpired | patches/event-bridge/opc_bridge/deliver.py:158-163 | expired if and only if there is a date and it is older than the maximum age |
| Delivering.Deliverer.Fail | patches/event-bridge/opc_bridge/deliver.py:165-169 | marks the row failed with its cause at the clock of the failure; faults before and after the write end as the model says |
| Delivering.Deliverer.Fallback | patches/event-bridge/opc_bridge/deliver.py:131-155 | one send to the fallback channel unless there is none or it is the channel that failed; the row, the relay's record and the message list end as the model says |
| Delivering.Deliverer.Alert | patches/event-bridge/opc_bridge/deliver.py:171-183 | one untagged message to the configured fallback, if there is one; a refusal is swallowed, another exception is not |
| Delivering.Deliverer.HandleRefusal | patches/event-bridge/opc_bridge/deliver.py:109-129 | the last attempt fails the row and then alerts; any other is rescheduled with the next delay |
| Delivering.Deliverer.DeliverRow | patches/event-bridge/opc_bridge/deliver.py:75-107 | one row's turn leaves store, relay and message list as the outbox machine's turn does, in every weather |
| Delivering.Deliverer.TakeTurn | patches/event-bridge/opc_bridge/deliver.py:61-72 | the exception handler around a row: the whole step equals one step of the machine and touches no other row |
| Delivering.Deliverer.RunOnce | patches/event-bridge/opc_bridge/deliver.py:53-73 | one pass equals a run of the machine: one claim of at most fifty, then the claimed rows in order until done or killed, and the count returned is the turns that delivered |
| Delivering.Deliverer.Restart | patches/event-bridge/opc_bridge/main.py:116-118 | a restart is the machine's restart step |
| Storage.Store.EnqueueEvent | patches/event-bridge/opc_bridge/store.py:303-334 | event and pending delivery are inserted together or, if the id is known, not at all; nothing else in the outbox changes |
| Storage.Store.OldestOf | patches/event-bridge/opc_bridge/store.py:394-412 | the row with the least next_attempt_at of a non-empty set |
| Storage.Store.SelectDue | patches/event-bridge/opc_bridge/store.py:394-403 | distinct due pending rows in due order, at most the limit, and none left out that was due earlier |
| Storage.Store.ClaimDue | patches/event-bridge/opc_bridge/store.py:394-412 | the selected rows, and only they, become sending |
| Storage.Store.RecoverInflight | patches/event-bridge/opc_bridge/store.py:413-419 | exactly the sending rows become pending, and their number is returned |
| Storage.Store.FinishDelivery | patches/event-bridge/opc_bridge/store.py:433-447 | state and date are set, message id and error keep their old value when none is given, other rows stay |
| Storage.Store.MarkSent | patches/event-bridge/opc_bridge/store.py:421-422 | the row ends sent with the relay's message id |
| Storage.Store.MarkFallback | patches/event-bridge/opc_bridge/store.py:424-425 | the row ends fallback_sent with the relay's message id |
| Storage.Store.MarkExpired | patches/event-bridge/opc_bridge/store.py:427-428 | the row ends expired |
| Storage.Store.MarkFailed | patches/event-bridge/opc_bridge/store.py:430-431 | the row ends failed with its reason |
| Storage.Store.Reschedule | patches/event-bridge/opc_bridge/store.py:449-456 | the row is pending again with one more attempt, the given date and error |
| Storage.Store.SetCursor | patches/event-bridge/opc_bridge/store.py:259-267 | the cursor is replaced, the start date only if one is given |
| Storage.Store.UpsertIssueState | patches/event-bridge/opc_bridge/store.py:276-300 | the issue's remembered status, stamp and update date are replaced, other issues stay |
| Storage.Store.InsertPolicy | patches/event-bridge/opc_bridge/store.py:508-521 | one policy row is added |
| Storage.Store.LedgerPut | patches/event-bridge/opc_bridge/store.py:634-648 | the agent's ledger row is replaced and open |
| Storage.Store.LedgerRelease | patches/event-bridge/opc_bridge/store.py:667-673 | the agent's row, if there is one, is closed and otherwise kept |
| Storage.Store.SetTrackState | patches/event-bridge/opc_bridge/store.py:621-631 | the track's state row is replaced |
| Storage.Store.SetAdaptiveState | patches/event-bridge/opc_bridge/adaptive.py:141-142 | the drift timer is stored, after every allocation write made so far |
| Storage.Store.SetRunHealth | patches/event-bridge/opc_bridge/store.py:690-707 | the run's row is inserted or updated, an update keeping the first date it was given |
| Observation.StreamRefinesHistory | patches/event-bridge/opc_bridge/poller.py:233-275 | for any history of observations the event keys are exactly those of the terminal transitions, newly stamped blocked rows and post-watermark first sightings, and the remembered state of an issue is its last observation |
| Observation.KeysTellEndsApart | patches/event-bridge/opc_bridge/events.py:89-115 | where the board dates a ticket's end, two looks share a key if and only if they are of the same end of the same ticket |
| Sightings.KeysAreDatedByTheBoard | patches/event-bridge/opc_bridge/events.py:89-138 | a key carries the ticket, its status and the date of its end, else of its update, else of the poll |
| Observation.UndatedBlocksRepeatOnUpdates | patches/event-bridge/opc_bridge/events.py:112-138 | a blocked ticket without a transition date is announced again if and only if it was updated since the last look |
| Observation.IssuesAreIndependent | patches/event-bridge/opc_bridge/poller.py:233-260 | what is known of an issue depends on its own observations alone |
| Observation.CutIsPartial | patches/event-bridge/opc_bridge/poller.py:207-260 | wherever a tick is cut, also between an enqueue and its upsert, each row is as it was or done, and a row done had its event enqueued first |
| Observation.CrashedTicksReplay | patches/event-bridge/opc_bridge/poller.py:207-260 | however often a tick over a snapshot dies and wherever, one that completes leaves the same events, issue states and cursor as if none had died |
| Observation.RereadAddsNothing | patches/event-bridge/opc_bridge/poller.py:207-231 | reading remembered rows again changes nothing |
| Observation.SecondTickIsIdle | patches/event-bridge/opc_bridge/poller.py:207-231 | a second tick over the same board re-reads the overlap and changes nothing |
| Observation.TickIs | patches/event-bridge/opc_bridge/poller.py:207-231 | a tick is the fold of the reached rows plus a cursor at the newest stamp |
| Sightings.TicksFileExactly | patches/event-bridge/opc_bridge/poller.py:207-260 | a tick whose window fits reads the tickets updated up to ten seconds before its cursor, files exactly the board-dated key of each that is news, remembers what it read, and moves the cursor to the newest update read |
| Sightings.PassesReachFiveThousand | patches/event-bridge/opc_bridge/poller.py:207-225 | a pass reads the first five thousand tickets of its window and no others |
| Sightings.TicksWithoutCursor | patches/event-bridge/opc_bridge/poller.py:207-231 | without a cursor a tick does what one with its own clock as cursor does, and stores one only if it read something newer |
| Observation.CursorAdvances | patches/event-bridge/opc_bridge/poller.py:207-231 | the cursor never moves back and ends at the maximum of its old value and the stamps visited |
| Observation.LateRowsAreReached | patches/event-bridge/opc_bridge/poller.py:207-225 | over any run of ticks, a row version that becomes visible no later than the overlap is visited, if the window fits the page loop |
| Observation.UpdatedSinceFacts | patches/event-bridge/opc_bridge/paperclip.py:96-109 | a window holds exactly the board's dated rows updated at or after its start, each issue once and in order of update |
| Polling.PageFacts | patches/event-bridge/opc_bridge/paperclip.py:96-109 | a page continues the window where the pages before it ended, full unless the window ends in it |
| Observation.StallsExactlyWhenTheWindowIsStale | patches/event-bridge/opc_bridge/poller.py:214-230 | the cursor stays exactly when no reached row is newer than it, and then every later tick reaches the same rows and changes nothing |
| Observation.BootstrapReplays | patches/event-bridge/opc_bridge/poller.py:121-133 | neither a cut nor a finished first start announces anything; a finished one is never redone; one cut before its last write and redone, later and over whatever the board then lists, leaves what a first start at that time leaves, plus the baselines of issues no longer listed, so it is the same exactly where none has left the listing |
| Observation.CutoverIsSilent | patches/event-bridge/opc_bridge/poller.py:262-275 | after the first start a terminal row it did not list is news exactly if it is newer than the watermark, the second of its two clock readings |
| Sightings.FirstStartsLeave | patches/event-bridge/opc_bridge/poller.py:121-133 | a first start files nothing, remembers what it lists, and sets cursor and watermark by its two clock readings |
| Sightings.FirstStartsListTheOpen | patches/event-bridge/opc_bridge/poller.py:121-129 | where no status fills more than a page, the listing is exactly the tickets in one of the four open statuses |
| Observation.ReconcileIsComplete | patches/event-bridge/opc_bridge/poller.py:143-149 | after reconciling a window that fits the page loop, every row with a terminal status and a stamp after the watermark has its event |
| Sightings.RecoveriesFileExactly | patches/event-bridge/opc_bridge/poller.py:458-483 | a recovery whose window fits files exactly the board-dated key of each ticket updated since its start that ended after the watermark |
| Observation.EachMissesExactly | patches/event-bridge/opc_bridge/poller.py:458-477 | of one row, a tick misses what recovery finds exactly if it is fresh but no news, as a re-completion between two looks is, and recovery misses what a tick finds exactly if it is news but stale |
| Observation.RecompletionNeedsRecovery | patches/event-bridge/opc_bridge/poller.py:458-477 | for instance, a ticket completed again between two looks is invisible to ticks and enqueued by recovery |
| Observation.ReconcileFirstLosesExactlyStaleNews | patches/event-bridge/opc_bridge/poller.py:471-477 | reconcile and tick give the same events in either order if and only if the row is no news, or fresh, or known already |
| Observation.AnEndDuringTheFirstStartIsLost | patches/event-bridge/opc_bridge/poller.py:121-133 | an input: a ticket of the baseline that ends before the watermark is taken is announced by tick then reconcile and never by reconcile then tick |
| Observation.InterleavingsEnqueueOnce | patches/event-bridge/opc_bridge/poller.py:135-149 | any interleaving of ticks, reconciliations and back-fills enqueues each key once, the returned counts add up to the keys gained, and every key is of a terminal row served |
| Polling.Poller.IssueEvent | patches/event-bridge/opc_bridge/poller.py:397-424 | the event's id is built from issue, status and stamp, its type and date are those of its id, its channel is the ticket's origin |
| Polling.Poller.LateTerminal | patches/event-bridge/opc_bridge/poller.py:262-275 | the loop-free rule for first sightings equals the specification |
| Polling.Poller.FileAndRemember | patches/event-bridge/opc_bridge/poller.py:255-260 | enqueue before upsert, in that order, the count is one exactly if the event was new, and every event added says what its id says, has its ticket's origin channel, and is due at once |
| Polling.Poller.ObserveIssue | patches/event-bridge/opc_bridge/poller.py:233-260 | writes exactly the observation script of the row, in order, with its effect and count, every event added filed as FileAndRemember files it |
| Polling.Poller.RecoverIssue | patches/event-bridge/opc_bridge/poller.py:465-477 | writes exactly the recovery script of the row, in order, with its effect and count, every event added filed as FileAndRemember files it |
| Polling.Poller.ObserveRows | patches/event-bridge/opc_bridge/poller.py:219-223 | a page's rows are observed in order, their events filed with their channels, and the newest stamp kept |
| Polling.Poller.RecoverRows | patches/event-bridge/opc_bridge/poller.py:465-477 | a page's rows are recovered in order, their events filed with their channels |
| Polling.Poller.PollTransitions | patches/event-bridge/opc_bridge/poller.py:207-231 | the page loop visits each of the first 5000 rows of the window once, in order, without a gap, files their events with their channels, then writes the cursor only if it moved |
| Polling.Poller.RecoverFrom | patches/event-bridge/opc_bridge/poller.py:458-483 | the recovery page loop writes exactly its script over the same rows and files their events with their channels |
| Polling.Poller.Reconcile | patches/event-bridge/opc_bridge/poller.py:143-149 | recovery from the look-back with the stored watermark |
| Polling.Poller.Backfill | patches/event-bridge/opc_bridge/poller.py:188-190 | recovery from the given date without a watermark |
| Polling.PassesFileAsTheBridge | patches/event-bridge/opc_bridge/poller.py:255-260 | an outbox that gained the keys of a pass, cut anywhere, each filed with its ticket's channel and date, is exactly the one the bridge's history of that pass reaches |
| Polling.Poller.Bootstrap | patches/event-bridge/opc_bridge/poller.py:121-133 | nothing if there is a cursor; else one page of each open status is remembered, and cursor and watermark, each from its own clock reading, are written last |
| Policy.StagesKeepTheBestClass | patches/event-bridge/opc_bridge/policy.py:80-92 | the three successive filters keep exactly the candidates that nothing beats by priority, scope rank and date |
| Policy.Pick | patches/event-bridge/opc_bridge/policy.py:80-97 | the result is the first of the best class with the meet of that class's values |
| Policy.DominatedChangesNothing | patches/event-bridge/opc_bridge/policy.py:80-97 | adding or removing a candidate that another one beats never changes the result |
| Policy.SoleBestWins | patches/event-bridge/opc_bridge/policy.py:80-97 | a candidate that beats all others decides alone |
| Policy.CandidatesAreExactly | patches/event-bridge/opc_bridge/policy.py:113-164 | what a key is chosen from is exactly the built-in candidate, the unrevoked, unexpired stored rows of the key in the asker's scope, and what the unrevoked, unexpired mandates of the asker's project or track say of it, field by field |
| Policy.TheBestInForceDecides | patches/event-bridge/opc_bridge/policy.py:80-164 | whatever of these outranks all others, by priority, then project over track over company, then date, is what the key resolves to |
| Policy.NothingOutranksTheWinner | patches/event-bridge/opc_bridge/policy.py:80-164 | a key resolves to something in force that nothing in force outranks, and to nothing exactly if nothing is in force |
| Policy.OutOfForceIsIgnored | patches/event-bridge/opc_bridge/store.py:525-578 | rows and mandates that are revoked, run out or of another scope can be removed without changing what any key resolves to |
| Policy.NothingStoredMeansDefaults | patches/event-bridge/opc_bridge/policy.py:20-44 | with nothing stored and no mandate each key has its default, for everyone, and every hard action is refused |
| Policy.MeetOfBools | patches/event-bridge/opc_bridge/policy.py:47-50 | a tie of flags grants only what all grant |
| Policy.MeetOfNums | patches/event-bridge/opc_bridge/policy.py:51-52 | a tie of numbers is worth the least of them |
| Policy.MeetOfItems | patches/event-bridge/opc_bridge/policy.py:53-54 | a tie of lists keeps exactly what every list has |
| Policy.MeetOfTexts | patches/event-bridge/opc_bridge/policy.py:55-57 | a tie of texts is blueprint if any is, else the first one |
| Policy.MeetOfFlagsAndNums | patches/event-bridge/opc_bridge/policy.py:49-52 | in a tie of flags and numbers a flag counts one or nothing and the least value wins |
| Policy.FirstOfTheLeastStays | patches/event-bridge/opc_bridge/policy.py:49-52 | and of several that are worth the least the first stays, a flag or a number as it stands |
| Policy.MeetOfUnlikes | patches/event-bridge/opc_bridge/policy.py:53-58 | of two values that cannot be compared a blueprint wins, else the first |
| Policy.OrderNeverMatters | patches/event-bridge/opc_bridge/policy.py:47-97 | for flags, numbers and styles any permutation of the candidates gives the same value |
| Policy.TextTiesDependOnOrder | patches/event-bridge/opc_bridge/policy.py:55-57 | a tie of other texts has one value in every order if and only if it holds a blueprint or all its values are equal |
| Policy.Collect | patches/event-bridge/opc_bridge/policy.py:113-164 | the dictionary filled in the loops holds, key by key, exactly the built-in, stored and mandated candidates that apply, in order |
| Policy.ResolveAll | patches/event-bridge/opc_bridge/policy.py:113-177 | every key resolves to the winner among its own candidates and keys without candidates are absent |
| Policy.HardRulesHold | patches/event-bridge/opc_bridge/policy.py:113-177 | no stored row and no mandate can enable a hard action |
| Policy.Check | patches/event-bridge/opc_bridge/policy.py:180-207 | an action is allowed if and only if it is no hard rule, not restricted, listed where there are lists, and its track is not locked; the reason is the first of these that fails |
| Policy.MandatesInForceDecide | patches/event-bridge/opc_bridge/policy.py:188-202 | restrictions, lists and grants are those of the unrevoked, unexpired mandates of the asker's project or track, and of no others |
| Policy.OverridesAreExact | patches/event-bridge/opc_bridge/control.py:137-165 | which overrides are refused and why, and that an accepted one is stored as asked, at the operator's rank, unrevoked |
| Policy.OverridesTakeEffect | patches/event-bridge/opc_bridge/control.py:137-165 | an override decides its key for its scope until it runs out, unless an operator's row of a narrower scope, or of the same scope and not older, or a row of better rank is in force |
| Policy.OverridesKeepHardRules | patches/event-bridge/opc_bridge/control.py:137-165 | no override changes the value of a hard action or the premise that keeps it |
| Control.SetOverride | patches/event-bridge/opc_bridge/control.py:137-165 | one operator row, or the error and nothing written |
| Allocation.FreshStartIsReady | patches/event-bridge/opc_bridge/control.py:251-385 | a bridge with nobody paused, no holds, no open row and no policy meets the premise of the next two |
| Allocation.CompletedCallAgrees | patches/event-bridge/opc_bridge/control.py:276-385 | after a completed call the resolver, track_locked, the agents' status, the ledger and the track states all tell its split, and the next call finds the premise again |
| Records.CallsAreRecorded | patches/event-bridge/opc_bridge/control.py:276-382 | what a completed call writes down, field by field: its four policy rows, a state for each track, the ledger row of each agent by share and status, and nobody else's |
| Records.CallsEndExactly | patches/event-bridge/opc_bridge/control.py:251-382 | when a call is rejected, declined, refused for a selector, stopped for want of a budget, or applied, and what it has written by then |
| Records.LockLeaves | patches/event-bridge/opc_bridge/control.py:317-340 | locking one agent, whoever paused it: recorded and paused, or its row reopened, or left alone |
| Records.UnlockLeaves | patches/event-bridge/opc_bridge/control.py:343-361 | unlocking one agent: left alone, its row closed, or idle with its row closed, and exactly when |
| Records.RelockingBringsBack | patches/event-bridge/opc_bridge/control.py:318-361 | a stranded agent without holds of its own comes back when its track is locked again and unlocked |
| Records.VerdictsAreExactly | patches/event-bridge/opc_bridge/control.py:399-403 | for which shares, read for the row's track without a project, the pass releases a row and for which it raises |
| Records.PassesStopExactly | patches/event-bridge/opc_bridge/control.py:395-409 | the pass raises at an open row exactly if its share cannot be compared or the board does not know its agent |
| Allocation.RecordsAgreeAfterAnyCalls | patches/event-bridge/opc_bridge/control.py:251-385 | after any sequence of completed calls at increasing times, operator and adaptive ones mixed, the five records agree with the last applied split, which sums to 100 |
| Allocation.NewRowsDecide | patches/event-bridge/opc_bridge/control.py:276-309 | the four rows of a call decide the two shares and each track's lock, for every asker at any time |
| Allocation.EarlySplitsStayVisible | patches/event-bridge/opc_bridge/policy.py:126-131 | a split stored under the literal company name still decides, for every asker, once the company is known |
| Allocation.SameMomentSharesSumExactlyWhenEqual | patches/event-bridge/opc_bridge/policy.py:91-97 | two operator calls in the same moment resolve to the smaller share of each track, so the pair sums to 100 if and only if they agree |
| Allocation.SameMomentLockAgreesExactly | patches/event-bridge/opc_bridge/policy.py:49-52 | and of such a pair: a locked track has share 0, but a track with share 0 reads unlocked unless the calls agree on whether to lock it, and only then |
| Allocation.CallIsWriteAhead | patches/event-bridge/opc_bridge/control.py:316-361 | wherever a call dies, every agent the bridge had paused by then has an open ledger row |
| Allocation.WriteAheadOverRuns | patches/event-bridge/opc_bridge/control.py:251-417 | the same over whole runs of calls and restart passes cut anywhere and outside changes |
| Allocation.ReconcileIs | patches/event-bridge/opc_bridge/control.py:395-414 | a pass that does not raise does for every ledger row what the row asks and touches nothing else |
| Allocation.ReconcileIsWriteAheadExactly | patches/event-bridge/opc_bridge/control.py:403-408 | the pass keeps the write-ahead rule if and only if no agent the bridge holds is on a track with a positive share |
| Allocation.ReconcileReasserts | patches/event-bridge/opc_bridge/control.py:388-417 | rows of locked tracks stay open, every row still open has its agent paused, and exactly the rows of tracks with a share are closed |
| Allocation.ReconcileIsIdempotent | patches/event-bridge/opc_bridge/control.py:388-417 | a second pass writes nothing |
| Allocation.ReconcileNeverResumes | patches/event-bridge/opc_bridge/control.py:388-417 | the pass never sets anyone idle and never writes a ledger entry |
| Stranding.PassStrandsExactly | patches/event-bridge/opc_bridge/control.py:395-414 | a restart pass, also one that raises half-way, leaves an agent paused with a closed row if and only if it was so before, or the pass gets to an open row of a paused agent whose track has a share again |
| Stranding.CrashedUnlockStrandsExactly | patches/event-bridge/opc_bridge/control.py:276-361 | for every cut k of an unlocking call, followed by a restart pass: an agent held by the lock is stranded, paused with a closed row, if and only if the track's share row is among the k writes, the agent's resume is not, and the pass gets to its row |
| Stranding.CutsAmongTheRowsStrand | patches/event-bridge/opc_bridge/control.py:276-309 | after two to four writes, that is with both shares stored and nobody resumed, every held agent the pass gets to is stranded |
| Stranding.StrandedForGood | patches/event-bridge/opc_bridge/control.py:343-347 | over any run of calls and passes cut anywhere and outside changes that leave it paused, a stranded agent stays stranded as long as no call locks a track of it |
| Stranding.CrashedUnlockStrandsForGood | patches/event-bridge/opc_bridge/control.py:343-408 | such a crash, the restart and any such run after it leave the agent paused with a closed row |
| Allocation.HumanPausesAreRespected | patches/event-bridge/opc_bridge/control.py:318-381 | over any run of calls and passes, cut anywhere, an agent that others keep paused and that never had a ledger row stays paused and never gets one |
| Allocation.SparedStays | patches/event-bridge/opc_bridge/control.py:318-361 | the same for one call, also for closed rows of tracks the call does not lock |
| Allocation.ResumeGoesAheadExactly | patches/event-bridge/opc_bridge/control.py:217-232 | a resume goes ahead if and only if no hold is left, or none was recorded and only the bridge's own is |
| Allocation.UnchangedHoldsAreRefusedIfAny | patches/event-bridge/opc_bridge/control.py:333-357 | for an agent whose other holds are what they were, the resume goes ahead if and only if it had none or has none |
| Allocation.OwnHoldsRefuseTheResume | patches/event-bridge/opc_bridge/control.py:217-232 | an input: one hold of its own, unchanged, keeps an agent paused |
| Allocation.SlotPlanFits | patches/event-bridge/opc_bridge/control.py:203-210 | core gets nothing for no share, one slot up to half a slot, and otherwise the nearest number of slots, the even one of two; a lab agent gets its even part of the rest rounded down, one at least if any is left; core never gets more than the budget; both tracks together exceed it if and only if fewer slots are left than lab agents; lab gets none if and only if none is left |
| Allocation.OneNumberIsDue | patches/event-bridge/opc_bridge/control.py:207-208 | no second number of slots is due to core for the same share and budget |
| Allocation.OnePartIsDue | patches/event-bridge/opc_bridge/control.py:209 | no second number of slots is due to a lab agent of the same rest |
| Allocation.PositiveSharesNeverPause | patches/event-bridge/opc_bridge/control.py:316-342 | a call with two positive shares pauses nobody and opens no ledger row |
| Allocation.CallKeepsSettings | patches/event-bridge/opc_bridge/control.py:362-381 | wherever a call dies, every runtimeConfig, heartbeat and metadata key that is not the bridge's own is as it was |
| Allocation.TrackGetsItsSlots | patches/event-bridge/opc_bridge/control.py:362-381 | after the work on a track with a share every agent of it carries the slots of the plan, in both settings objects |
| Resuming.CompletedCallServes | patches/event-bridge/opc_bridge/control.py:316-382 | after a completed call, read back from its final world, every agent of a track with no share is paused with its status on record, and every other agent of both tracks is idle if it was paused, has its status otherwise, and carries the plan's slots in both settings objects |
| Resuming.CompletedCallDealsSlots | patches/event-bridge/opc_bridge/control.py:203-210 | after a completed call every agent of a track with a share carries, in both settings objects, the number of slots due to it by shares and budget alone |
| Resuming.ResumeRestoresExactlyIdle | patches/event-bridge/opc_bridge/control.py:321-359 | a lock and the unlock after it give an agent that was awake its status back if and only if that was idle, although the ledger had it on record |
| Resuming.ActiveAgentsComeBackIdle | patches/event-bridge/opc_bridge/control.py:321-359 | an input: an active agent comes back idle |
| Resuming.LockThenUnlockRestoresExactlyIdle | patches/event-bridge/opc_bridge/control.py:251-385 | the same over whole calls: completed locking call, then completed unlocking call |
| Control.ResolveTrackAgents | patches/event-bridge/opc_bridge/control.py:181-200 | each selector resolves to its one match, in order, or the first error is returned |
| Allocation.SelectorsNameOneEach | patches/event-bridge/opc_bridge/control.py:181-200 | a role selector resolves to the one agent of the roster with that role, a name selector to the one with that name; else the first selector that names nobody, several, or says nothing decides the error |
| Control.LockOne | patches/event-bridge/opc_bridge/control.py:318-340 | an agent that is not paused gets its ledger row before it is paused; one already paused gets its row reopened only if there is one |
| Control.UnlockOne | patches/event-bridge/opc_bridge/control.py:343-361 | closed or missing rows are left, an awake agent's row is closed, a paused agent is set idle and then released unless its holds forbid it |
| Control.LockTrack | patches/event-bridge/opc_bridge/control.py:317-341 | the agents of a track are locked in order, each by its own script |
| Control.UnlockTrack | patches/event-bridge/opc_bridge/control.py:343-361 | the agents of a track are unlocked in order, each by its own script |
| Control.SetSlotsOf | patches/event-bridge/opc_bridge/control.py:364-381 | every agent of the track is sent its slots merged into the settings it was listed with |
| Control.TrackStep | patches/event-bridge/opc_bridge/control.py:316-382 | one track of a call writes exactly its plan, the track state last, and stops at a bad budget after the resumes |
| Control.InsertPolicies | patches/event-bridge/opc_bridge/control.py:276-309 | the four policy rows in order |
| Control.ApplyAllocation | patches/event-bridge/opc_bridge/control.py:251-385 | a call writes exactly its plan, step by step, on store and board, and ends with the plan's outcome: rejected, declined, cut by its own error, or applied |
| Control.ReadTrackShare | patches/event-bridge/opc_bridge/control.py:399-403 | the resolver's share of a track as the pass reads it |
| Control.ReconcileOne | patches/event-bridge/opc_bridge/control.py:395-414 | one ledger row of the pass, and whether it raises |
| Control.ReconcileLock | patches/event-bridge/opc_bridge/control.py:388-417 | the pass writes exactly its plan in order and raises if and only if a row makes it raise |
| WorkBoard.Paperclip.PausePatch | patches/event-bridge/opc_bridge/control.py:338-339 | the agent is paused with the board's own manual hold, others stay |
| WorkBoard.Paperclip.IdlePatch | patches/event-bridge/opc_bridge/control.py:358-359 | the agent is idle whatever it was before the pause, and the manual hold is gone; when that is the status it had, Resuming.ResumeRestoresExactlyIdle says |
| WorkBoard.Paperclip.SettingsPatch | patches/event-bridge/opc_bridge/control.py:375-381 | both settings objects of the agent are replaced |
| Adaptive.Measure | patches/event-bridge/opc_bridge/adaptive.py:58-96 | the loop adds up, per track, the milliseconds of the window in which its runs were at work, and answers insufficient, the two shares, or a division by zero |
| Adaptive.ClippingCounts | patches/event-bridge/opc_bridge/adaptive.py:79-82 | clipping a run to the window counts exactly the instants at which it was at work in it |
| Adaptive.SharesSplitTheWork | patches/event-bridge/opc_bridge/adaptive.py:87-96 | measured shares lie in 0..100, sum to 100 and stand in the proportion of the work done |
| Adaptive.SharesNeedEvidence | patches/event-bridge/opc_bridge/adaptive.py:58-96 | a measurement has no shares exactly if fewer runs than asked were at work or for less time than asked, and divides by zero exactly if neither and there was no work; counted over runs and instants |
| Adaptive.MovesWidenTheGap | patches/event-bridge/opc_bridge/adaptive.py:99-115 | a move is one step, leaves both tracks 1..99 summing to 100, needs a gap beyond the tolerance, and widens it |
| Adaptive.TickMovesExactly | patches/event-bridge/opc_bridge/adaptive.py:145-240 | a tick moves the split if and only if it is enabled, no operator row is in force, shares and agents can be read, the evidence is enough, the gap is beyond the tolerance with room for a step, and the timer has held this direction long enough; the move is one step away from the measurement, made as an adaptive call |
| Adaptive.StepIsASlot | patches/event-bridge/opc_bridge/adaptive.py:197-199 | the step is the nearest percentage to one slot of the budget, the even one of two, and one at least |
| Ticks.SharesAreReadAsIntegers | patches/event-bridge/opc_bridge/adaptive.py:172-174 | a share is read for the lab track without a project, a number without its fraction, a flag as one or nothing, anything else not at all |
| Ticks.TicksFindExactly | patches/event-bridge/opc_bridge/adaptive.py:161-200 | a tick finds an operator's row, something it cannot read, or too little evidence exactly when the rows, shares, agents and runs say so |
| Ticks.TicksStoreExactly | patches/event-bridge/opc_bridge/adaptive.py:154-232 | the timer a tick stores in each case: nothing of it after an operator's row or a move, its direction alone after too little evidence or a gap within tolerance, this moment when drift is new or turns, itself while drift holds; and none at all if it raises |
| Adaptive.MovesRunToTheEdge | patches/event-bridge/opc_bridge/adaptive.py:99-115 | a constant measurement outside the tolerance causes moves, all the same way, until one more step would lock a track: at most 98 / step of them |
| Adaptive.SteadyMeasurementSettles | patches/event-bridge/opc_bridge/adaptive.py:145-240 | a whole run of ticks that measure the same makes at most 98 / step moves, each taking the effective split one step further from the measurement |
| Adaptive.SteadyRunsSettle | patches/event-bridge/opc_bridge/adaptive.py:145-240 | and such a run, its ticks at most a gap apart, ends with the decision refusing once it has lasted longer than (98 / step + 1) times the longer of hold and nothing, plus twice the gap |
| Adaptive.HoldSafety | patches/event-bridge/opc_bridge/adaptive.py:145-232 | with a positive hold a tick moves only if an earlier completed tick at least the hold before it found drift, and every tick completed since found drift the same way, met no operator row and moved nothing; restarts, cut ticks and outside changes make no difference |
| Adaptive.StallsBeginExactly | patches/event-bridge/opc_bridge/adaptive.py:194-207 | a running timer loses its date but keeps its direction if and only if a tick is insufficient or within tolerance |
| Adaptive.StallLastsExactly | patches/event-bridge/opc_bridge/adaptive.py:194-221 | a timer without a date stays so, and nothing moves, exactly as long as no completed tick meets an operator row or drift the other way |
| Adaptive.TicksNeverLock | patches/event-bridge/opc_bridge/adaptive.py:201-226 | whatever the state, a tick asks for shares in 1..99 summing to 100 and so pauses nobody and opens no ledger row |
| AdaptiveControl.AdaptiveController.HasOperatorRow | patches/event-bridge/opc_bridge/adaptive.py:161-168 | true if and only if an active operator row has an allocation key |
| AdaptiveControl.AdaptiveController.ReadCurrent | patches/event-bridge/opc_bridge/adaptive.py:172-174 | the effective share as an integer, or nothing where the conversion raises |
| AdaptiveControl.AdaptiveController.AgentTracks | patches/event-bridge/opc_bridge/adaptive.py:176-179 | an agent of both tracks counts for lab |
| AdaptiveControl.AdaptiveController.LookAround | patches/event-bridge/opc_bridge/adaptive.py:161-202 | what the tick finds, in the order the source checks it |
| AdaptiveControl.AdaptiveController.RunTick | patches/event-bridge/opc_bridge/adaptive.py:145-240 | a tick equals the model's tick on store and board, its allocation writes come before the timer is stored, a tick that raises stores no timer, and it reports a move if and only if one was applied |
| Health.SlowRunsMayFadeFromView | patches/event-bridge/opc_bridge/health.py:91-100 | as time passes a slow run stays abnormal if and only if it is silent and its agent halted or its issue ended beyond the grace, or not yet past the stall limit, or shows any sign of a process; else it becomes unknown |
| Health.RemindersAreFresh | patches/event-bridge/opc_bridge/health.py:170-228 | after any visits under a clock that does not run back, cuts included, a reminder within an unbroken episode is raised exactly when due and always with a key never used before |
| Health.FirstAlarmIsFresh | patches/event-bridge/opc_bridge/health.py:170-196 | the first alarm of a run is never swallowed |
| Health.ChangesAreSwallowedExactly | patches/event-bridge/opc_bridge/health.py:186-196 | over any visits, cuts included, the alarm of a changed state is swallowed if and only if an earlier visit raised an alarm of that state for that run in the same interval |
| Health.AlertRateIsBounded | patches/event-bridge/opc_bridge/health.py:200-228 | per run and kind at most floor(t1/R) - floor(t0/R) + 1 alerts are enqueued between t0 and t1, whatever happens |
| Health.CutAlarmsWaitAnInterval | patches/event-bridge/opc_bridge/health.py:189-196 | a crash between row and alert loses the alert: the next one comes if and only if an interval has passed |
| Health.RecoveriesWithoutAlarm | patches/event-bridge/opc_bridge/health.py:177-181 | a recovery is announced for every row that is not healthy, cuts or not; the run was never alarmed if and only if no visit raised an alarm for it, which without cuts is if and only if the row says unknown |
| Looks.LooksLeave | patches/event-bridge/opc_bridge/health.py:170-198 | the row a completed look leaves, field by field, and that it alerts exactly on a change to trouble, a reminder due, or a recovery, under the kind of the state and the interval of the look |
| HealthWatch.EndedRunsAreCleared | patches/event-bridge/opc_bridge/health.py:144-168 | the clearing pass turns exactly the listed runs that are not live and are said to have ended healthy, keeping the date their trouble began, and alerts nobody |
| HealthWatch.HealthMonitor.Emit | patches/event-bridge/opc_bridge/health.py:200-228 | one alert under its bucketed key, new exactly if the key was, dated at the look, for its channel, due at once; without an interval nothing is written |
| HealthWatch.HealthMonitor.Notify | patches/event-bridge/opc_bridge/health.py:189-196 | row first, alert second, the alert dated at the look and for its channel |
| HealthWatch.HealthMonitor.Open | patches/event-bridge/opc_bridge/health.py:171-175 | a run seen for the first time gets a row and has no previous state |
| HealthWatch.HealthMonitor.React | patches/event-bridge/opc_bridge/health.py:177-198 | what follows for each state, previous state and last notification; an alert is dated at the look and for its channel |
| HealthWatch.HealthMonitor.ApplyState | patches/event-bridge/opc_bridge/health.py:170-198 | one look writes exactly its script, in order, reports whether an alert was new, and dates it at the look and for its channel |
| HealthWatch.HealthMonitor.ReapEnded | patches/event-bridge/opc_bridge/health.py:144-168 | exactly the abnormal runs that are neither live, unknown to the board nor still running are cleared, silently |
| Recall.EscapeIsPerCharacter | patches/hermes/memory_tencentdb/__init__.py:345-350 | the three global replacements, in their order, equal one pass over the characters |
| Recall.UnescapeUndoesEscape | patches/hermes/memory_tencentdb/__init__.py:345-350 | escaping has a left inverse for every text |
| Recall.EscapedHasNoTags | patches/hermes/memory_tencentdb/__init__.py:345-350 | no escaped text holds an angle bracket |
| Recall.AmpersandLastOverEscapes | patches/hermes/memory_tencentdb/__init__.py:339-341 | with the ampersand last the result is right if and only if the text has no angle bracket, and four characters too long for each |
| Recall.FormatLine | patches/hermes/memory_tencentdb/__init__.py:366-376 | one rendered line, optional parts only where they have text |
| Rendering.LinesShowTheirMemory | patches/hermes/memory_tencentdb/__init__.py:366-376 | a line is the kind, the first ten characters of the date, the mark, the scene and the content, in this order, each escaped, the optional ones only if not empty |
| Recall.FormatL1Block | patches/hermes/memory_tencentdb/__init__.py:353-383 | the loop renders exactly the specified block |
| Rendering.MemoriesAreListed | patches/hermes/memory_tencentdb/__init__.py:353-383 | the block is its tag with the scope, the notices, every memory's line below the other, and its closing tag |
| Rendering.CoreShowsItsContent | patches/hermes/memory_tencentdb/__init__.py:386-398 | the core block shows the date, if any, cut to ten characters, and the content, both escaped |
| Rendering.ScenesAreShown | patches/hermes/memory_tencentdb/__init__.py:401-416 | the scene block lists every path without its extension, escaped |
| Rendering.FirstOccurrenceGoes | patches/hermes/memory_tencentdb/__init__.py:407-410 | what is taken out of a path: the first occurrence of the extension, and then whatever is taken out of the rest |
| Rendering.NothingElseGoes | patches/hermes/memory_tencentdb/__init__.py:407-410 | a path without the extension is shown as it is |
| Recall.RecallBlocksAreFencedExactly | patches/hermes/memory_tencentdb/__init__.py:353-398 | whatever the memories hold, a block has exactly its own opening and closing tag if and only if the scope holds no angle bracket |
| Recall.SceneFenced | patches/hermes/memory_tencentdb/__init__.py:401-416 | the scene block always has exactly its own two tags |
| Snapshot.PruningIsInvisible | patches/hermes/memory_tencentdb/__init__.py:803-828 | under a clock that does not run back, for any deliveries and questions and any time to live, the pruned ledger answers as one that never forgets |
| Snapshot.PrunedLedgerIsRecent | patches/hermes/memory_tencentdb/__init__.py:818-827 | after a delivery only sessions served within the time to live are remembered |
| Snapshot.SnapshotLedger.Due | patches/hermes/memory_tencentdb/__init__.py:803-814 | due if and only if nothing was ever sent to the session, or not for at least the time to live |
| Snapshot.SnapshotLedger.MarkSent | patches/hermes/memory_tencentdb/__init__.py:816-828 | old entries go, this session is remembered, and the ledger still stands for the one that never forgets |
| Events.KindsTellEndingsApart | patches/event-bridge/opc_bridge/events.py:35-39 | helper: the kind of a terminal event tells its status and the other way round |
| Adaptive.CutMovesLeaveTheTimerRipe | patches/event-bridge/opc_bridge/adaptive.py:223-232 | helper: a tick cut between its move and its state write leaves the timer as it was, so the next tick moves if and only if it finds drift the same way and the timer has its date |
| Health.LostNeedsEvidence | patches/event-bridge/opc_bridge/health.py:47-82 | helper: a run is lost if and only if it is finished but still marked running, or silent after its issue ended or its agent was halted |
| Health.SilenceDecides | patches/event-bridge/opc_bridge/health.py:84-100 | helper: short of a contradiction the age of the last sign of life decides between healthy, slow and stalled, a stall needs an abnormal silence, and unknown means nothing to see |

## Left out

- Outbox.OutboxConserved: speaks of states between turns; a row finished and then put back by an exception within the same turn is one step, and Outbox.FinishedRowsArePutBackExactly says when that happens.
- Outbox.DeliveryTerminates: assumes sender errors only, because with other exceptions it is false, as Outbox.ExceptionsRetryForever shows.
- Observation.ReconcileIsComplete: speaks of windows of at most 5000 rows, which is all the page loop reads.
- Sightings.TicksFileExactly: speaks of windows of at most 5000 rows; the visits of a larger one are those of Observation.TickIs.
- Looks.LooksLeave: assumes a positive reminder interval; with none the alert raises after the row is written.
- Observation.CrashedTicksReplay: assumes that the board does not change between the pages of one tick and that each row is served once, in order of its update date.
- Allocation.RecordsAgreeAfterAnyCalls: assumes disjoint tracks, no outside change and calls at increasing times; without the last it is false, as Allocation.SameMomentSharesSumExactlyWhenEqual shows.
- Stranding.CrashedUnlockStrandsExactly: assumes that the agent is held on the track by an open row and in no track the call locks, and that the rows stored before the call are dated before it.
- Allocation.WriteAheadOverRuns: leaves out restart passes that meet a held agent on a track with a positive share, for which Allocation.ReconcileIsWriteAheadExactly shows it false.
- Adaptive.SteadyMeasurementSettles: assumes completed ticks, one after the other, with nothing else changing the split.
- Adaptive.Measure: adds exact milliseconds and divides exactly; floating-point rounding is not modelled.
- Allocation.SlotPlanFits: rounds halves to the even slot count exactly; the float product behind it is not modelled.
- AdaptiveControl.AdaptiveController.ReadCurrent: a share stored as a text raises here, also a text that spells a number.
- Polling.Poller.IssueEvent: takes the origin channel from the board; the cache of resolved origins, the marker scraping, the anchor, the artifact, the track and the title are not modelled, as no decision modelled here depends on them.
- Storage.Store.UpsertIssueState: keeps status, stamp and update date; identifier, project and track, which no later decision of the poller reads, are left out.
- Storage.Store.InsertPolicy: creator, reason and source event are left out, and the row's id is the actor's name instead of a fresh uuid; resolving looks at none of them.
- Storage.Store.LedgerPut: the lifecycle state of the agent, which only a later ledger row copies, is left out.
- Storage.Store.SetTrackState: desired and actual state, which every call writes alike, are one field; reason and source event are left out.
- Storage.Store.SetAdaptiveState: keeps the two timer keys, the only ones a later tick reads.
- Storage.Store.SetRunHealth: the track and the date of the last progress, on which nothing here depends, are left out.
- Polling.Poller.Bootstrap: takes the first hundred tickets of a status in the order the board holds them.
- HealthWatch.HealthMonitor.ReapEnded: the listing of live runs and the answers about single runs are inputs.
- Control.ReconcileLock: the order of the ledger rows is an input.
- Recall.FormatL1Block: a field is missing, null or a text; other stored values are not modelled.
- SQLite itself, its locks and two threads in the middle of each other's operations: a store method is one step, and allocation calls do not overlap.
- Rows with equal dates come in the order they are given; only a tie of texts can tell.
- A PATCH on an agent takes effect at once; the polling that waits for it is not modelled.
- Empty strings for channels count as absent, as they do in the source.
- Hold names that a printed list would read back as JSON, holds that are not strings, and a heartbeat setting that is not an object.
- Digest collisions: ids that differ in a part are taken to differ.
- Operator signatures and the commands that lead to a call; revoking policies and mandates, which no statement here rests on.
- Labels, track conflicts, the sweep over failed runs and the forced stop of a run: easy, or dependent on an order the repository does not show.
- Message texts, tags, audit rows and logs.
- The HTTP surface, the command line and the wiring of the process.
- The rest of the memory plugin, and its byte-identical copy for the other host.
