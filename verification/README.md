# struna, modelled and proved in Dafny

struna runs BPMN processes on one shared database. Any number of workers claim
an instance's row by lease, run its engine, save progress mid-run, and let go;
clients start, signal, cancel and retry the same rows meanwhile. This project
models that protocol, the event feed that tails its log, and the log replay and
data mapping around it, and proves what they are for.

`dafny verify dfyconfig.toml` checks everything.

## What is where

| file | what it holds |
|---|---|
| `Engine.dfy` | the BPMN engine as an abstract state, a step function, and the history behind a state |
| `Instance.dfy`, `Store.dfy` | one row with inbox and log: each transaction as a function, and the statement-by-statement class proved equal to it |
| `Protocol.dfy` | runs in workers' memories, all steps, and traces of every interleaving, with crashes and lapsed leases between any two |
| `Invariant.dfy`, `Theorems.dfy` | what every step keeps, and what every trace satisfies |
| `Lifecycle.dfy` | a run from claim to release on traces: what decides it, how it lets go, when the row wakes, what it takes in |
| `Workers.dfy` | the same protocol with leases held by worker id, and exactly when it is the one above |
| `Hazards.dfy` | traces and states in which a natural stronger reading fails, with the exact condition under which it holds |
| `InstanceRun.dfy` | the run's own loops, updated in place |
| `Fairness.dfy` | a table of instances and oldest-first claims |
| `Deploys.dfy` | the race for a definition's next version |
| `EventFeed.dfy` | the subscription loop: cursor, look-back window, pruned memory |
| `WaitingLog.dfy`, `ElementRuns.dfy`, `VariableChanges.dfy` | replaying the log |
| `Paths.dfy`, `Propagation.dfy` | nested writes, and how a result reaches the variables |
| `Registry.dfy`, `Templates.dfy`, `ServiceCall.dfy` | field lookup, template flattening, the deploy check and the request builder |

## How the protocol is modelled

A step is one database transaction, or one step of one run's memory. Times are
read before a step commits, so a step may carry any time up to the clock. Fields
named in comments as history variables (`hist`, `saved`, `accepted`, `late`, …)
record what happened and decide nothing.

The model assumes, and some properties need:

- the engine is deterministic in its inputs, and once it has a call's result it
  does not ask for that call again (`Engine.Remembers`);
- the checks and the write of `signal`, and of `retry`, are one step. The code
  checks at `src/engine/process-engine.ts:533-542` and `588-594` and writes later
  in a transaction of its own. `Hazards.UncheckedSignalAtomicIff` and
  `Hazards.UncheckedRetryAtomicIff` say exactly when that comes to the same;
- a worker only claims an instance it has no run of in memory. The fence at
  `src/engine/worker.ts:568` compares worker ids, not claims:
  `Workers.FenceHoldsIff` proves that it tells runs apart if and only if this
  holds, `Workers.AwayIsPlain` that the system then is this protocol;
- a checkpoint write fails only when the lease is lost or the process dies (see
  `Hazards.LostSavesHarmlessIff` and `Hazards.LostLastSavesHarmlessIff`);
- the parking snapshot and the closing of checkpoints are one step;
- signal ids become visible in id order (event ids need not), and there is one
  clock that does not run backwards;
- JSON values are immutable trees and objects are plain maps. Comparing values
  stands for comparing their texts, which is what `jsonb`'s fixed key order makes
  of it.

## Findings

- A run that lost its row before reading it, and reads it only once another run
  has completed it, finds no state and starts the process from scratch, though
  nothing it does is saved. `Theorems.RestartedIffReadCompleted` says which runs
  do, `Theorems.RestartedRunIssues` which calls they make again: those of a fresh
  engine, saved answers or not, and `Theorems.RestartedRunBegins` that this goes
  for the whole run. `Hazards.CompletedRowRestarts` is such a trace.
- A call in flight at a crash is made again even if progress was saved after it
  was first issued (`Hazards.InFlightCallRepeats`). At first a new run makes
  exactly the calls the engine resumed from the last save asks for
  (`Theorems.ClaimedRunIssues`), and at any later point those it asks for after
  all the run has been through since, bar those in flight (`Theorems.RunIssues`):
  so never one whose *answer* is saved (`Theorems.SavedCallsNeverRepeat`).
- A failed checkpoint does not fail a run that has already decided to park: the
  park is released all the same, against what `src/engine/worker.ts:661-662`
  says, and signals the lost checkpoint had consumed are then both saved and
  queued. `Hazards.LostLastSavesHarmlessIff` says exactly when that does harm,
  `Hazards.LostLastSaveRepeats` is a trace to it.
- One `Worker` serves concurrent ticks (`src/server/server.ts:43`), so it can
  claim an instance again while its own earlier run of it still goes on. Then the
  fence lets the earlier run through, and saved progress can be lost
  (`Workers.SharedWorkerForks`, `Workers.FenceHoldsIff`).
- A signal or a retry that loses a race with its own check is written all the
  same. If a cancel request comes in between, the signal is accepted and later
  dropped; if the instance finishes or fails in between, its row becomes
  claimable, and a completed one with no cancel pending starts over as the holder
  (`Hazards.UncheckedSignalAtomicIff`, `Hazards.UncheckedSignalCoherentIff`,
  `Hazards.SignalRevivesCompleted`). A retry sets a status made from the state it
  read: if by then another retry has saved and failed again, the row ends up
  pending with a state (`Hazards.UncheckedRetryCoherentIff`).
- A run's own events are written without the lease (`src/engine/worker.ts:880-898`):
  one that lost its row goes on logging, and a write that fails is let go.
- So the log says what the engine waits on, all the time, exactly when in every
  run: no announcement is out of turn; no entry that was lost stood for a change;
  no entry of another run makes one; and the part of the run that was not saved
  made none (`WaitingLog.LogAgreesWithEngine`). Out of turn are just two things: a
  restored element's wait is over before it is announced again and it waits anew
  before the run first comes to rest, or an element that ended waits again without
  a start and then leaves. For runs that park undisturbed this is all that can go
  wrong (`WaitingLog.ParkedRunsAgreeIff`,
  `WaitingLog.UnannouncedLeaveLosesTheWait`); a run taken over before its progress
  was saved is enough by itself (`WaitingLog.TakenOverRunIsMisread`).
- Looking a field up by proto name or JSON name lets an earlier field shadow a
  later one, so a target the templates offer may fail the deploy check
  (`Templates.ShadowedTargetIsRejected`). It does exactly when the first shadowed
  segment is not the last and its shadow does not lead on
  (`Templates.TargetRejectedIff`).
- The feed has gaps, and exactly these: rows that became visible behind the
  cursor and aged out of the window unseen (`EventFeed.OnlySlippedRowsAreMissing`).

## Model

| member | source | states |
|---|---|---|
| `Invariant.InvStep` | src/engine/worker.ts:427-612 | every step of any worker, run or client keeps the whole invariant: row coherence, wake-ups, saved state against history, the snapshot queue, the inbox, and the cancel accounting |
| `Invariant.InvAlong` | src/engine/worker.ts:427-612 | so it holds in every state of every interleaving |
| `Theorems.HistoryNeverForks` | src/engine/worker.ts:506-526 | the saved state and variables are always the replay of one history from the start variables, and that history only ever gets longer |
| `Theorems.LostForGood` | src/engine/worker.ts:564-571 | a run that does not hold the row never holds it again |
| `Theorems.StaleRunCommitsNothing` | src/engine/worker.ts:564-571 | a run whose row was reclaimed or released changes nothing any more of the row, its inbox and the log's cancel and retry entries; its own run events are another matter (`WaitingLog`) |
| `Theorems.ReleaseCommitsIffHeld` | src/engine/worker.ts:529-571 | a release is written if and only if the run still holds the row; it gives the row up, and a park saves all the run has been through; with what outcome a decided run is released is said by `Lifecycle.DecidedRunReleases` and `Lifecycle.ParksIffUndecided` |
| `Theorems.SignalsExactlyOnceInOrder` | src/engine/worker.ts:582-610 | no signal is ever folded into saved state twice or out of order; until the instance is finished, or let go with a cancel pending, those saved followed by those in the inbox are all that were ever accepted |
| `Theorems.SavedCallsNeverRepeat` | src/engine/worker.ts:664-684 | once a call's answer is saved, no holder issues the call, and a run claimed later does so only if it had at some step read the row lost and completed |
| `Theorems.ClaimedRunIssues` | src/engine/worker.ts:457-489 | after a claim the new run can issue exactly the calls its engine asks for when resumed from the last save, or begun if there is none |
| `Theorems.RunIssues` | src/engine/worker.ts:300-308 | at any point of a run, exactly those its engine asks for after all the run has been through and that are not in flight; for the holder that includes all that is saved, for any run not started from scratch all that was saved at its claim |
| `Theorems.RestartedIffReadCompleted` | src/engine/worker.ts:711-736 | in any trace a run starts from scratch on saved progress if and only if at some earlier step it read the row completed, with no cancel pending, having already lost it |
| `Theorems.RestartedRunIssues` | src/engine/worker.ts:711-722 | such a run can at first issue exactly the calls of a fresh engine given the completed row's variables |
| `Theorems.RestartedRunBegins` | src/engine/worker.ts:711-722 | and however far it gets, all it has been through begins with those variables |
| `Theorems.NobodyStranded` | src/engine/worker.ts:594-610 | an active row that is pending or has queued signals, a cancel request or a holder always has a wake-up time that has come |
| `Theorems.CrashedRunIsReclaimed` | src/engine/worker.ts:427-443 | wherever a run crashes, a claim can be made as soon as its lease has lapsed |
| `Theorems.TimerWakes` | src/engine/worker.ts:556-562 | after a park with a timer, whatever happens before the next claim, a claim can be made once the timer is due |
| `Theorems.CancelIsDecisive` | src/engine/worker.ts:461-465 | after a cancel request no signal is accepted any more, every run that reads the row stops with the requested reason, and at most one other release is still written |
| `Theorems.StartersReadBefore` | src/engine/worker.ts:457-489 | a run that starts its engine after a cancel request had read the row before it |
| `Theorems.FirstReasonStands` | src/engine/process-engine.ts:570-577 | the first request's time and reason stay whatever is asked later, and the cancel that ends up in the log has that reason |
| `Theorems.CanceledExactlyOnce` | src/engine/worker.ts:573-581 | the log has exactly one cancel entry, with the row's reason, if the instance is canceled and none otherwise |
| `Theorems.RowsCohere` | src/engine/worker.ts:533-562 | pending rows have no state and running ones do; active rows have no error and no completion time, the others are unheld and unrunnable; an error means failed |
| `Theorems.FinishedForGood` | src/engine/worker.ts:589-592 | a completed or canceled instance never changes again, is unheld and unrunnable, and has an empty inbox |
| `Theorems.RetryRollsBack` | src/engine/process-engine.ts:587-616 | a failed release followed, however much later, by a retry gives back the status, state, variables and inbox of the last save, logs that release's error, and every accepted signal not saved is queued |
| `Theorems.LeaseFromRenewal` | src/engine/worker.ts:445-454 | the lease always ends exactly one lease length after the holder's last renewal |
| `Theorems.LeaseExcludesOthers` | src/engine/worker.ts:427-443 | while the holder never goes longer than the lease without renewing, nobody else claims the row before it is released |
| `Lifecycle.DecidedRunReleases` | src/engine/worker.ts:761-789 | a run first decided by the engine's end, and not aborted, completes the instance with the engine's variables of that moment when it releases the row it holds; one first decided by an error fails it with exactly that error |
| `Lifecycle.ParksIffUndecided` | src/engine/worker.ts:761-770 | a run that started its engine and still holds the row lets it go as running if and only if nothing had ended, broken or aborted it and no write of it had been lost |
| `Lifecycle.AbortedRunFails` | src/engine/worker.ts:489-494 | an exception of the run itself fails the instance with its message, whatever the engine had decided |
| `Lifecycle.ParkedRowSleeps` | src/engine/worker.ts:556-562 | a row parked with an empty inbox and no cancel pending can, until it is claimed, signalled or asked to cancel, be claimed from the time the run chose and no earlier, and without such a time not at all |
| `Lifecycle.BusyParkWakesAtOnce` | src/engine/worker.ts:594-610 | a park that leaves signals, or has a cancel pending, is due at the time of the release; with a cancel pending it leaves the whole inbox |
| `Lifecycle.RunTakesWholeInbox` | src/engine/worker.ts:467-470 | at any point the signals a run has delivered and those it has still to deliver are those it read, in order |
| `Lifecycle.InFlightIffIssued` | src/engine/worker.ts:302-308 | a call is in flight in a run exactly when the run issued it before; none is issued twice in a run and none answered that was not issued |
| `Lifecycle.StartsDue` | src/engine/process-engine.ts:515-526 | a new instance can be claimed from its start time on, and no earlier |
| `Lifecycle.SignalTakenIff` | src/engine/process-engine.ts:532-557 | in the protocol a signal is queued last and makes the row due if and only if the instance is active with no cancel pending; else nothing changes |
| `Lifecycle.CancelTakenIff` | src/engine/process-engine.ts:565-579 | a cancel request is recorded and makes the row due if and only if the instance is active and none was pending; else nothing changes |
| `Lifecycle.RetryTakenIff` | src/engine/process-engine.ts:587-616 | a retry changes something if and only if the instance has failed, and then makes it claimable at once |
| `Store.InstanceStore.Start` | src/engine/process-engine.ts:515-526 | the new row is coherent: pending, due at once, with no state |
| `Store.InstanceStore.TryClaim` | src/engine/worker.ts:427-443 | a due row whose lease is absent or lapsed is taken with a new lease, any other row is left alone; a coherent row stays coherent |
| `Store.InstanceStore.Heartbeat` | src/engine/worker.ts:446-453 | only the holder's lease is renewed, and a coherent row stays coherent |
| `Store.InstanceStore.DeleteSignals` | src/engine/worker.ts:522-524 | the inbox keeps exactly the signals whose ids are not given, in order |
| `Store.InstanceStore.Checkpoint` | src/engine/worker.ts:506-526 | statement by statement, the whole row and inbox end as the checkpoint of `Instance` says, nothing is written without the lease, and a coherent row stays coherent |
| `Store.InstanceStore.Release` | src/engine/worker.ts:529-612 | statement by statement, row, inbox and log end as the release of `Instance` says for each outcome, nothing is written without the lease, and a coherent row stays coherent, for a cancel outcome provided a cancel is pending; a park that leaves signals or a pending cancel is due now, any other when it says |
| `Store.InstanceStore.WriteOutcome` | src/engine/worker.ts:533-570 | each outcome sets its columns and drops the lock, leaving every other column, the inbox and the log; a park is to wake when it says, any other outcome never |
| `Store.InstanceStore.Signal` | src/engine/process-engine.ts:532-557 | a signal is queued last and wakes the row; a finished or canceling instance refuses it unchanged; a coherent row stays coherent |
| `Store.InstanceStore.QueueSignal` | src/engine/process-engine.ts:546-554 | the transaction alone queues the signal last and wakes the row, whatever its status |
| `Store.InstanceStore.Cancel` | src/engine/process-engine.ts:565-579 | a first request is recorded with its reason and wakes the row; a second changes nothing; a finished instance refuses; a coherent row stays coherent |
| `Store.InstanceStore.Retry` | src/engine/process-engine.ts:587-616 | only a failed row is put back to pending or running, due at once, with its failure logged, and stays coherent |
| `Store.InstanceStore.PutBack` | src/engine/process-engine.ts:596-614 | the transaction alone sets a status made from the state read before on a row that is failed now, and logs the error read before in any case |
| `Instance.WithoutPrefix` | src/engine/worker.ts:604-606 | deleting by id the oldest signals of an inbox in id order leaves exactly the others |
| `InstanceRun.InstanceRunner.DeliverOne` | src/engine/worker.ts:753-757 | the next signal goes to the engine and counts as consumed in one step of the protocol |
| `InstanceRun.InstanceRunner.DeliverSignals` | src/engine/worker.ts:738-761 | the loop delivers signals up to the first settling that is not at rest, as that many protocol steps with whatever calls, engine inputs and checkpoints happen while each settles, and ends decided as the settling says: completed by the engine's end, failed by its error |
| `InstanceRun.InstanceRunner.Settle` | src/engine/worker.ts:792-809 | what happens while the engine settles happens in order, and then decides the run |
| `InstanceRun.InstanceRunner.Decide` | src/engine/worker.ts:779-789 | the first outcome decided stands |
| `InstanceRun.InstanceRunner.TakeSnapshot` | src/engine/worker.ts:671-678 | a snapshot takes the ids consumed so far with it and queues behind earlier ones |
| `InstanceRun.InstanceRunner.NextTimer` | src/engine/worker.ts:360-372 | the wake-up is the earliest BPMN timer, if there is any |
| `InstanceRun.InstanceRunner.Finish` | src/engine/worker.ts:761-770 | a decided run returns its decision; an undecided one parks with the engine's state and variables, to wake at its earliest BPMN timer when at rest and at once when out of time |
| `InstanceRun.LoopTakesSteps` | src/engine/worker.ts:741-759 | delivering the next signal, and each thing that happens while the engine settles, is the protocol step of that name |
| `InstanceRun.SettlingDecides` | src/engine/worker.ts:779-789 | the engine's end or error during a settling is the protocol's End or Break of that run |
| `InstanceRun.FinishCloses` | src/engine/worker.ts:761-770 | what the run returns is the outcome the protocol's Close gives it |
| `InstanceRun.DeliverManyConsumes` | src/engine/worker.ts:741-759 | after n deliveries, whatever happened between them, the history has gained just the first n signals in order, and the ids in the queued snapshots followed by those consumed since are exactly theirs |
| `Fairness.WakesNoEarlier` | src/engine/worker.ts:556-562 | if parks ask for no earlier time than the claim before them, a released row wakes no earlier either, through signals, cancels and retries |
| `Fairness.NoOvertaking` | src/engine/worker.ts:433-440 | a row claimed, released and claimed again is never strictly ahead of one that stayed due and unheld throughout |
| `Hazards.LostSavesHarmlessIff` | src/engine/worker.ts:674-682 | any number of checkpoints lost while the one behind them succeeds keep signals exactly-once if and only if they had consumed none |
| `Hazards.UncheckedSignalAtomicIff` | src/engine/process-engine.ts:533-554 | what the signal's transaction writes is what one atomic step would have written if and only if the row is still active and no cancel is requested |
| `Hazards.UncheckedSignalCoherentIff` | src/engine/process-engine.ts:546-554 | the signal's transaction keeps a coherent row coherent if and only if the row is still active; on a finished row it makes it claimable again |
| `Hazards.SignalRevivesCompleted` | src/engine/worker.ts:711-722 | a completed row so revived is claimed by a run that holds it, finds no state, and can issue exactly the calls of a fresh engine given the final variables |
| `Hazards.UncheckedRetryCoherentIff` | src/engine/process-engine.ts:596-614 | the retry's transaction keeps a coherent row coherent if and only if, should it be failed, it has a state now exactly if it had one when it was read |
| `Hazards.UncheckedRetryAtomicIff` | src/engine/process-engine.ts:588-614 | it writes what one atomic step would have written if and only if the row is failed, has a state exactly if it had one, and failed with the error that was read |
| `Hazards.LostLastSavesHarmlessIff` | src/engine/worker.ts:648-655 | a park whose queued checkpoints, however many, were lost is released all the same, and keeps signals exactly-once if and only if they had consumed none |
| `Hazards.LostLastSaveRepeats` | src/engine/worker.ts:648-655 | a trace to a run in that position, and the signal both saved and queued after its release |
| `Workers.FenceHoldsIff` | src/engine/worker.ts:567-571 | only the latest claim's run ever gets past the fence, if and only if no two runs of the instance in memory ever carry one worker id, if and only if a worker only claims instances it has no run of |
| `Workers.StepIsPlain` | src/engine/worker.ts:427-571 | while the fence holds, each step with leases by worker id is the step of the protocol with leases by claim |
| `Workers.AwayIsPlain` | src/engine/worker.ts:427-571 | so traces in which workers claim only instances they have no run of are traces of the protocol, up to the name on the lock |
| `Workers.SharedWorkerForks` | src/engine/worker.ts:567-571 | a trace in which a worker's earlier run releases over what its later run has saved, and an answer is lost |
| `Hazards.InFlightCallRepeats` | src/engine/worker.ts:302-306 | a trace in which the holder repeats a call first issued before the last save |
| `Hazards.CompletedRowRestarts` | src/engine/worker.ts:711-722 | a trace in which a run that lost its row reads it completed and repeats a call whose answer was saved before it was claimed |
| `Deploys.VersionsAreConsecutive` | src/engine/process-engine.ts:167-176 | under any interleaving of deploys the versions of a name are exactly 1..n, each created by a different deploy |
| `Deploys.LossesAreOthersWins` | src/engine/process-engine.ts:177-179 | each lost attempt is charged to a different other deploy that won after this one began, and giving up means exactly five of them |
| `Deploys.DefinitionTable.Latest` | src/engine/process-engine.ts:168-172 | the highest version, or none |
| `Deploys.DefinitionTable.Deploy` | src/engine/process-engine.ts:167-180 | the loop wins the version right after all that rivals took, at the first attempt nobody raced, and gives up if and only if every attempt was raced |
| `EventFeed.Subscription.YieldRow` | src/engine/event-feed.ts:80-92 | a remembered row is skipped; any other is remembered, passed by the cursor and yielded |
| `EventFeed.Subscription.PruneRecent` | src/engine/event-feed.ts:94-96 | exactly the ids stamped before the window are forgotten |
| `EventFeed.Subscription.PollOnce` | src/engine/event-feed.ts:66-101 | one pass yields the late rows not seen before and then the first batch of fresh ones, moves the cursor to the last fresh row, and asks for another poll at once if and only if the batch had all of its 200 rows |
| `EventFeed.YieldsInOrder` | src/engine/event-feed.ts:80-92 | within one poll ids are strictly increasing, and the rows yielded are the unseen late ones and the fresh ones |
| `EventFeed.DeliveredAtMostOnce` | src/engine/event-feed.ts:61-96 | no id is ever yielded twice on a subscription, although remembered ids are pruned |
| `EventFeed.FreshOnlyGoesUp` | src/engine/event-feed.ts:73-83 | rows read as fresh are strictly increasing across all polls |
| `EventFeed.DeliveredIffRead` | src/engine/event-feed.ts:66-92 | a row has been delivered if and only if some poll read it in its window or its batch |
| `EventFeed.OnlySlippedRowsAreMissing` | src/engine/event-feed.ts:66-101 | between floor and cursor a row asked for is missing if and only if the cursor passed its id before it was visible and every later poll that saw it came more than 5000 ms after its creation; the batch limit loses nothing |
| `EventFeed.LateRowIsDelivered` | src/engine/event-feed.ts:66-72 | a row asked for that a poll can see at or behind the cursor, created at most 5000 ms before, is delivered by then |
| `EventFeed.OnlyAskedForRows` | src/engine/event-feed.ts:60-79 | nothing is delivered but rows of the table, of the instance asked for if there is one, above the floor and up to the cursor |
| `EventFeed.ShortBatchCatchesUp` | src/engine/event-feed.ts:98-100 | a poll that yields fewer than 200 rows has delivered every row asked for that it could see past the cursor |
| `EventFeed.BatchIsBounded` | src/engine/event-feed.ts:73-78 | a poll yields rows up to the cursor and then at most 200 past it, and the cursor moves to the last of these |
| `EventFeed.RemembersTheWindow` | src/engine/event-feed.ts:82-96 | after a poll exactly the delivered rows created at most 5000 ms before it are remembered |
| `WaitingLog.WaitingActivities` | src/engine/event-feed.ts:124-132 | the scan ends with the elements that `WaitingLog.WaitingMeans` characterises |
| `WaitingLog.WaitingMeans` | src/engine/event-feed.ts:124-132 | an element is listed if and only if some wait of it is followed by no end, error or discard of it and no cancel |
| `WaitingLog.RunListener.constructor` | src/engine/worker.ts:733-735 | a resumed run expects again exactly the waits the log has open, a fresh one none |
| `WaitingLog.RunListener.On` | src/engine/worker.ts:819-854 | each announcement changes the log and the listener's two sets as one step of the listener |
| `WaitingLog.ListenerSetsMean` | src/engine/worker.ts:824-832 | at any point of a run one set holds exactly the restored waits not announced in it before it first came to rest, the other exactly the elements that ended or failed and have not started or left since |
| `WaitingLog.HearingAgreesIff` | src/engine/worker.ts:824-853 | an announcement keeps log and engine in agreement if and only if it is not a new wait taken for a restored one nor a leave of a waiting element taken for the end of a finished one |
| `WaitingLog.RunAgreesIff` | src/engine/worker.ts:819-854 | within a run log and engine agree at every point if and only if no announcement is out of turn, no lost entry stood for a change of what the engine waits on, and no other run's entry makes one |
| `WaitingLog.LogAgreesWithEngine` | src/engine/worker.ts:734-739 | across any number of runs, parked, failed, crashed or taken over, the log lists exactly what the engine waits on, at every point and for the next run, if and only if each run is so and what it did since its last save changed nothing it waits on |
| `WaitingLog.ParkedRunsAgreeIff` | src/engine/worker.ts:734-739 | for runs that park with every entry written and nobody else writing, if and only if no announcement comes out of turn |
| `WaitingLog.TakenOverRunIsMisread` | src/engine/worker.ts:880-898 | a run that moves on to another wait and is taken over before saving leaves that wait in the log, although every announcement came in turn |
| `WaitingLog.WhatIsLogged` | src/engine/worker.ts:824-853 | a whole run adds one wait entry per wait that is new or announced over again within it, none for a restored wait announced once, and one discard per leave without an end; all other entries are other runs' |
| `WaitingLog.StartsEndsAndErrorsAreLogged` | src/engine/worker.ts:827-843 | over a whole run the log gains as many start, end and error entries of an element as the run announced starts, ends and errors of it, plus those of other runs, each under its own kind |
| `WaitingLog.LogIsTranscript` | src/engine/worker.ts:819-854 | entry by entry the log gains what was announced and written, of its own kind and element, in order, but for waits that were restored and leaves of what had ended |
| `WaitingLog.EachWaitIsLoggedOnce` | src/engine/worker.ts:734-739 | over any number of runs that keep log and engine in agreement the wait entries of an element are as many as its waits, not counting how often a resumed engine announced them, plus those of other runs |
| `WaitingLog.UnannouncedLeaveLosesTheWait` | src/engine/worker.ts:824-826 | the order of announcements that breaks the agreement |
| `ElementRuns.GroupRuns` | src/engine/process-engine.ts:393-440 | one entry per segment of the log, describing its rows, latest times, failure and interruption |
| `ElementRuns.RunMeans` | src/engine/process-engine.ts:403-440 | the times, output and end of a run are those of the last such event in it; an error makes it failed and a discard interrupted |
| `ElementRuns.RunMeansNoMore` | src/engine/process-engine.ts:393-440 | what no event of the run says stays open: no time, end or output without its event, failed and interrupted only by one |
| `ElementRuns.SignalsAreTheLogs` | src/engine/process-engine.ts:414-416 | the signals listed are the signal events, all of them, in order, with their time and payload |
| `ElementRuns.RowsAreTheLogs` | src/engine/process-engine.ts:417-422 | the mapping rows listed are those of the events of their kind, in order |
| `ElementRuns.SegmentsCover` | src/engine/process-engine.ts:403-440 | the segments put back together are the log |
| `ElementRuns.SegmentsBeginWithStarts` | src/engine/process-engine.ts:406-410 | segments are not empty, all but the first begin with a start, and none has one further in |
| `ElementRuns.RunsCountStarts` | src/engine/process-engine.ts:394-410 | there is one run per start, plus one if the log opens without a start |
| `ElementRuns.RunsConserveRows` | src/engine/process-engine.ts:414-422 | every signal, input row and output row is in exactly one run, in log order |
| `ElementRuns.FindOwn` | src/engine/process-engine.ts:455-457 | the first snapshot the element wrote after it ended and before it started again, if there is one |
| `ElementRuns.LastBefore` | src/engine/process-engine.ts:458-458 | the latest snapshot before an id |
| `ElementRuns.BeforeIsLatest` | src/engine/process-engine.ts:458-458 | that is the payload of the snapshot with the greatest smaller id, and none if no id is smaller |
| `ElementRuns.ViewOf` | src/engine/process-engine.ts:442-462 | which variables and changes each kind of run shows: none, the current ones, its own snapshot with the diff against the one before, or the latest earlier one |
| `ElementRuns.SnapshotsHaveOneOwner` | src/engine/process-engine.ts:443-457 | no snapshot is owned by two runs, and later runs own later snapshots |
| `VariableChanges.Diff` | src/engine/process-engine.ts:104-121 | the list names exactly the variables that differ, each once and with what became of it, in the order of the two snapshots |
| `VariableChanges.DiffMeans` | src/engine/process-engine.ts:95-121 | a variable is listed as added, changed or removed, with its old and new value, if and only if the two snapshots say so under "variables" |
| `VariableChanges.DiffInOrder` | src/engine/process-engine.ts:110-119 | first come the added and changed ones in the new snapshot's order, then the removed ones in the old one's |
| `VariableChanges.PatchAt` | src/engine/process-engine.ts:110-119 | a list that names each variable once sets just those, whatever its order |
| `VariableChanges.DiffPatches` | src/engine/process-engine.ts:104-121 | applied to the old variables it gives the new ones, and undone it gives the old ones back |
| `VariableChanges.EmptyIffSame` | src/engine/process-engine.ts:104-121 | it is empty if and only if nothing changed |
| `VariableChanges.DiffsTelescope` | src/engine/process-engine.ts:459-461 | the diffs of consecutive snapshots lead from the first snapshot to the last |
| `Paths.JoinSplit` | src/engine/bpmn-extensions.ts:107-107 | splitting at dots loses nothing |
| `Paths.SplitJoin` | src/engine/process-engine.ts:250-250 | segments without dots survive joining and splitting |
| `Paths.GetAfterSet` | src/engine/bpmn-extensions.ts:106-114 | after a write every path from there down reads what was written |
| `Paths.SetLeavesOthers` | src/engine/bpmn-extensions.ts:106-114 | a write leaves every path alone that is neither above nor below it |
| `Paths.SetsCommute` | src/engine/bpmn-extensions.ts:106-114 | two writes commute when neither path is a prefix of the other |
| `Paths.LastSetWins` | src/engine/bpmn-extensions.ts:106-114 | a second write to a path forgets the first |
| `Propagation.Variables.WriteOutputs` | src/engine/bpmn-extensions.ts:212-214 | mappings are evaluated in one scope and written one after the other, up to the first that throws |
| `Propagation.Variables.ApplyResult` | src/engine/bpmn-extensions.ts:182-226 | output mappings are valued in one view of step over inputs over process variables; replaying the returned rows that are not local onto the old variables gives exactly the new ones, and a failure leaves just what was written before it |
| `Propagation.PlanKinds` | src/engine/bpmn-extensions.ts:187-217 | rows marked local are exactly those that were not written |
| `Propagation.WritesOnlyRoots` | src/engine/bpmn-extensions.ts:188-191 | a name that no row's target begins with keeps its value or its absence |
| `Propagation.OutputsDecide` | src/engine/bpmn-extensions.ts:207-218 | with output mappings there is one row per mapping, valued in the scope before any was written; nothing produced escapes the step, and names outside the mapped targets stay |
| `Propagation.PlanWritesOutputs` | src/engine/bpmn-extensions.ts:207-214 | every row of an output mapping is valued in one view in which the step's own variables hide its inputs and those the process variables, taken before any row is written |
| `Propagation.OutputReadsResult` | src/engine/bpmn-extensions.ts:207-214 | an output that names a field of the result writes that field, whatever the inputs and the process hold under the name |
| `Propagation.OutputReadsOuter` | src/engine/bpmn-extensions.ts:211-211 | without such a field it writes the input of that name, without one the process variable, and without any null |
| `Propagation.OutputReadsProduced` | src/engine/bpmn-extensions.ts:208-211 | one that names what was produced last writes that |
| `Propagation.LiteralOrFeel` | src/engine/bpmn-extensions.ts:78-83 | a source without a leading "=" stands for itself |
| `Propagation.FeelValue` | src/engine/bpmn-extensions.ts:84-99 | for a request a null with a warning is an error, for an output it is null; any other value is passed on as it is |
| `Propagation.FirstFailureStops` | src/engine/bpmn-extensions.ts:212-214 | rows stop before the first mapping that throws, and its error is the one reported |
| `Propagation.ExpressionReadsResponse` | src/engine/bpmn-extensions.ts:196-204 | a result expression sees the result under "response"; of a context each entry is produced once |
| `Propagation.FailedExpressionWritesNothing` | src/engine/bpmn-extensions.ts:196-198 | when the result expression throws nothing is written |
| `Propagation.UnmappedResult` | src/engine/bpmn-extensions.ts:222-224 | with nothing mapped or produced a connector writes nothing, and any other task writes exactly one row for each field of its result |
| `Propagation.MergedInOrder` | src/engine/bpmn-extensions.ts:222-224 | the rows come in the order of the result's own fields, and those are what the result holds under each name |
| `Propagation.MergedFieldsRead` | src/engine/bpmn-extensions.ts:222-224 | afterwards every field can be read back under its own name, all the way down, when no name leads through another |
| `Propagation.ProducedPropagates` | src/engine/bpmn-extensions.ts:193-221 | without output mappings the whole result under the result variable and exactly one row for each entry of the result expression are written, and the result's own fields are not |
| `Propagation.ProducedReads` | src/engine/bpmn-extensions.ts:193-221 | afterwards each of them can be read back under its own name when the names keep apart |
| `Propagation.RowsCommute` | src/engine/bpmn-extensions.ts:188-191 | neighbouring rows with targets apart may be swapped |
| `Registry.FindsItselfIffUnshadowed` | src/engine/registry.ts:320-322 | looking a field up by its own name finds it if and only if no earlier field has that name as its JSON name |
| `Registry.FindsFirst` | src/engine/registry.ts:320-322 | the field found is the first that has the name as its own or as its JSON name, and none is found if none has |
| `Registry.CheckTarget` | src/engine/process-engine.ts:248-260 | the loop accepts a target if and only if its segments lead through the message types |
| `Templates.DescribeFields` | src/engine/templates.ts:254-274 | the descriptions are those of the message's field chains, depth first, on any message graph, cyclic ones included |
| `Templates.RequestFields` | src/engine/templates.ts:82-123 | the template offers exactly those chains, in the same order |
| `Templates.ChainsAre` | src/engine/templates.ts:82-91 | the chains are exactly the ways down through messages outside google.protobuf, at most four fields long and shorter only where they end at anything else |
| `Templates.ChainsInOrder` | src/engine/templates.ts:82-91 | they come depth first, in the order of the fields of each message |
| `Templates.PathIsOffered` | src/engine/templates.ts:93-121 | every such way has a place in the template and the description, under its dotted name: a choice as a dropdown of its values, lists, maps and messages but for the three JSON strings as JSON, the rest as a line |
| `Templates.OfferIsPath` | src/engine/templates.ts:253-274 | and every place in them is for such a way |
| `Templates.TemplatesAgree` | src/engine/templates.ts:253-274 | descriptions and templates list the same targets and choices, and agree on what is JSON |
| `Templates.TargetsKeepApart` | src/engine/templates.ts:82-91 | no target is a prefix of another, so no two are the same |
| `Templates.TargetWalksBackIff` | src/engine/process-engine.ts:248-260 | the deploy walk of a flattened target goes through the very fields it came from if and only if none of them is shadowed in its message |
| `Templates.TargetRejectedIff` | src/engine/process-engine.ts:248-260 | the deploy walk rejects a flattened target if and only if, at its first shadowed segment but the last, the shadow is no message or one that does not lead on |
| `Templates.LastShadowIsAccepted` | src/engine/process-engine.ts:248-260 | a target none of whose segments but the last is shadowed is accepted |
| `Templates.PlainShadowIsRejected` | src/engine/process-engine.ts:248-260 | a target whose first shadowed segment is not the last, and shadowed by a field that is no message, is rejected |
| `Templates.ShadowedTargetIsRejected` | src/engine/registry.ts:320-322 | a valid schema whose own template target the deploy check rejects |
| `ServiceCall.BuildRequest` | src/engine/service-call.ts:60-81 | the request is that of all parameters in order, blank ones skipped, and fails where a step would be written into a value that is not an object |
| `ServiceCall.OneMoreParam` | src/engine/service-call.ts:62-79 | one more parameter is skipped when blank, written at its path when only objects and nulls are on the way, and otherwise fails the whole request |
| `ServiceCall.RequestHoldsItsParams` | src/engine/service-call.ts:60-81 | parameters on paths that keep apart always build a request, which holds each coerced value at its own path and nothing unrelated to one |
| `ServiceCall.SentValue` | src/engine/service-call.ts:44-56 | among parameters on paths that keep apart, a text is sent as the JSON it parses to when its path leads to a field that is neither text nor an enum; any other value goes as it is |
| `ServiceCall.NothingElseIsSent` | src/engine/service-call.ts:62-66 | blank parameters send nothing, and no path holds anything that no filled-in parameter's path is above or below |
| `ServiceCall.OrderDoesNotMatter` | src/engine/service-call.ts:62-79 | any order of such parameters builds the same request |
| `ServiceCall.TemplateParamsKeepApart` | src/engine/templates.ts:82-91 | filling in different fields of a template, in any order, gives parameters that keep apart |
| `ServiceCall.FilledInTemplateIsSent` | src/engine/service-call.ts:60-81 | such a request is always built and holds its values; each input passes the deploy walk unless its target is stuck at a shadow, and where no name is shadowed it is coerced by its own field |
| `ServiceCall.TemplateFieldIsSent` | src/engine/service-call.ts:44-79 | a field filled in through its template, with no name on the way shadowed, is sent by its own kind: text and enums as they are, the rest as the JSON the text is; a blank one is not sent |

## Left out

- The BPMN engine, its state format and the round trip of that state through JSON: an abstract state and step function stand for them.
- FEEL: evaluation is a parameter, and the syntax check at deploy is not modelled; error texts are the evaluator's own.
- SQL, Prisma and `SKIP LOCKED`: a claim and each transaction are one atomic step.
- `tick`'s budget, `runWorker`'s loop and backoff, the settle loop and timer handles: only "at rest, out of time, ended, failed" is kept.
- Theorems.SavedCallsNeverRepeat: does not promise it for a run that restarted from a completed row, because that run does repeat calls (`Theorems.RestartedRunIssues`).
- Store.InstanceStore.Signal: takes the checks on status and cancel and the write as one step, which the code does not; `Hazards.UncheckedSignalAtomicIff` says when that differs, `Hazards.UncheckedSignalCoherentIff` and `Hazards.SignalRevivesCompleted` what then happens.
- Store.InstanceStore.Retry: takes the status check and the transaction as one step; the code writes a status and logs an error read before (`Hazards.UncheckedRetryAtomicIff`, `Hazards.UncheckedRetryCoherentIff`).
- Theorems.StaleRunCommitsNothing: says nothing of the run events a stale run still writes; `WaitingLog` models those that bear on waiting.
- Theorems.SignalsExactlyOnceInOrder: "none is missing" stops once a run is let go with a cancel pending, because such a park leaves the signals it consumed in the inbox.
- Propagation.MergedFieldsRead: needs names that keep apart, because a field named `a.b` is written into one named `a`.
- Fairness.WakesNoEarlier: a BPMN timer that is already overdue when its instance parks asks for an earlier time, which its hypothesis leaves out.
- Fairness.NoOvertaking: assumes claims are atomic, and that no step on the overtaking row carries a time stamp, nor a release a wake-up, from before its first claim.
- Propagation.Variables.Write: updates a tree held in a field, so writing into nested objects in place and sharing them between variables are not captured; `ServiceCall.BuildRequest` likewise builds on values, and counts an array on the way to a nested field as a value that is not an object.
- EventFeed.Subscription.PollOnce: takes both queries' results as given, and does not model aborting between two yields.
- The order in which `waitingActivities` lists its elements.
- The trimming of a cancel reason, the name checks and XML parsing of `deploy`, and `start`'s lookup of its definition.
- Field labels, types, default values and descriptions in templates, `responseFields`, `applyTemplates` and icons.
- Masking, clamping and sanitising of payloads, which happen before anything is logged or shown.
- `callMethod`, transports, the registry's caches, HTTP, the CLI and the dashboard.
