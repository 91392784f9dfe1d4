# Fan-in harness, control queue and change applier: a verified model

This project models, in Dafny 4.11, the protocols of a load harness that holds 10,000 database clients open
on a lane, of the queue that drives it, and of the writer that keeps a ledger in step with a change feed.
`dafny verify dfyconfig.toml` checks it.

Each protocol is a state machine whose steps are what can happen between two points where another party may
act: the code between two awaits, one file or lock operation, one access to a shared counter, one channel
operation, a crash. The laws are stated over every run of those machines. Code that updates an object is a
class whose methods are proved against the machine's step, or against a function of the old state or of the
object's whole history.

| files | what they model |
|---|---|
| `Shard`, `ShardLaws`, `Orphans`, `RetryBudget`, `LaneRuntime` | one shard: logins, resets, reconnects, the gate, the retry budget |
| `HoldWindow`, `LaneHold`, `LaneDecision`, `LaneLaws`, `LaneTraces`, `WindowRefinement` | the shards' shared hold, with the two shared counters read and written one access at a time |
| `JobRegistry`, `JobLaws`, `JobTraces`, `JobCleanUp`, `JobHarm`, `JobFiles` | claiming, rejoining and taking over one job, with crashes at every step |
| `Barrier`, `BarrierInv`, `BarrierLaws`, `BarrierParent`, `BarrierTraces` | the parent and its four workers, from READY to COMPLETE |
| `ChangeReduction`, `ReductionLaws`, `Ledger`, `Convergence`, `KeyOrder` | reducing a batch of changes, the version guard, retries, convergence |
| `SessionQueue`, `SessionLaws`, `Pump`, `ServiceBusSqs`, `SqsAgent` | the control queue on broker sessions, its pump thread, and the agent's calls |
| `Scram`, `Wire`, `WireLaws` | the wire parser and the authentication machine |
| `Admission`, `Wave` | the admission controller, the bounded wave launcher, the ramp loop |
| `Selector`, `Statistics`, `Telemetry`, `Aggregation` | selector cost, percentiles and advisories, combining the workers' results |
| `Wrappers`, `Arithmetic` | `Option` and `Result`; minimum, maximum and totals |

## What the code does not do as it may seem to

Each of these is proved, by a concrete run that shows it, by the exact condition under which it happens, or by both.

- A lane's later settled hold can count as held a client that was lost for much of it: a shard that has closed
  its evidence no longer repairs or reports. At a lane's first settle this cannot happen
  (`ASettledHoldHeldEveryClient`, `TheFirstSettleHeldEveryClient`, `ALaterSettleCanMissALoss`).
- Even a fresh first settle can decide that thirty seconds were held when a client was up for half of them: a
  loss and a reconnect between the load of the in-flight count and the decision go unseen. The hold is full up to
  the decision exactly when a second look at the two counters would find them as they were
  (`TheHoldIsFullExactlyWhileTheCountersStay`, `ALossAfterTheLoadGoesUnseen`).
- The shared window's read loads the latest reconnect before the in-flight count, so it can settle at the very
  moment of a reconnect. It does so only if a whole end() falls between the loads; swapping them would be enough
  (`AReadIsStaleExactlyWhenAnEndFallsBetweenItsLoads`, `SwappedLoadsAreNeverStale`).
- A client reset again between becoming ready and its reconnect task resuming is never reconnected and leaves no
  failure code; only disconnected and reconnected differ. With reconnects enabled this is the one way to lose a
  client unreported (`ALossIsUnreportedExactlyWhenItsReconnectIsCountedLost`).
- Retries exceed the shard budget exactly by the reconnects that wake with the budget already spent: up to
  min(clients, 25) - 1 of them, and every number up to that (`TheBudgetIsOverdrawnExactlyByWakesOnEmpty`,
  `RetriesAreBounded`, `EveryOverdraftWithinTheBoundHappens`).
- Which error a malformed batch raises depends on the order of its rows, unless all malformed ones raise the same;
  whether it raises does not (`TheErrorIsOrderFreeExactlyWithOneFault`, `ArrivalOrderIsIrrelevant`). The guard
  orders nothing across table IDs (`ChangesCommuteExactlyWithinOneTable`). With fewer than one attempt a batch is reported applied and is not
  (`ApplyWithRetry`).
- A job can settle as failed with a result present; the invocation that settles it and the next then answer
  differently (`RecoveryAgreesExactlyWithoutALeftover`). An exception between the claim's two writes can remove a
  directory another process has taken over. It can do no harm exactly when no other live process relies on that
  directory, every run begun in it died unrecorded, and nobody was answered from it
  (`ACleanUpAfterPublishingBreaksOwnership`, `ACleanUpIsSafeExactlyWhenHarmless`). The other laws about the
  registry are for runs without such an exception, and for the rest of a run after a harmless clean-up.
- The ramp loop ends only because its lanes stay in lockstep (`TheRampEndsExactlyInLockstep`).

## Model

| member | source | states |
|---|---|---|
| `LaneLaws.ASettledHoldHeldEveryClient` | runner/round5_fanin.py:3441-3459 | If every shard ends completed, then at each settled hold's load of the in-flight count every client of every shard had been held unbroken from start (the later of the hold epoch and the latest reconnect at that load) up to the load, but for a client lost with its reconnect task not past its first line, or lost behind a shard that had closed its evidence, each held from start up to that loss; and a read that was not stale settles at least HOLD_SECONDS after start |
| `LaneLaws.TheHoldIsFullExactlyWhileTheCountersStay` | runner/round5_fanin.py:3449-3459 | Up to the decision itself every client was so held exactly when no slot was lost after the load outside those excuses, and exactly when a second look at the two shared counters would find them unchanged (a load in the very nanosecond of start tells only one way) |
| `LaneLaws.AnUndisturbedDecisionProvesTheWholeHold` | runner/round5_fanin.py:3449-3459 | When nothing fell between the load and the decision, in time or in the shards, a read that was not stale proves the full HOLD_SECONDS up to the decision |
| `LaneTraces.ALossAfterTheLoadGoesUnseen` | runner/round5_fanin.py:3449-3459 | A concrete run whose first settle, read fresh and with every shard completed, decides thirty seconds after start although a client had been up for only half of them: lost and reconnected between the load and the decision |
| `LaneDecision.StepTrail` | runner/round5_fanin.py:3441-3459 | Every interleaved step keeps, for each load that saw none in flight: either both counters are as they were and no reconnect has begun, or some slot has been reconnecting since, or sits in a shard that cannot complete |
| `LaneLaws.TheFirstSettleHeldEveryClient` | runner/round5_fanin.py:4562-4578 | At the first settle of a lane whose shards all complete, the only excuse left is a reconnect task that has not run its first line: at the load, and at the decision too when the counters stayed |
| `LaneTraces.ALaterSettleCanMissALoss` | runner/round5_fanin.py:4535-4578 | A concrete run in which every shard completes although a later settled hold counts as held a client lost, with no reconnect, before half of that hold: the excuse for closed shards cannot be dropped |
| `LaneLaws.AReadIsStaleExactlyWhenAnEndFallsBetweenItsLoads` | runner/connection_spike_runner.py:1074-1088 | With none in flight at the second load, the latest completion loaded first is stale exactly when some end() raised it and dropped its count between the two loads |
| `LaneTraces.AStaleReadSettlesEarly` | runner/connection_spike_runner.py:1086-1087 | A two-shard run in which a stale read settles the hold at the very moment of a reconnect |
| `LaneLaws.SwappedLoadsAreNeverStale` | runner/connection_spike_runner.py:1086-1087 | Loading the in-flight count first: any later load of the latest completion dates every client that was up when the zero was loaded |
| `WindowRefinement.EachStepIsOneWindowCall` | runner/connection_spike_runner.py:1074-1088 | Every step on the shared counters is one call, or none, of the single-process window they stand for |
| `WindowRefinement.AReadIsAtomicExactlyWithoutAnEndBetweenItsLoads` | runner/connection_spike_runner.py:1086-1087 | A read that loads zero in flight equals an atomic read of the single-process window exactly when no whole end() fell between its loads |
| `LaneHold.StepInv` | runner/round5_fanin.py:2593-2605 | Every interleaved step of the shards keeps the lane invariant: the in-flight count is the begun reconnects plus the drops still to come, and every connection up is dated by the latest reconnect or by its own reconnect that has still to end |
| `HoldWindow.HoldUntilSettled` | runner/round5_fanin.py:3441-3459 | The poll loop returns at the first poll that settles or is out of time, true only for one that settles, having asked nothing after it |
| `HoldWindow.LocalWindow.BeginOne` | runner/round5_fanin.py:2528-2529 | The single-process begin(): one more in flight |
| `HoldWindow.LocalWindow.EndOne` | runner/round5_fanin.py:2531-2534 | The single-process end(): one fewer in flight, and the latest completion is the maximum |
| `ShardLaws.HeldNowAtTargetIsAFullHold` | runner/round5_fanin.py:3029-3033 | After any run of one shard, held_now reaches the target exactly when every slot is launched and its client ready, open and counted, though clients may be lost before their tasks resume |
| `ShardLaws.TheStampIsAFullHold` | runner/round5_fanin.py:3153-3158 | The gate time is stamped only by an event that leaves every client held, with that event's time since the bell, and never once frozen |
| `ShardLaws.AFrozenStampNeverMoves` | runner/round5_fanin.py:4513-4515 | Over every run from a frozen gate the stamp stays |
| `ShardLaws.EveryOutcomeIsAccounted` | runner/round5_fanin.py:3035-3072 | initiated = authenticated + cancelled + refused + in flight; terminal failures are exactly the failure codes counted; reconnected never exceeds disconnected |
| `ShardLaws.CompleteCountsForceEveryClientHeld` | runner/round5_fanin.py:4562-4578 | The counts of the local gate, the held count left out, force every slot to be up with no reconnect pending |
| `ShardLaws.BrokenStaysBroken` | runner/round5_fanin.py:2593-2605 | A slot lost with no task to repair it is never changed again |
| `ShardLaws.BrokenNeverCompletes` | runner/round5_fanin.py:4570-4573 | Such a slot keeps disconnected above reconnected, so the shard cannot complete |
| `ShardLaws.AClientLostBeforeItsReconnectResumesIsOrphaned` | runner/round5_fanin.py:2602-2605 | A concrete run in which a client reset again before its reconnect task resumes gets no new task: lost for good with no terminal failure, told only by disconnected = reconnected + 1 |
| `Orphans.AnEventOrphansSilentlyExactlyWhenItCountsALostReconnect` | runner/round5_fanin.py:2593-2605 | While reconnects are enabled an event leaves a client lost with no reconnect under way, and counts no terminal failure, exactly when it is the end of a reconnect whose client was reset before its task resumed |
| `Orphans.ALossIsUnreportedExactlyWhenItsReconnectIsCountedLost` | runner/round5_fanin.py:3095-3168 | Over every run with reconnects enabled, a slot ends as an orphan none of whose events counted a terminal failure exactly when a loss fell while its reconnect was ready but not resumed, and the task then counted it; any other lost client is up again, has its reconnect under way, had its login refused or cancelled, or left a failure |
| `RetryBudget.RetriesStayWithinBudgetPlusSleepers` | runner/round5_fanin.py:3099-3114 | retries never exceed the shard budget plus the most reconnects that ever slept at once between their check and their spend |
| `RetryBudget.TheBudgetIsOverdrawnExactlyByWakesOnEmpty` | runner/round5_fanin.py:3111-3114 | Over every run retries end above the budget exactly when some reconnect woke from its sleep with the budget already spent, and by exactly the number of such wakes: the check missing before the spend |
| `RetryBudget.RetriesAreBounded` | runner/round5_fanin.py:3099-3114 | Over every run of a shard of T clients retries end at most budget + min(T, budget) - 1 |
| `RetryBudget.LoginsAloneStayWithinTheBudget` | runner/round5_fanin.py:3045-3050 | In particular, without refused reconnects no wake finds the budget spent and the strict budget holds |
| `RetryBudget.EveryOverdraftWithinTheBoundHappens` | runner/round5_fanin.py:3111-3114 | For every T and every k up to that bound, a run of a shard of T clients ends exactly k over its budget, by k sleepers that woke |
| `Shard.StepKeepsBooks` | runner/round5_fanin.py:2944-3168 | Every event between two awaits keeps the books that tie each counter to the slots |
| `LaneRuntimes.LaneRuntime.UnexpectedDisconnect` | runner/round5_fanin.py:2593-2605 | The object's fields after a loss: one fewer held, one more disconnect, a reconnect task only if enabled and none is in the slot |
| `LaneRuntimes.LaneRuntime.OpenClient` | runner/round5_fanin.py:2944-2987 | The first lines of a login: initiated and one slot more |
| `LaneRuntimes.LaneRuntime.FinishLogin` | runner/round5_fanin.py:3003-3034 | The login resumed after ready: authenticated, counted as held, and the gate stamped if that fills it |
| `LaneRuntimes.LaneRuntime.FailLogin` | runner/round5_fanin.py:3042-3072 | A refused login: retried within the slot's tries and the shard's budget, else one terminal failure under its code |
| `LaneRuntimes.LaneRuntime.CancelLogin` | runner/round5_fanin.py:3035-3041 | A cancelled login is counted as cancelled |
| `LaneRuntimes.LaneRuntime.ReconnectLoop` | runner/round5_fanin.py:3099-3114 | From the head of the reconnect loop to its next await: unrecovered, asleep, or a try spent |
| `LaneRuntimes.LaneRuntime.SpendAfterBackoff` | runner/round5_fanin.py:3111-3114 | After a backoff the retry is spent without looking at the budget again |
| `LaneRuntimes.LaneRuntime.FailReconnect` | runner/round5_fanin.py:3139-3152 | A failed try loops when retryable, else ends in one terminal failure |
| `LaneRuntimes.LaneRuntime.FinishReconnect` | runner/round5_fanin.py:3153-3168 | The reconnect resumed after ready: reconnected, counted as held, the gate stamped if that fills it, the slot free of its task |
| `JobLaws.AtMostOneOwnerRuns` | runner/connection_spike_runner.py:3596-3649 | At every point of every run, with crashes anywhere, at most one live process holds the job's lock and at most one is in the run section, which lies inside the lock |
| `JobLaws.ARunIsRepeatedOnlyAfterAnUnrecordedDeath` | runner/connection_spike_runner.py:3698-3756 | Each run but the last was begun by a process that crashed before it recorded any terminal state |
| `JobLaws.SettledIsFinal` | runner/connection_spike_runner.py:5210-5228 | Once settled, no step of any run changes the directory and no run begins |
| `JobLaws.ReplaysAgree` | runner/connection_spike_runner.py:3667-3676 | All invocations that see the job settled, whenever they ask, are given one answer, and a result in it was returned by a run that finished |
| `JobLaws.RecoveryAgreesExactlyWithoutALeftover` | runner/connection_spike_runner.py:3679-3695 | An invocation that recovers a dead owner's outcome answers as later replays do exactly when no result lies under a state other than completed, and such a result is left only by an owner that died between its two writes |
| `JobTraces.OneIsToldItFailedAndTheNextGetsAResult` | runner/connection_spike_runner.py:5166-5178 | A concrete run in which a job settles as failed with a result still present: one invocation is told it failed, the next replays the result |
| `JobTraces.ACleanUpAfterPublishingBreaksOwnership` | runner/connection_spike_runner.py:3645-3649 | With an exception in the claim after its identity was published, a run in which the clean-up removes a directory that another process has taken over and is running, and a third claims it afresh |
| `JobHarm.ACleanUpIsSafeExactlyWhenHarmless` | runner/connection_spike_runner.py:3645-3649 | With two invocations of one request still to come, no ordinary moves lead from that clean-up to two owners, to a run repeated after one that did not die unrecorded, or to answers that disagree, exactly when no other live process relies on the directory it removes, every run begun there died unrecorded, and nobody was answered from it |
| `JobHarm.ARaisedClaimCleansUpSafelyExactlyWhenAlone` | runner/connection_spike_runner.py:3645-3649 | The same in every run with one such exception, whatever the others do before the clean-up |
| `JobCleanUp.TheRestOfTheRunIsARun` | runner/connection_spike_runner.py:3645-3649 | After a harmless clean-up the rest of such a run is again a run, so that one owner at a time, repetition only after an unrecorded death, and agreeing answers hold of it |
| `JobCleanUp.ACleanUpKeepsTheRegistryExactlyWhenHarmless` | runner/connection_spike_runner.py:3645-3649 | The same condition decides whether the clean-up keeps the registry invariant |
| `JobCleanUp.OthersMoveBeside` | runner/connection_spike_runner.py:3645-3649 | Until that clean-up the others keep every registry invariant, as beside a process that crashed |
| `JobRegistry.StepInv` | runner/connection_spike_runner.py:3596-3756 | Every file operation, lock operation and crash keeps the registry invariant, apart from an exception in the claim after its identity was published |
| `JobRegistry.OneHolder` | runner/connection_spike_runner.py:3635-3644 | Two processes of the registry never both hold the lock of the directory they use |
| `JobRegistry.BeginsAfterDeath` | runner/connection_spike_runner.py:4973-5002 | A process may begin the run only when whoever began an earlier one has crashed without recording an end |
| `JobFiles.Job.SettledTerminal` | runner/connection_spike_runner.py:3667-3676 | Reads in turn settled, the result and the state; the answer is the replay of the settled directory |
| `JobFiles.Job.RecoverUnsettledTerminal` | runner/connection_spike_runner.py:3679-3695 | The recovered answer of an unsettled directory, or none when the job is mid-flight |
| `JobFiles.Job.Consult` | runner/connection_spike_runner.py:3723-3751 | A contender under the lock: replay, conflict, recovery (settled) or takeover (claimed), as the registry's steps do when undisturbed |
| `JobFiles.Job.Finish` | runner/connection_spike_runner.py:5150-5228 | The owner's writes after its run: the result before its state, settled last |
| `BarrierLaws.TheEpochFollowsFourFreshProofs` | runner/connection_spike_runner.py:1956-1969 | The hold epoch is minted at most once, and only after each worker sent a valid full-partition proof twice, the second equal to the first |
| `BarrierLaws.TheEpochNeverMoves` | runner/connection_spike_runner.py:1968-1970 | Once minted, the epoch is the same at every later point |
| `BarrierLaws.ThePreparedProofIsASecondLook` | runner/connection_spike_runner.py:1205-1218 | A worker's second proof is sent only after every worker's first has been received |
| `BarrierLaws.NobodySamplesBeforeAllHaveCommitted` | runner/connection_spike_runner.py:1970-2001 | No worker samples, or ends well, before all four have committed, with the proof they first sent, to the one epoch it holds |
| `BarrierLaws.AWokenWorkerOnlyGivesUp` | runner/connection_spike_runner.py:868-885 | A worker that leaves its polling loop on an event the clean-up set can only give up or die; a gate is passed only on an event the parent gave |
| `BarrierLaws.AWorkerCanSeeAWakeUp` | runner/connection_spike_runner.py:879-884 | A concrete run in which a worker leaves its loop on an event only the clean-up set: the re-check after the loop is needed |
| `BarrierLaws.EveryResultCarriesTheEpoch` | runner/connection_spike_runner.py:2079-2087 | Every completed result carries the release and the epoch that were minted, so that check of the parent never fails |
| `BarrierLaws.OnCompleteNobodyClosedBeforeAllWereAtTheTeardown` | runner/connection_spike_runner.py:1241-1246 | On a run that reaches COMPLETE, no worker's sockets close, in any way, before all four are at the teardown with their holds and samples completed |
| `BarrierTraces.ABarrierCanComplete` | runner/connection_spike_runner.py:1895-2108 | A run that reaches COMPLETE with every worker reported and well |
| `BarrierParent.ValidatedRampProof` | runner/connection_spike_runner.py:942-1007 | The loop over the lanes accepts exactly the proofs whose every entry is of a known lane, names that lane, this run and this worker, and holds a full partition since this release; what it returns is those counts |
| `BarrierParent.ShardedRun.StageMessage` | runner/connection_spike_runner.py:1838-1887 | One message in a stage leaves the parent's record as the machine's step does: a proof kept once a worker, a teardown noted, or the run aborted |
| `BarrierParent.ShardedRun.ResultsMessage` | runner/connection_spike_runner.py:2029-2050 | One control message during the results: the teardown is given once all four are there; a stopped worker aborts |
| `BarrierParent.ShardedRun.TransitionBarrier` | runner/connection_spike_runner.py:1610-1614 | The barrier state moves only from the state expected, else the run aborts |
| `BarrierInv.EarlyIsDoomed` | runner/connection_spike_runner.py:1838-1844 | A worker whose teardown message arrives while the parent is still in a stage can no longer deliver a completed result |
| `BarrierInv.StepInv` | runner/connection_spike_runner.py:1804-2162 | Every step of the parent and of the workers, a worker's death and a towel keep the barrier invariant |
| `ChangeReduction.ReduceChanges` | glue/round4_writer.py:87-149 | The loops compute exactly the declarative answer: the first malformed row's fault, or for each key, in key order, the top-ranked change at its newest version, or the key unresolved when one type there has two images |
| `ReductionLaws.ArrivalOrderIsIrrelevant` | glue/round4_writer.py:104-149 | Every permutation of a batch is refused, or every one reduces to the same answer |
| `ReductionLaws.TheErrorIsOrderFreeExactlyWithOneFault` | glue/round4_writer.py:105-116 | A batch gives one answer in every order, the whole text of its error included, exactly when all its malformed rows raise one error: the same fault, naming the same type or key |
| `ReductionLaws.TheErrorDependsOnOrder` | glue/round4_writer.py:105-116 | Two permutations of one batch with different faults |
| `ReductionLaws.WinnersAndUnresolvedPartitionTheKeys` | glue/round4_writer.py:119-149 | Winners and unresolved keys partition the keys of the rows that are not pre-images, one entry each, in key order |
| `ReductionLaws.ReducingAgainChangesNothing` | glue/round4_writer.py:119-149 | Reducing well-formed changes that hold one per key is sorting them by key: the same changes, in key order, nothing unresolved |
| `ReductionLaws.ReducingTwiceIsReducingOnce` | glue/round4_writer.py:119-149 | The winners of any batch, reduced again, are themselves |
| `ReductionLaws.WinnersAreWellFormed` | glue/round4_writer.py:140-148 | Every winner is a well-formed change of its key |
| `Ledger.ApplyingTwiceIsApplyingOnce` | glue/round4_writer.py:190-222 | Replaying a batch through the guard changes nothing |
| `Ledger.ChangesCommuteExactlyWithinOneTable` | glue/round4_writer.py:199-202 | Two changes of one key commute on every table exactly when they name one table ID and are not two different rows at one version |
| `Ledger.ApplyChanges` | glue/round4_writer.py:239-267 | One transaction: returning means the whole batch is applied, raising means none of it or, when a commit landed, all of it |
| `Ledger.ApplyWithRetry` | glue/round4_writer.py:289-304 | For every pattern of failures and at least one attempt, returning means one application; raising means none or one, and an ordinary error only after every attempt failed; with no attempts it returns having applied nothing |
| `Convergence.WriteBatch` | glue/round4_writer.py:439-468 | One batch step: its changes are the winners and what the snapshots decide, applied once or, when it fails, not at all or once |
| `Convergence.BatchIsTruthful` | glue/round4_writer.py:446-457 | Every change of a batch drawn from the feed is the source's resolved change of its key at the batch's newest version of it |
| `Convergence.EveryRowIsTheHighestVersionDelivered` | glue/round4_writer.py:190-222 | For any finite sequence of batches, split, merged, reordered, replayed, refused or lost, each row equals the resolved change, tombstones included, at the highest version delivered for its key by a batch that was not refused, unless the table already held that table ID at that version or above |
| `Convergence.DeliveriesConverge` | glue/round4_writer.py:439-468 | Two deliveries that reach the same highest version of every key end in the same table |
| `SessionLaws.NothingOvertakes` | runner/azure_io.py:232-261 | Once a message has been handed out, every earlier message of its session has been completed or dead-lettered |
| `SessionLaws.HandedOutAtMostThreeTimes` | runner/azure_io.py:238-245 | A message is handed out at most MAX_RECEIVES times, and is dead-lettered only after all of them |
| `SessionLaws.NeverBeforeItsTimeout` | runner/azure_io.py:234-237 | A message that was left is in hand again only once its visibility timeout has passed |
| `SessionLaws.NoneLostNoneTwice` | runner/azure_io.py:232-285 | Every message is in exactly one place: settled, in hand, held aside, or waiting at the broker and never handed out |
| `SessionLaws.SettledOnlyByDecisionOrRedrive` | runner/azure_io.py:240-245 | A message is completed only by the agent's acknowledgment of it, and dead-lettered only by a receive that finds it left three times and due |
| `SessionLaws.AFateIsFinal` | runner/azure_io.py:274-285 | What became of a message never changes, and it is never handed out again |
| `SessionQueue.ServiceBusControlQueue.ReceiveOne` | runner/azure_io.py:232-261 | One receive: held-back messages that are due first, then the session being read or the next one offered, which is released when nothing arrives |
| `SessionQueue.ServiceBusControlQueue.HandHeldBack` | runner/azure_io.py:233-246 | The pass over the held-back messages hands out the first one due, and dead-letters those on their last time before it |
| `SessionQueue.ServiceBusControlQueue.AcknowledgeHanded` | runner/azure_io.py:275-277 | The message is completed, and a session that was held aside is let go |
| `SessionQueue.ServiceBusControlQueue.LeaveHanded` | runner/azure_io.py:279-283 | The session is no longer read, and its message is held aside until it is due |
| `Pump.ThePumpRefinesTheQueue` | runner/azure_io.py:348-369 | Leaving out the steps that make no call, every run of the pump and the agent is, on the queue, a run of an agent that decides on each message before it receives |
| `Pump.DecisionsPairWithMessages` | runner/azure_io.py:351-362 | Decisions pair one to one and in order with messages: the pump applies to each message the decision the agent made on it, and the agent has at most the last still to decide |
| `Pump.NoPutBlocks` | runner/azure_io.py:341-358 | The agent's decision and the pump's hand-over always find their slot free |
| `Pump.TheAgentSeesNoOvertaking` | runner/azure_io.py:373-381 | Behind the pump too, all messages before the one the agent holds are settled |
| `ServiceBusSqs.Sqs.ReceiveMessage` | runner/azure_runner.py:356-373 | Every message still held for the address is left first; then at most the new one is held |
| `ServiceBusSqs.Sqs.DeleteMessage` | runner/azure_runner.py:375-381 | The held message is given up to be completed; an unknown handle, or one of another queue, is refused and changes nothing |
| `ServiceBusSqs.DecidedExactlyOnce` | runner/azure_runner.py:364-381 | Over any calls with fresh handles, a held message is decided on exactly once or is still held, and never again under its old handle |
| `SqsAgent.TheCallsAreARunOfTheAgent` | runner/azure_runner.py:356-381 | Whatever receives and deletes are made, on any queues: on each queue exactly the actions they are there, with what its pump does meanwhile, make a run of the pump and its agent, which decides on each message before it takes the next |
| `SqsAgent.NoCallBlocks` | runner/azure_runner.py:364-381 | No call of a reachable state blocks on its decision |
| `SqsAgent.NothingHeldOvertakes` | runner/azure_runner.py:367-373 | A message held under a handle has every earlier message of its session settled |
| `SqsAgent.AReceiveLeavesThenTakes` | runner/azure_runner.py:364-373 | Leaving what is held and then taking is what one receive does to the held messages |
| `SqsAgent.TakingIsTheReceive` | runner/azure_runner.py:370-373 | With nothing left held, the taking is that receive |
| `WireLaws.ChunksDoNotMatter` | runner/round5_fanin.py:2075-2088 | However a byte stream is cut into chunks, the client handles the same messages, each by its kind and body, up to the first failure, and ends in the same state as if it had come whole |
| `WireLaws.AStreamIsItsMessages` | runner/round5_fanin.py:2075-2088 | Whatever messages are framed and however their bytes arrive, the client handles exactly those, one by one and in order, up to the first that fails it |
| `WireLaws.FramesAreReadBack` | runner/round5_fanin.py:1808-1809 | A framed message at the head of a buffer is read back exactly: its kind, its body, and nothing of what follows |
| `WireLaws.ReadyOnlyAfterAFullExchange` | runner/round5_fanin.py:2135-2193 | Whatever bytes arrive, a client that becomes ready has verified TLS and accepted exactly the codes 3, 0 or 10, 11, 12, 0, the latter with a challenge that extends the client's own nonce with its iterations in bounds, and a final signature equal to the one that challenge and this account's password give |
| `Scram.NoNameForgesAField` | runner/round5_fanin.py:1874-1884 | Whatever the user name holds, its first message reads back as that name and the nonce and no other field |
| `Scram.EscapeRoundTrip` | runner/round5_fanin.py:1819-1820 | Escaping a name loses nothing and leaves no comma |
| `Scram.ScramFields` | runner/round5_fanin.py:1823-1830 | The loop over the items computes the fields, refusing an item with no equals sign and a repeated key |
| `Wire.PostgresClient.DataReceived` | runner/round5_fanin.py:1992-1996 | One chunk: it joins the buffer, and every whole message there is handled |
| `Wire.PostgresClient.ParseMessages` | runner/round5_fanin.py:2075-2088 | The loop handles every whole message in the buffer up to the first failure |
| `Wire.PostgresClient.HandleMessage` | runner/round5_fanin.py:2090-2126 | One message's effect on the client, by its kind |
| `Wire.PostgresClient.Authentication` | runner/round5_fanin.py:2135-2193 | One authentication message's effect, by its code and the exchange so far |
| `Admission.Follows` | runner/round5_fanin.py:355-411 | Counting on, with counters that start again at two and at three, gives what the longer history says with runs that never start again |
| `Admission.AdmissionController.ObserveCpu` | runner/round5_fanin.py:417-418 | After a CPU interval every field is the declarative function of the whole history: halved at every second consecutive pressured interval of a signal, up one step a lane at every third clean CPU interval, within its bounds |
| `Admission.AdmissionController.ObserveLoop` | runner/round5_fanin.py:413-415 | The same after a loop interval, which can halve and can hold recovery back but never counts towards it |
| `Admission.Concurrency` | runner/round5_fanin.py:344-350 | The concurrency stays between the floor and the ceiling for the lane count |
| `Wave.OpenEqualWave` | runner/round5_fanin.py:3217-3257 | Each lane creates exactly the smaller of the wave and what it lacks, one launch a connect; in the history of connects in flight, one entry after every launch and completion, each launch leaves at most the concurrency the controller gave when it was last read, at some point of the wave, however it moves meanwhile; at the end none is in flight |
| `Wave.FlightsKeepToTheCeiling` | runner/round5_fanin.py:3217-3257 | So no entry of that history exceeds the controller's ceiling |
| `Wave.TheRampEndsExactlyInLockstep` | runner/round5_fanin.py:4406-4425 | Lanes in lockstep finish after as many waves as their clients need; lanes out of lockstep never all finish |
| `Wave.AFinishedLaneEmptiesTheWave` | runner/round5_fanin.py:4409-4410 | Once one lane has finished, a wave changes nothing |
| `Wave.Ramp` | runner/round5_fanin.py:4406-4425 | The ramp loop of lanes in lockstep initiates every client, in the least number of waves |
| `Selector.BatchesCost` | runner/round5_fanin.py:1572-1590 | Draining q full batches of k and r over costs k q (q + 1) / 2 + r (q + 1) wakeups and one poll a batch |
| `Selector.DividedCost` | runner/round5_fanin.py:260-270 | When the cap divides the burst the wakeups are n (n / k + 1) / 2 |
| `Selector.WakeupsAreDeliveredPlusDeferred` | runner/round5_fanin.py:691-699 | Total wakeups are the events delivered plus the events deferred |
| `Selector.ACapOnlyAdds` | runner/round5_fanin.py:140-143 | A burst costs one wakeup an event exactly when no batch is cut short |
| `Selector.TheMeasuredAmplification` | runner/round5_fanin.py:140-143 | 1,024 descriptors drained 16 at a time cost 32.5 wakeups an event |
| `Selector.SelectorProbe.Select` | runner/round5_fanin.py:673-703 | One profiled select: what it delivers, defers and counts |
| `Selector.SelectorProbe.DrainBurst` | runner/round5_fanin.py:1594-1625 | Draining a burst select by select costs what the recurrence says |
| `Statistics.PercentileExceeds` | runner/round5_fanin.py:1797-1801 | A nearest-rank percentile exceeds a bound exactly when at least n - rank + 1 values do |
| `Statistics.PercentileIgnoresOrder` | runner/round5_fanin.py:1797-1801 | A percentile depends only on the multiset of values |
| `Statistics.P99IsTheMaximumBelowAHundred` | runner/round5_fanin.py:1797-1801 | Below a hundred samples the ninety-ninth percentile exceeds a bound exactly when some sample does |
| `Statistics.NoOutlierMovesP99BeyondItsNeighbours` | runner/round5_fanin.py:1797-1801 | From a hundred samples on the ninety-ninth percentile is the value of any one sample drawn into the span between two neighbouring ranks of the others: however far it lies, it moves no further |
| `Statistics.NoOutlierMovesP99FromAHundredOn` | runner/round5_fanin.py:1797-1801 | In particular no single value can raise it above a bound the others keep to |
| `Telemetry.TelemetrySummary.ObserveEventLoop` | runner/round5_fanin.py:2644-2681 | After every turn each window, peak, count and advisory is what the whole history of turns says |
| `Telemetry.AdvisedExactlyWhenEnoughLagsWereLarge` | runner/round5_fanin.py:2666-2673 | The pressure advisory has fired exactly when some window of n >= 100 lags held at least n - ceil(0.99 n) + 1 over the limit |
| `Telemetry.AWindowIsTheLatestThousand` | runner/round5_fanin.py:2631-2642 | A window holds the latest thousand lags, in order |
| `Aggregation.AnyOrderAggregatesAlike` | runner/round5_fanin.py:3687-3694 | The order in which the four workers' results come never matters, whether they combine or are refused |
| `Aggregation.VerifiedMeansEveryShardExact` | runner/round5_fanin.py:4176-4182 | A lane is verified exactly when every one of its shards is exact and verified itself |
| `Aggregation.TheRightTotalIsNotEnough` | runner/round5_fanin.py:4176-4182 | For every d, two shards off by d in opposite directions combine to the exact totals and to a lane that is not verified, though each shard calls itself verified |
| `Aggregation.ACombinedLaneKeptTheChronology` | runner/round5_fanin.py:3920-3942 | A lane that combines had every shard at its target between release and hold, held for HOLD_SECONDS and finished no sooner than that allows; it reports the slowest shard's time to target and the shortest hold |
| `Aggregation.MergedCodesAddUp` | runner/round5_fanin.py:4072-4077 | Over any list of codes, the merged counts add up to what the workers counted |
| `Aggregation.FailuresStayAccounted` | runner/round5_fanin.py:4072-4077 | When each worker's codes account for its failures, the lane's codes account for the lane's |

## Left out

- Network, TLS, database, cloud and file-system calls: their outcomes are parameters or nondeterministic steps. File writes do not fail; a crash can fall between any two.
- Hashes, HMAC, base64, text decoding, gzip and the client's proof: uninterpreted functions.
- Clocks: integers. Percentiles and lags are exact integers; the rounding of 0.99 n in floating point is not modelled.
- Diagnostics, journal lines, progress and milestone messages, profiling probes and evidence digests.
- The request validators, the run directory, cancel and progress files of the job registry, and the locks a child process might inherit.
- ChangeReduction.ReduceChanges: images are compared as values, so an image with a NaN score, unequal to itself in the source, is not modelled.
- Ledger.ApplyChanges: the time a row was written (`applied_at`) is not part of a row.
- Convergence.EveryRowIsTheHighestVersionDelivered: assumes one table ID, and that a batch mentioning a (key, version) carries all of that pair's rows, as one commit's rows in the feed do.
- LaneLaws.ASettledHoldHeldEveryClient: the sampling queries and observers of the hold are one flag of a shard's close, and the hold's cancellation by a towel is not modelled.
- Shard.StepKeepsBooks: the clean-up that cancels stray reconnects after a run is over is not a step of the machine.
- BarrierInv.StepInv: the workers, whose steps interleave, are values; their messages carry proofs without the run and worker identity that `ValidatedRampProof` checks, and the check of a result's time to target against its ramp proof is left out.
- SessionLaws.NothingOvertakes: session locks are not lost while a message is held, and settling a message does not fail; closing the queue hands its sessions to another runner and is not a step.
- SessionLaws.HandedOutAtMostThreeTimes: counts hand-outs by one runner's queue; a restarted runner counts afresh.
- Pump.ThePumpRefinesTheQueue: the pump's idle pause and the wait of the agent's poll are not modelled; a refusal raised by the queue leaves the queue as it was.
- Wire.PostgresClient.HandleMessage: the SSL request, the handshake and the startup packet come before this machine; the socket identity read at ready, and the lower-casing of an error's code, are left out.
- Admission.AdmissionController.ObserveCpu: the throttled time is not kept, and the refusal of a lane count below one is a precondition of the constructor.
- Wave.OpenEqualWave: a cancelled wave's pending connects are not modelled.
- Telemetry.TelemetrySummary.ObserveEventLoop: takes the percentile as a parameter, of which the nearest-rank one is an instance; host resources and their hard limits are not part of it.
- Aggregation.AnyOrderAggregatesAlike: one lane, the counts and times that decide it; the agreement of endpoint, credential and configuration digests, telemetry sums and latency samples are not modelled.
- The resident agent's database dispositions, the cleanup fence, the server, scripts, deployment and user interface.
