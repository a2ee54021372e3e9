# Batch inference console: a verified model of its coordination core

The system runs batch inference jobs. A job's row lives in SQL, its place in the queue, its lease and
its control signal live in Redis, its results are append-only files, and its token usage is charged
through an external gateway. Workers, API handlers, a billing sweep and a lease reaper all act on the
same job at the same time, and any of them may die between two steps. This project models that
coordination in Dafny and proves what it is for: usage is charged once, no job is lost, no item is
answered twice, limits and pins hold, and a user's cancel or pause is obeyed.

Code that updates fields in place is a class here, and each of its methods is proved equal to a
step function on values; what the system promises is then proved of those step functions over every
run and every interleaving. Where a promise fails, a lemma gives the exact condition under which it
holds, or a run in which it does not.

| file | part of the system |
|---|---|
| `TokenCounts.dfy` | the three usage counters |
| `Billing.dfy` | cutting usage into records: snapshot, compare-and-set on `billing_seq`, rebase |
| `Outbox.dfy` | sending records at least once to a gateway that deduplicates by request id |
| `Results.dfy` | the result files, the resume scan and the buffered writer |
| `Runs.dfy` | the runs of one job: dispatch, stop, crash, resume, completeness |
| `Charging.dfy` | runs, cuts and sends together: what is charged against what was produced |
| `Scores.dfy` | queue scores: order, inverse, pinned first |
| `RedisQueue.dfy`, `JobQueue.dfy` | the queue's Redis keys, as values and as the code updates them |
| `QueueSafety.dfy` | per-model limits and timed mutual exclusion over all operations |
| `Reordering.dfy` | the admin's reorder |
| `ClaimScan.dfy` | how a worker picks its next job |
| `Pins.dfy` | pin preemption |
| `Lifecycle.dfy` | one job's row, queue entry, lease, signal, worker and API calls: no job is lost |
| `JobControl.dfy` | the control handlers and the hand-back, as the code writes them |
| `HandBack.dfy` | the place preempted work comes back to |
| `RateLimiter.dfy` | the token buckets |
| `Jsonl.dfy` | validating and reading input files |
| `Upload.dfy` | from the uploaded file to its results |

The main results, one a line:

- Billing: `AnyInterleavingConserves`, `SettleThenRebaseIsSafe`, `SettleAllowsRebaseIff`.
- Sending: `AnyRunIsSafe`, `SuccessIsAbsorbing`, `AttemptsCountAnswers`, `SoftFailureWaits`, `LateRekeyIsHarmlessIff`.
- Resuming: `AnyRunsKeepInv`, `NothingSentTwice`, `FinishedMeansComplete`, `EndsWithTheLastStop`, `RunToEnd`.
- End to end: `NeverOvercharged`, `ChargedExactlyWhatIsOnDisk`, `CachedChargedExactly`, `SummaryAddsUp`.
- Queue: `LimitsAlwaysHold`, `TimelyRenewalExcludes`, `ReleasedStaysReleased`, `ClaimNext`, `UnlistedKeepTheirRank`, `PinnedStayAhead`.
- Pins: `PinIsEffectiveIff`, `PinUnderTheFences`.
- Life cycle: `NoJobLost`, `AttendedIff`, `RunningStopIsObeyed`, `UserWinsIff`, `PauseIsFinalIff`, `NothingLostAtTheDesk`, `HandedBackKeepsItsPlace`.
- Throttling and input: `SlidingWindow`, `Limiter.Acquire`, `ValidatedFileIterates`, `EveryLineHasItsResult`.

## Where the code falls short of its comments or promises

- `cut` says, when it loses its compare-and-set, that the difference is already in the other record
  (`backend/app/services/billing.py:137`). That is so only if the other cutter saw all of today's usage:
  `Billing.LostSettleLeavesUsageUncutIff`.
- `rebase` keeps the lock version, so a cut that straddles it still commits. `cut_before_change` guards
  against that exactly when every live snapshot reaches today's usage and, if there is nothing to cut, no
  snapshot is live: `Billing.SettleAllowsRebaseIff`, over everything other cutters may do in between. What
  happens otherwise: `Billing.ShortCutUnsettles`, `Billing.FallenCountersLetStaleCutCommit`.
- `rekey_failed` may write a key onto a record that a retry has claimed meanwhile. That sends one request id
  out under two keys exactly when the record is pending and another key was posted or read:
  `Outbox.LateRekeyIsHarmlessIff`.
- A file that passes validation can still stop the run: validation replaces undecodable bytes and the
  run does not. Exactly the all-UTF-8 files are safe: `Jsonl.ValidatedFileIterates`; a file that is not:
  `Jsonl.ValidatedFileCanStop`.
- `preempt_for` promises that the unpinned jobs on the model make way. It keeps that promise exactly when
  each of them that is past the check is within its reach as the pin commits (`Pins.PinIsEffectiveIff`). Out
  of reach are a job whose watcher is just then deleting an outdated signal, and a job stopped while a worker
  has it and its row still reads `queued` (`Pins.QueuedStopEscapes`); and a job that was pinned and is
  unpinned later is not told to make way (`Pins.UnpinBreaksIff`, `Pins.UnpinnedLaterEscapes`).
- A worker runs a job it finds `paused`, so a pause is final exactly when neither Redis nor a worker will bring
  the job back: no queue entry, no lease, and no worker but one whose hand-back has not read the row yet or has
  already read the user's wish (`Lifecycle.PauseIsFinalIff`). It is undone in two ways: a worker dies between
  finalize and release and leaves a lease behind (`Lifecycle.CrashUndoesPause`); or, with nobody dying, the
  pause comes while a worker hands the job back (`Lifecycle.HandBackUndoesPause`). A cancel is final, unless a
  worker has read the row before (`Lifecycle.CancelIsFinal`).
- `requeue_preempted` says that a cancel or pause made during the hand-back wins. One that has read `running`
  does; one that reads `queued` settles the row and clears its own signal, and if that happens between the two
  reads of the hand-back, the job is queued again: `Lifecycle.UserWinsIff`, `Lifecycle.QueuedStopIsOverridden`.
- A stop that has read `running` counts on the worker. If the worker has let go of the job when the stop
  removes it, the job is left queued or running with nobody to see to it, and the signal is never read:
  `Lifecycle.StepLosesIff` lists exactly the steps that do this, `Lifecycle.LateStopLoses` is a run without
  a death.
- `acquire` never returns for an estimate above the token bucket (`RateLimiter.MetSomeTimeIff`).

## Model

| member | source | states |
|---|---|---|
| Billing.CommitPreservesInv | backend/app/services/billing.py:124-156 | a compare-and-set, won or lost, keeps records numbered 1..billing_seq, billed = base + records, cached <= prompt, and every snapshot dead or current |
| Billing.StepPreservesInv | backend/app/services/billing.py:93-172 | the same for every step: counter change up or down, snapshot, commit, abandon, guarded rebase |
| Billing.AnyInterleavingConserves | backend/app/services/billing.py:105-156 | over any interleaving by any number of cutters the epoch is conserved on all three counters, and billed prompt/completion is the larger of base and the highest usage a committed cut saw |
| Billing.RecordsOnlyGrow | backend/app/services/billing.py:125-155 | records are append-only; without a rebase nothing billed is taken back |
| Billing.SettlingRun | backend/app/services/billing.py:164-172 | while others cut, either the settling snapshot stays live or somebody's commit has settled everything |
| Billing.SettleThenRebaseIsSafe | backend/app/services/billing.py:164-172 | if every live snapshot reaches today's usage, and none is live when there is nothing to cut: whatever others do during the settle and between it and the rebase, all usage is billed, no stale cut can commit afterwards, and the rebase keeps the ledger sound |
| Billing.SettleAllowsRebaseIff | backend/app/services/billing.py:164-172 | that condition is exact: a settle leaves nothing uncut and no stale cut alive, over everything the other cutters may do in between, iff it holds |
| Billing.ShortCutUnsettles | backend/app/services/billing.py:136-139 | a live snapshot that saw less, committed in between, defeats the settle |
| Billing.LoneSettleAllowsRebaseIff | backend/app/services/billing.py:93-102 | if nobody interferes, the rebase is safe iff the settle had something to cut or no snapshot was live |
| Billing.DeadCutStaysDead | backend/app/services/billing.py:125-139 | a snapshot with an old lock version can never commit |
| Billing.StraddlingCutConservesIff | backend/app/services/billing.py:93-102 | a cut across a rebase keeps the new epoch conserved iff the rebase moved nothing |
| Billing.LostSettleLeavesUsageUncutIff | backend/app/services/billing.py:136-139 | a lost compare-and-set leaves usage uncut iff the winner saw less than there is now |
| Billing.FallenCountersLetStaleCutCommit | backend/app/services/billing.py:116-121 | a run in which fallen counters let an old snapshot commit after the rebase, under the old model |
| Billing.JobBilling.constructor | backend/app/services/billing.py:93-102 | a new job's ledger satisfies the invariant |
| Billing.JobBilling.ReportUsage | backend/app/worker/runner.py:266-285 | the runner's flush replaces the counters and nothing else |
| Billing.JobBilling.ReadRow | backend/app/services/billing.py:110-121 | first half of a cut: snapshot iff enabled and prompt or completion has grown |
| Billing.JobBilling.CompareAndSet | backend/app/services/billing.py:124-156 | second half: refines the commit step; a record iff the lock version is unchanged |
| Billing.JobBilling.Cut | backend/app/services/billing.py:105-156 | an uninterrupted cut bills exactly the difference, numbers its record next, and leaves nothing to cut |
| Billing.JobBilling.Rebase | backend/app/services/billing.py:93-102 | moves the origin to the current usage, lock version unchanged |
| Billing.JobBilling.CutBeforeChange | backend/app/services/billing.py:164-172 | uninterrupted, from any sound ledger: old usage is on one record under the old model name and the new origin is the current usage; no snapshot is live afterwards, and so the ledger stays sound, iff there was something to cut or none was live before |
| Outbox.ClaimPreserves | backend/app/services/billing.py:257-271 | claiming keeps one send per record in flight and stable payloads |
| Outbox.PostPreserves | backend/app/services/billing.py:284-299 | posting keeps at most one charge per request id, with the record's tokens, and never removes a charge |
| Outbox.CommitPreserves | backend/app/services/billing.py:301-325 | writing the answer back keeps succeeded => charged |
| Outbox.PostKeepsSends | backend/app/services/billing.py:284-299 | posting leaves every other send sound, and an answered success is charged |
| Outbox.StepPreservesInv | backend/app/services/billing.py:257-328 | every step within the in-flight window keeps the outbox invariant |
| Outbox.AnyRunIsSafe | backend/app/services/billing.py:257-328 | over concurrent sweeps, settles, retries and crashes: one send per record, each request id charged at most once with its own tokens, identical payload between rejections |
| Outbox.CommitMeans | backend/app/services/billing.py:301-325 | an answer counts the attempt; a charge settles the record, a rejection fails it, and after a soft failure it stays pending for 10, 20, 40, ... at most 600 s, by attempts; no other record changes |
| Outbox.AttemptsCountAnswers | backend/app/services/billing.py:301 | over every run a record's attempts are exactly the answers written back to it |
| Outbox.FiveSoftFailuresAreReported | backend/app/services/billing.py:466-478 | a record answered five times and still pending is one a settle reports |
| Outbox.SoftFailureWaits | backend/app/services/billing.py:253-271 | after a soft failure nobody can claim the record for 10 s over any run, and after 600 s it can be claimed if nobody has |
| Outbox.ClaimKeepsOthersAway | backend/app/services/billing.py:257-271 | a succeeded record is never claimed, a failed one on request only; a claim keeps others away for exactly 120 s |
| Outbox.AppendMeans | backend/app/services/billing.py:142-155 | a new record starts pending, with no attempt, and can be claimed at once |
| Outbox.RekeyMeans | backend/app/services/billing.py:410-431 | a rekey reads rejected records only and changes nothing but the key |
| Outbox.StepKeepsSuccess | backend/app/services/billing.py:301-325 | no step takes a success, a charge or a record's tokens back |
| Outbox.SuccessIsAbsorbing | backend/app/services/billing.py:302-311 | succeeded stays succeeded, charges stay, a record's tokens and model never change |
| Outbox.LateRekeyIsHarmlessIff | backend/app/services/billing.py:410-431 | no continuation after a late key write sends the record out under two keys without a rejection between, iff the row is not pending with another key already posted or read; a failed or succeeded row is safe |
| Outbox.HarmlessWrite | backend/app/services/billing.py:410-431 | the safe half, continuation by continuation |
| Outbox.LateKeyGoesOutToo | backend/app/services/billing.py:257-328 | the other half: the continuation that posts the second key |
| Outbox.PeaceLasts | backend/app/services/billing.py:257-271 | a succeeded record nobody is sending is never posted again, over any run |
| Outbox.LateRekeyRace | backend/app/services/billing.py:415-430 | a legal run but for the late write, in which one request id is posted under two keys with no rejection between |
| Outbox.OverrunUndoesSuccess | backend/app/services/billing.py:262-271 | a send that overruns the 120 s window can turn a charged record into a rejected one |
| Outbox.BackoffBounds | backend/app/services/billing.py:253-254 | the delay starts at 10 s or more, never shrinks, and is 600 s exactly from the seventh attempt |
| Outbox.UninterruptedSend | backend/app/services/billing.py:274-328 | claim, load, post and commit in a row settle this record by its answer, keep the invariant and touch no other |
| Outbox.SendMeans | backend/app/services/billing.py:284-325 | by the reply: no endpoint, no connection or no answer leaves the record pending with one attempt more and its delay; no key or a refusal fails it; acceptance succeeds |
| Outbox.RecordStore.ClaimRecord | backend/app/services/billing.py:257-271 | refines the claim step; succeeds iff the record is due in an allowed status |
| Outbox.RecordStore.LoadRecord | backend/app/services/billing.py:284-289 | refines the reading of the row: the key that will go out is fixed here |
| Outbox.RecordStore.PostRecord | backend/app/services/billing.py:299 | refines the post step |
| Outbox.RecordStore.CommitRecord | backend/app/services/billing.py:301-325 | refines the commit step |
| Outbox.RecordStore.SendOne | backend/app/services/billing.py:274-328 | a whole send: this record settled by its answer, no other touched, invariant kept |
| Outbox.RecordStore.SendAll | backend/app/services/billing.py:456-464 | every due record up to the first rejection is sent exactly once, no other is touched |
| Outbox.RecordStore.FindStuck | backend/app/services/billing.py:466-478 | finds a pending record with 5 or more attempts iff there is one |
| Outbox.RecordStore.SettleJob | backend/app/services/billing.py:434-484 | counts what it sent; reports the first rejection, else a record pending after five attempts, else nothing wrong; a fifth soft failure never goes unreported |
| Results.ScanFileMeaning | backend/app/services/results.py:57-80 | a file adds as many results as it brings new indices; failed lines add no tokens |
| Results.ScanFileTokens | backend/app/services/results.py:77-80 | if no index repeats, a success file adds the plain sum of its lines' usage |
| Results.ScanMeaning | backend/app/services/results.py:52-82 | done set and counters in terms of the two files' indices; without repeats the tokens are the plain sum of the usage on the success lines |
| Results.ScanAppendError | backend/app/services/results.py:112-128 | one more failed line changes a rescan by exactly that failure |
| Results.ScanAppendSuccess | backend/app/services/results.py:95-110 | one more success line with a new index changes a rescan by exactly that result |
| Results.UniqueMeaning | backend/app/services/results.py:70-72 | no duplicates, stated on positions |
| Results.ScanLines | backend/app/services/results.py:60-80 | the loop over one file computes the scan function |
| Results.ScanResumeState | backend/app/services/results.py:52-82 | success file first, then error file |
| Results.ResultWriter.Flush | backend/app/services/results.py:130-140 | the buffers move to disk in order; nothing accepted is lost or changed |
| Results.ResultWriter.WriteSuccess | backend/app/services/results.py:95-110 | one line accepted; the disk changes iff the buffer is full |
| Results.ResultWriter.WriteFailure | backend/app/services/results.py:112-128 | likewise for a failed line |
| Runs.CreateSound | backend/app/worker/runner.py:217-225 | creating a task keeps at most 4 x concurrency unfinished ones |
| Runs.SendSound | backend/app/worker/runner.py:179-184 | a task past the semaphore keeps at most `concurrency` requests in flight, none twice |
| Runs.SuccessPreserves | backend/app/worker/runner.py:198-208 | a recorded success keeps the run invariant |
| Runs.FailurePreserves | backend/app/worker/runner.py:185-197 | a recorded failure keeps the run invariant |
| Runs.CrashPreserves | backend/app/worker/runner.py:145-152 | losing the buffer leaves a duplicate-free log |
| Runs.StepPreservesInv | backend/app/worker/runner.py:93-238 | every step of a run keeps: no index twice, counters = rescan of disk plus buffer, dispatch bounds |
| Runs.AnyRunsKeepInv | backend/app/worker/runner.py:62-152 | the same over any sequence of runs, stops and crashes |
| Runs.NothingSentTwice | backend/app/worker/runner.py:93-100 | in a run, no item already on disk is sent and none is sent twice; files only grow |
| Runs.EveryItemRecorded | backend/app/worker/runner.py:229-233 | an unstopped end means every index 0..total-1 has a result, by counting |
| Runs.FinishedMeansComplete | backend/app/worker/runner.py:124 | succeeded/completed: exactly one result per item on disk, completed + failed = total, succeeded iff none failed |
| Runs.StoppedMeansIncomplete | backend/app/worker/runner.py:231-233 | after the last item, the run ends stopped iff some item has no result |
| Runs.EndsWithTheLastStop | backend/app/worker/runner.py:212-233 | a run broken off, or at its end with items missing, ends with the stop asked for last, read off the steps of the run; without a stop it ends neither way |
| Runs.ItemsComplete | backend/app/worker/runner.py:168-238 | an undisturbed run over what is left completes the files with each item's own answer |
| Runs.JobRunner.Resume | backend/app/worker/runner.py:92-98 | the run takes over exactly what the rescan says |
| Runs.JobRunner.NextItem | backend/app/worker/runner.py:211-220 | refines the dispatch step |
| Runs.JobRunner.SendRequest | backend/app/worker/runner.py:179-184 | refines the step through the semaphore |
| Runs.JobRunner.RequestStop | backend/app/worker/runner.py:301-311 | refines the stop request |
| Runs.JobRunner.RecordSuccess | backend/app/worker/runner.py:202-208 | refines the success step, line and counters together, with the writer's flush when its buffer is full |
| Runs.JobRunner.RecordFailure | backend/app/worker/runner.py:185-191 | refines the failure step likewise |
| Runs.JobRunner.EndDispatch | backend/app/worker/runner.py:229-238 | refines the end of a run: decides the status, flushes, forgets the run |
| Runs.JobRunner.RunToEnd | backend/app/worker/runner.py:62-152 | a whole undisturbed run ends with exactly one result per item, each its answer's line |
| Charging.EpochBegins | backend/app/api/jobs.py:1000-1012 | any rebase that meets no live snapshot, run or no run, establishes the end-to-end invariant, whatever the row's counters say |
| Charging.EpochBeginsWithRun | backend/app/worker/runner.py:350-360 | a run's own rebase, after the rescan, starts an epoch without a crash and with cached tokens tracked |
| Charging.ProducedGrows | backend/app/worker/runner.py:202-208 | without a crash the usage of the result lines grows by each success and by nothing else |
| Charging.CountersKeepUp | backend/app/worker/runner.py:93-98 | the runner's token counters equal the plain sum of usage over all result lines, at every step |
| Charging.StepPreservesInv | backend/app/worker/runner.py:266-287 | runs, counter reads and writes, cuts and sends in any order, flushes landing out of order included, keep counters, ledger and outbox in agreement |
| Charging.AnyRunKeepsInv | backend/app/worker/runner.py:317-342 | the same over any run of the whole system |
| Charging.GatewayAgrees | backend/app/services/billing.py:284-299 | the gateway's ledger sums to the charged records' tokens |
| Charging.ChargedAtMostCut | backend/app/services/billing.py:142-155 | charged is at most what was cut, and equal once every record is charged |
| Charging.NeverOvercharged | backend/app/services/billing.py:105-156 | base plus everything charged never exceeds the job's usage high-water mark, on all three counters |
| Charging.ChargedExactlyWhatIsOnDisk | backend/app/services/billing.py:487-490 | at rest and without a crash, base plus everything charged is exactly the summed prompt and completion usage of the result lines on disk |
| Charging.CommitTakesUsage | backend/app/services/billing.py:118-132 | a cut whose snapshot is comparable with what is billed bills exactly the snapshot, cached tokens included |
| Charging.CachedChargedExactly | backend/app/services/billing.py:122 | and of the cached tokens too, if no answer has more cached than prompt tokens: then no cut caps them, even if flushes land out of order |
| Charging.StatusesPartition | backend/app/services/billing.py:545-570 | succeeded, pending and failed rows sum to all records |
| Charging.RowGrows | backend/app/services/billing.py:545-563 | a row takes in exactly the records of its status |
| Charging.SucceededRowIsCharged | backend/app/services/billing.py:568 | the succeeded row is at most what the gateway has charged, and equal unless a charge is not recorded yet |
| Charging.SummaryAddsUp | backend/app/services/billing.py:543-576 | over the records of all epochs: succeeded + pending + failed + shown as unbilled is what earlier epochs cut plus this epoch's usage above its origin, or what is billed while billing is off |
| Scores.ScoreOrderIsLexicographic | backend/app/services/queue.py:175-178 | score order is exactly: pinned by pin time, then priority, then time |
| Scores.PriorityOfInvertsScore | backend/app/services/queue.py:180-183 | `priority_of` inverts `_score` for unpinned jobs, and gives 0 for pinned ones |
| Scores.PriorityOfIsMonotone | backend/app/services/queue.py:180-183 | a higher score never means a lower priority number |
| Scores.PinnedStayAhead | backend/app/services/queue.py:186-199 | over any run of enqueue, rescore and remove, pinned stay ahead and each class keeps its order |
| RedisQueue.ReapEffect | backend/app/services/queue.py:97-111 | exactly the expired jobs lose lease and owner and are queued; running sets are untouched |
| JobQueue.JobQueue.Enqueue | backend/app/services/queue.py:186-190 | one score set, all others unchanged |
| JobQueue.JobQueue.Rescore | backend/app/services/queue.py:192-199 | only a queued job gets the new score; reports whether it is queued |
| JobQueue.JobQueue.ClaimJob | backend/app/services/queue.py:40-63 | the counting and pruning loop and the move refine the claim function |
| RedisQueue.ClaimAnswer | backend/app/services/queue.py:40-55 | a claim succeeds for a queued job iff there is no limit or fewer jobs than that run on the model under a lease |
| RedisQueue.ClaimTakes | backend/app/services/queue.py:56-63 | a successful claim moves the job from the queue to this worker's lease until that time and counts it on its model |
| RedisQueue.ClaimLeaves | backend/app/services/queue.py:43-55 | an unsuccessful claim changes no key but the model's running set, and none changes another model's |
| RedisQueue.DropEffect | backend/app/services/queue.py:226-237 | after a drop the job has no lease, owner, model entry or slot, it leaves the queue exactly if asked to, and nothing else changes |
| RedisQueue.RenewEffect | backend/app/services/queue.py:265-267 | a renewal sets this lease only |
| RedisQueue.ReapScores | backend/app/services/queue.py:104-109 | reaped jobs line up in the order of the listing; no other score changes |
| JobQueue.JobQueue.DropJob | backend/app/services/queue.py:226-237 | refines the drop |
| JobQueue.JobQueue.ExpiredLeases | backend/app/services/queue.py:104 | lists exactly the expired leases, oldest first |
| JobQueue.JobQueue.ReapExpired | backend/app/services/queue.py:272-289 | refines the reap function with priority-0 scores in lease order |
| JobQueue.JobQueue.Reorder | backend/app/services/queue.py:77-94 | reads all, then writes all, or changes nothing |
| QueueSafety.ClaimKeepsLimits | backend/app/services/queue.py:43-62 | a claim keeps every model's running set within its limit |
| QueueSafety.ClaimKeepsActive | backend/app/services/queue.py:45-51 | pruning never drops a job that still has its lease |
| QueueSafety.DropKeepsLimits | backend/app/services/queue.py:226-237 | dropping keeps limits and the accounting of active jobs |
| QueueSafety.LimitsAlwaysHold | backend/app/services/queue.py:28-64 | over any sequence of operations, late renewals included, running sets and active jobs stay within the limit |
| QueueSafety.ReapKeepsExclusion | backend/app/services/queue.py:97-111 | reaping the expired never takes a live holder's job |
| QueueSafety.StepKeepsClaimsPaid | backend/app/services/queue.py:56-63 | each insertion yields at most one claim |
| QueueSafety.TimelyRenewalExcludes | backend/app/worker/main.py:184-203 | with timely renewal, queued and held are disjoint and no job has two live holders, over every run |
| QueueSafety.ReleasedStaysReleased | backend/app/services/queue.py:269-270 | over every run after a release, until somebody enqueues the job again, no reap lists it, it is not queued and nobody claims it |
| QueueSafety.ReapKeepsExclusionIff | backend/app/services/queue.py:97-111 | reaping keeps exclusion iff no live holder's lease has run out |
| Reordering.SortedIsAscending | backend/app/services/queue.py:87 | the sort is an ascending permutation |
| Reordering.AssignEffect | backend/app/services/queue.py:89-92 | listed jobs get their place's score, others keep theirs |
| Reordering.ReorderPermutesScores | backend/app/services/queue.py:77-94 | all or nothing; the listed jobs' scores are permuted, ascending along the request |
| Reordering.RankCountsJobsAhead | backend/app/services/queue.py:239-241 | with distinct scores a rank is the number of jobs ahead |
| Reordering.ScoreRanksMove | backend/app/services/queue.py:87-92 | ranks among scores, ties or not: unlisted jobs keep theirs, listed jobs take over listed jobs' |
| Reordering.ReorderKeepsDistinct | backend/app/services/queue.py:87-92 | distinct scores stay distinct |
| Reordering.UnlistedKeepTheirRank | backend/app/api/jobs.py:614-616 | with distinct scores, as many jobs are ahead of an unlisted job after the reorder as before, and the listed jobs share out exactly the places they had |
| Reordering.RequestedOrderIsReached | backend/app/api/jobs.py:636-638 | distinct scores give the strict requested order; priorities written back never decrease along it |
| ClaimScan.JobLimitFor | backend/app/services/model_limits.py:16-24 | the loop finds the first matching rule's limit |
| ClaimScan.FirstMatchDecides | backend/app/services/model_limits.py:16-24 | the limit is that of the first matching rule, and 0 iff no rule binds |
| ClaimScan.NaiveScanFindsFirst | backend/app/worker/main.py:136-147 | the naive scan finds the first claimable job, nothing iff there is none |
| ClaimScan.NaiveScanIsFirstFree | backend/app/worker/main.py:136-147 | the scan finds the first job of the first 2000 whose model nobody has pinned, or that is pinned itself, and whose model has room; nothing iff there is none |
| ClaimScan.PinsAreKept | backend/app/worker/main.py:140-141 | a job on a model that others have pinned is never taken |
| ClaimScan.AttemptAsAtTheStart | backend/app/worker/main.py:142-146 | failed attempts prune only, so a later attempt decides as it would have at the start |
| ClaimScan.ScanPage | backend/app/worker/main.py:136-146 | one page with the memo of blocked models equals the naive scan of that page |
| ClaimScan.ClaimNext | backend/app/worker/main.py:117-147 | the paged scan with its memo takes exactly that first free job and no other, and never one kept out by a pin |
| Pins.StepKeepsVisible | backend/app/worker/runner.py:290-313 | under the fences a job at work is registered and leased, or a user's stop waits for it |
| Pins.StepPreservesInv | backend/app/services/pins.py:50-85 | every step keeps each unsignalled job past the check owed a signal by the pinner |
| Pins.CommitEstablishesInv | backend/app/api/jobs.py:650-659 | the pin's commit sets that debt up, if the pinner can reach every unpinned job past the check |
| Pins.PinIsEffective | backend/app/services/pins.py:50-85 | from such a commit, once preemption is done every job past the check that was never pinned is signalled, and a late starter fails the check |
| Pins.UnreachedJobEscapes | backend/app/services/pins.py:61-83 | a job the pinner cannot reach (not found, found without a lease, or its signal about to be deleted) runs on |
| Pins.PinIsEffectiveIff | backend/app/services/pins.py:50-85 | from any state at all, the promise holds over all continuations iff the pinner can reach every unpinned job past the check |
| Pins.OnlyStaleClearsAreUnsafe | backend/app/worker/runner.py:307-313 | under the fences that fails only through a watcher about to delete an outdated signal |
| Pins.PinUnderTheFences | backend/app/services/pins.py:50-85 | after any fenced history without such a watcher, the pin keeps its promise over every continuation |
| Pins.QueuedStopEscapes | backend/app/api/jobs.py:895-899 | a stop that finds the row still queued while a worker has the job takes registration, lease and its own signal away, and the job runs on beside a pin |
| Pins.QueuedStopIsHarmlessIff | backend/app/api/jobs.py:870-876 | such a stop keeps the jobs at work visible iff no worker has the job |
| Pins.PinIsEffectiveNowIff | backend/app/services/pins.py:70-77 | for every job not pinned now, over continuations without an unpin, under the same exact condition |
| Pins.UnpinBreaksIff | backend/app/api/jobs.py:666-678 | one unpin then breaks it iff it unpins a job at work without a signal |
| Pins.UnpinnedLaterEscapes | backend/app/services/pins.py:70-77 | whenever a pinned job is at work unsignalled, another pin spares it and an unpin leaves it running beside that pin |
| Pins.WatcherDecides | backend/app/worker/runner.py:296-313 | a cancel or pause ends the job; a requeue ends it iff another job's pin blocks the model, and is deleted if none does |
| Pins.CheckDecides | backend/app/services/pins.py:41-47 | the check before the start turns a job away iff some pin blocks the model and the job is not itself such a job |
| Pins.NoPinNoPreemption | backend/app/worker/runner.py:307-313 | over every run without a pin a requeue signal, however old, ends no job |
| Pins.SignalBoard.SignalIfAbsent | backend/app/services/queue.py:292-297 | a signal already there is not replaced |
| Pins.SignalBoard.PreemptFor | backend/app/services/pins.py:50-85 | exactly the leased unpinned others are signalled; existing signals stand |
| Pins.PinnedModels | backend/app/services/pins.py:25-38 | the dictionary holds exactly the models with a pinned job, with exactly those jobs |
| Lifecycle.WorkKeepsInv | backend/app/worker/runner.py:62-152 | worker steps up to the end of the run keep the life-cycle invariant and lose no job |
| Lifecycle.DepartureKeepsInv | backend/app/worker/main.py:149-169 | release, hand-back, renewal and death keep the invariant; all but death lose no job |
| Lifecycle.CallsKeepInv | backend/app/api/jobs.py:856-964 | cancel, pause, resume, retry, new priority and delete keep it, step by step |
| Lifecycle.StepLosesIff | backend/app/api/jobs.py:863-900 | an attended job is lost by exactly three kinds of step: the death of a worker without a lease, the death of the API when only its call is about the job, and the removal by a stop that read running when no worker has the job |
| Lifecycle.NoJobLost | backend/app/worker/main.py:149-169 | from creation on, over every run with deaths anywhere, a queued or running job is attended to all along iff none of those steps occurs; and a claim never meets a live holder |
| Lifecycle.AttendedIff | backend/app/worker/main.py:149-169 | attended (queued, leased, held, or in a call about to act) means exactly that some continuation without a new call runs or settles the job |
| Lifecycle.StrandedStays | backend/app/api/jobs.py:863-879 | a job that is not attended keeps its status over every continuation without a new call |
| Lifecycle.RunningStopIsObeyed | backend/app/worker/runner.py:301-306 | once its watcher has seen a cancel, a running job is let go canceled, once it has seen a pause, paused, off the queue and without a lease, over every continuation in which it does not finish or fail first |
| Lifecycle.RunningStopEnds | backend/app/worker/runner.py:476-497 | and the worker's next four steps get there, with the signal cleared |
| Lifecycle.MakesWayForPin | backend/app/worker/runner.py:307-311 | once its watcher has seen a requeue while a pin blocks it, or the check before the start has turned it away, a job is let go queued and in the queue |
| Lifecycle.OutdatedRequeueEndsNothing | backend/app/worker/runner.py:312-313 | without a pin in the way the watcher deletes the requeue signal and the job runs on |
| Lifecycle.PreemptSignalsOnce | backend/app/services/queue.py:292-297 | the pinner signals a job without a signal and replaces none |
| Lifecycle.OtherEnds | backend/app/worker/runner.py:124-151 | completion, failure and a bill that fails before the start leave finished, failed and paused, without signal or lease |
| Lifecycle.BillingPauses | backend/app/worker/runner.py:326-331 | a bill that fails during the run pauses the job |
| Lifecycle.LoadSkipsExactly | backend/app/worker/runner.py:63-70 | right after the claim a worker lets go exactly of canceled, finished and deleted jobs |
| Lifecycle.UserWins | backend/app/services/pins.py:110-129 | a cancel or pause written before the hand-back read, by a stop that is over or has read running, decides the final status; no requeue replaces it |
| Lifecycle.UserWinsIff | backend/app/services/pins.py:116-129 | for a stop that meets the hand-back before its read: the wish is kept over every continuation iff the stop has read running |
| Lifecycle.QueuedStopIsOverridden | backend/app/api/jobs.py:895-899 | otherwise a continuation leaves the job paused or canceled in its row and queued in Redis |
| Lifecycle.CrashLosesIff | backend/app/worker/main.py:161-169 | a worker's death loses its queued or running job iff the job has no lease and no call is about to act; a signal does not help |
| Lifecycle.StopOfClaimedJobLoses | backend/app/api/jobs.py:863-876 | stopping a claimed job that still reads queued, then a crash before renewal, loses the job |
| Lifecycle.LateStopLoses | backend/app/api/jobs.py:882-900 | a stop that read running and removes the job after a complete hand-back loses it, nobody dying |
| Lifecycle.EarlyResumeBreaksOneHolder | backend/app/api/jobs.py:952-958 | a resume between finalize and release queues a job that still has a holder |
| Lifecycle.DroppedStopLoses | backend/app/services/pins.py:119-129 | a stop written while the hand-back deletes the old signal is lost with the job |
| Lifecycle.OverlappingResumeLoses | backend/app/api/jobs.py:863-879 | a resume between a cancel's signal and its removal is undone by the removal, and the job is lost |
| Lifecycle.ClaimDuringStopLoses | backend/app/api/jobs.py:889-899 | a claim between the steps of a stop that read queued, then a crash, loses the job |
| Lifecycle.PauseIsFinalIff | backend/app/worker/runner.py:68-70 | with no call at it, whatever worker has it, a paused job stays stopped over every continuation without a call iff it has no queue entry, no lease, and no worker that will bring it back |
| Lifecycle.HandBackUndoesPause | backend/app/services/pins.py:116-129 | a pause made during the hand-back is undone without a death and without a further call: the job runs |
| Lifecycle.CancelIsFinal | backend/app/worker/runner.py:68-70 | a canceled job never runs again without a call, unless a worker has read its row before |
| Lifecycle.CrashUndoesPause | backend/app/worker/main.py:152-158 | a worker's death between finalize and release leaves such a lease |
| JobControl.ServedIsALegalRun | backend/app/api/jobs.py:856-1062 | what the desk does for a job is a legal run of the life cycle's single steps: stop, resume, retry, new priority, delete and hand-back |
| JobControl.TurnLosesIff | backend/app/api/jobs.py:856-900 | of all requests, exactly a stop of a job that runs by its row, with no worker at it and none found gone, leaves the job to nobody |
| JobControl.NothingLostAtTheDesk | backend/app/api/jobs.py:787-1062 | over any sequence of requests, with any worker, pinner and reaper steps between, the job is never both queued and held, and it is attended to all along iff no such stop and no death without a lease occurs |
| JobControl.AcceptedExactly | backend/app/api/jobs.py:859-945 | which request is accepted in which status, status by status |
| JobControl.ResultsWrittenOut | backend/app/api/jobs.py:863-1062 | row, queue entry, lease and signal after each request, written out |
| JobControl.RowsAfterStop | backend/app/api/jobs.py:840-876 | a canceled row is finished and unpinned, a paused one keeps its pin, an orphan has no worker and the larger counts |
| JobControl.RowBackInLine | backend/app/api/jobs.py:952-957 | a resumed row is queued from now on and keeps pin, priority and counts |
| JobControl.Desk.EnqueueJob | backend/app/services/pins.py:95-107 | pinned by pin time, handed back by its old time, others by now |
| JobControl.Desk.CancelJob | backend/app/api/jobs.py:856-879 | serves the stop; an orphan also gets the larger progress counts and no worker |
| JobControl.Desk.PauseJob | backend/app/api/jobs.py:882-938 | serves the stop, and says whether the job is paused already |
| JobControl.Desk.PauseAll | backend/app/api/jobs.py:903-927 | each queued or running job is paused once in any order, orphans with the larger progress counts, no other is touched, and the counts are right |
| JobControl.PauseAllLeaves | backend/app/api/jobs.py:903-927 | afterwards no job is queued, each running one has its signal and no queue entry, and an attended job is lost exactly if it ran by its row with no worker at it |
| JobControl.Desk.ResumeJob | backend/app/api/jobs.py:941-964 | serves the resume, placed by now or by its pin, and says whether others must make way |
| JobControl.Desk.RetryFailed | backend/app/api/jobs.py:1018-1045 | serves the retry, failures cleared |
| JobControl.Desk.PatchPriority | backend/app/api/jobs.py:787-808 | serves the new priority |
| JobControl.Desk.DeleteJob | backend/app/api/jobs.py:1048-1062 | serves the delete |
| JobControl.Desk.RequeuePreempted | backend/app/services/pins.py:110-129 | serves the hand-back, at the old place |
| HandBack.HandedBackKeepsItsPlace | backend/app/services/pins.py:95-107 | a handed-back job is ahead of every later arrival of its priority, over any run |
| HandBack.EnqueueIsArrival | backend/app/services/pins.py:95-107 | a row is enqueued where the line has its job: at its old place when handed back, at the clock's time when it enters |
| HandBack.RowKeepsItsPlace | backend/app/services/pins.py:103-107 | of two unpinned rows of one priority, the one queued earlier goes ahead when handed back, however the other comes in |
| HandBack.PinnedRowsFirst | backend/app/services/pins.py:101-107 | a pinned row goes by its pin's time, ahead of every unpinned one |
| RateLimiter.NothingFromNowhere | backend/app/services/inference.py:72-94 | admitted plus left is at most start plus earned, in requests and tokens; balances stay in range |
| RateLimiter.WindowFrom | backend/app/services/inference.py:72-94 | from any state the limiter can be in, a window admits at most one full bucket plus what it earns |
| RateLimiter.SlidingWindow | backend/app/services/inference.py:61-100 | in any window the admitted number at most one full bucket plus the rate times its length |
| RateLimiter.RequestsAreConserved | backend/app/services/inference.py:72-94 | while the bucket does not run over, requests let through plus requests left are exactly what was there plus what was earned |
| RateLimiter.TokensAreConserved | backend/app/services/inference.py:72-94 | the same for tokens: a turn let through costs its estimate, one sent away nothing |
| RateLimiter.MetSomeTimeIff | backend/app/services/inference.py:84-94 | some turn admits the request iff it fits the token bucket |
| RateLimiter.NapHelps | backend/app/services/inference.py:95-100 | every second slept is a second less to wait |
| RateLimiter.DeficitIsExact | backend/app/services/inference.py:95-99 | with nobody else at the bucket, the request is let through after exactly the deficit, and not before |
| RateLimiter.Limiter.TryAcquire | backend/app/services/inference.py:85-100 | one pass refines the attempt; the nap is the deficit, at least 0.05 s and at most 5 s |
| RateLimiter.Limiter.Acquire | backend/app/services/inference.py:81-100 | alone, it returns after at most 12 naps, fewer for a smaller deficit, admitted at the time it leaves |
| Jsonl.NormalizedIsRequest | backend/app/services/jsonl.py:66-73 | every item has a non-empty list of messages with role and content, and its own index |
| Jsonl.AcceptedExactly | backend/app/services/jsonl.py:47-73 | by form: a body object, else messages, else a text prompt; when each is accepted, and the exact request it makes |
| Jsonl.RejectedBecause | backend/app/services/jsonl.py:42-64 | the reason given for a line without any of the three forms |
| Jsonl.MessagesAreChecked | backend/app/services/jsonl.py:66-71 | a line is rejected for no messages, or for a malformed one, exactly when it has none, or one |
| Jsonl.CustomIdRule | backend/app/services/jsonl.py:50 | the item's name: custom_id, else id, else its place counted from one, values that count as none passed over |
| Jsonl.FalsyExactly | backend/app/services/jsonl.py:50 | which values count as none |
| Jsonl.DecimalReads | backend/app/services/jsonl.py:50 | the place is written as a decimal number that reads back |
| Jsonl.AcceptedAnywhere | backend/app/services/jsonl.py:40-73 | whether a line is accepted, and its body, do not depend on its index |
| Jsonl.PromptIsUserMessage | backend/app/services/jsonl.py:55-62 | a prompt means the same as a single user message |
| Jsonl.NormalFormRoundTrips | backend/app/services/jsonl.py:40-73 | an item written in normal form is read back unchanged |
| Jsonl.IterItems | backend/app/services/jsonl.py:76-85 | yields the normalized non-blank lines in order up to the first that fails |
| Jsonl.ValidateFile | backend/app/services/jsonl.py:88-114 | the report: lines seen, the first 20 problems, the limit, the preview |
| Jsonl.CleanReportIff | backend/app/services/jsonl.py:99-112 | no errors iff between 1 and max_items lines, all well formed |
| Jsonl.ReportMeaning | backend/app/services/jsonl.py:99-114 | total, the first twenty complaints in order, and the notes for an empty or too long file |
| Jsonl.ProblemsAreTrue | backend/app/services/jsonl.py:103-105 | every complaint names its line, counted from one, with the reason it was rejected |
| Jsonl.ProblemsAreAll | backend/app/services/jsonl.py:103-105 | every rejected line is complained about |
| Jsonl.ProblemsInOrder | backend/app/services/jsonl.py:103-105 | once each, in order |
| Jsonl.GoodsMeaning | backend/app/services/jsonl.py:99-102 | the good lines come out as the items they are |
| Jsonl.GoodOrComplained | backend/app/services/jsonl.py:99-106 | every line is a good item or a complaint |
| Jsonl.ValidatedFileIterates | backend/app/services/jsonl.py:76-114 | on a validated file the run reads exactly items 0..total-1 without an exception iff the file is all UTF-8 |
| Jsonl.ValidatedFileCanStop | backend/app/services/jsonl.py:79-94 | a file that passes validation and at which the run stops without an item |
| Jsonl.Scan | backend/app/services/jsonl.py:94-109 | the loop: lines seen, up to one past the limit, the first 20 problems and the first few good items |
| Upload.RunReadsEveryItem | backend/app/api/jobs.py:276-309 | the run reads exactly as many items as the job's total iff the accepted file is all UTF-8 |
| Upload.EveryLineHasItsResult | backend/app/worker/runner.py:124-152 | a job that ends succeeded or completed has exactly one result for each counting line of the uploaded file, and none besides |
| Jsonl.DuplicateIds | backend/app/services/jsonl.py:117-127 | the first ids that occurred before, in order |
| Jsonl.NoRepeatsIff | backend/app/services/jsonl.py:117-127 | there are none iff all ids differ |
| Jsonl.RepeatsCount | backend/app/services/jsonl.py:117-127 | as many repeats as ids exceed distinct ids, each an id that occurs twice |

## Assumptions the theorems make

Each is a predicate in the model, not hidden in a step.

- Billing: a rebase happens where no live snapshot is left (`Billing.Legal`); `Billing.SettleAllowsRebaseIff`
  says exactly when a settle achieves that.
- Sending: a post and its commit finish within the 120 s in-flight window, and a new key is written only
  onto a record that is still rejected (`Outbox.Legal`).
- Mutual exclusion: live holders renew in time, and only jobs nobody holds are enqueued (`QueueSafety.Legal`).
- Pins (`Pins.Legal`): a user's stop finds the row `running`, or else no worker at the job; it does not come in
  the instant a watcher deletes an old signal; a live holder's lease is not reaped; and the pin stays.
  `PinIsEffectiveIff` itself asks nothing of the state in which the pin commits.
- Life cycle (`Lifecycle.Legal`): calls on one job do not overlap; resume, retry and a new priority wait until no
  worker has the job, and no worker claims it before they have enqueued it; a live holder's lease is not reaped.
  Workers and the API may die at any point. `Lifecycle.EarlyResumeBreaksOneHolder` and `Lifecycle.OverlappingResumeLoses` show what happens
  otherwise.

## Left out

- HTTP, SQL, the Redis client, the file system, mail, encryption and login: every statement, command, script or file append is one atomic step.
- Infrastructure errors other than a process crash: the source fails open on them; an exception out of `JobRunner.run` that releases the lease without a status change is among them.
- Floating point: times and scores are integers, token balances reals.
- `fnmatch`, the gateway's replies, request outcomes, `str` on JSON values and oversleeping are parameters.
- Parameter merging, quotas, retention, projects, prompts, notifications, progress display, dry runs (`record_for_try`) and key checks (`verify_batch_key`): short case analyses beside the core.
- `sweep` and `bill_job` as methods: their cuts and sends are steps of the event machines.
- Expiry of control signals after a day, and Redis or SQL losing data.
- Torn lines at a crash inside `_append_lines`: a flush reaches the file whole or not at all; a line that does not parse is modelled in the scan.
- Parsing JSON text and decoding bytes: a line comes parsed, with a flag saying whether it is UTF-8.
- Reaped jobs in the ordering results: they are queued at priority 0 whether pinned or not.
- Task cancellation between writing a line and counting it: the two are one step.
- Pins, Lifecycle and Charging as classes: they relate several processes, so they are event machines over values; the parts a single process updates in place are the classes beside them.
- JobControl.Desk.ResumeJob: says that a pinned job must preempt, but the preemption itself is `Pins.SignalBoard.PreemptFor`; the row's error text is not modelled.
- JobControl.Desk.RetryFailed: removing the error file is `Runs.ClearErrors`, and the stored error rows are not modelled.
- JobControl.Desk.PauseAll: a failure on one job, which the source counts and passes over, is not modelled.
- JobControl.Desk.DeleteJob: the last cut before the row goes is `Billing.JobBilling.Cut`, and the result files are not modelled.
- HandBack.HandedBackKeepsItsPlace: does not cover admin reorders and reaped jobs, which are meant to change a job's place.
- RateLimiter.Limiter.Acquire: is stated for a caller without competitors; among competitors the buckets are not fair, and only the sliding-window bound holds.
- QueueSafety.LimitsAlwaysHold: for fixed limits; lowering a limit does not stop jobs already running.
- JobQueue.JobQueue.DropJob: takes the model lookup and the pipeline as one step, though the source reads the model before it.
