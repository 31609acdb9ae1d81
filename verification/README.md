# TelegramS3 verification

A Dafny model of the parts of TelegramS3 whose guarantees hold over whole runs, with proofs.
TelegramS3 is an S3-compatible store that keeps object payloads as Telegram documents; its
difficulty is that sends can lose their acknowledgement, workers crash, leases expire, reads
finish out of order and several threads share one pool.

`dafny verify dfyconfig.toml` checks the whole project.

## Components

- **Durable transfer queue** (`TransferModel` to `TransferStore`). The SQLite rows are maps. Every
  store method that touches them is one function on the state, because each is one immediate
  transaction, and `TransferRuns` defines the runs: any finite sequence of calls whose clock does
  not go back and whose identifiers and leases are fresh. `TransferSafety` states which changes a
  call may make to a row (`Lawful`) and proves once that any such change keeps the invariant;
  `TransferSteps` shows that every call is lawful; `TransferInvariant` lifts this to runs. On top
  of it stand `TransferTheorems` (fencing, key order, part publication), `TransferSupersede`,
  `TransferRecovery` (recovery and flood-wait pauses), `TransferAccounting` (staging budget and
  checkpoints), `TransferClaim` (a claim as one decision per row) and `TransferPlans` (nothing
  half-received is granted). `TransferStore` is the object that updates the rows statement by statement: its
  state is always one that some run has reached, each public method makes one call of the run,
  and its contract says what the caller may rely on then (`TransferCalls`).
- **Cleanup outbox** (`CleanupModel`, `CleanupSafety`, `CleanupCalls`, `CleanupStore`), in the same form.
- **Read path**: `Manifest` (layout check and contents), `ReadPlanning` (range and chunk planning),
  `Composition` (multipart completion by reference), `RangeHeader` (the admin `Range` header),
  `ReadStream` (adaptive window, sequential read-ahead, the stream), `Failover`, `DownloadGate`.
- **Connection pool** (`ConnectionPool`): threads, mutex sections and `notify_one` as steps.
- **Bucket listing** (`Listing`, `Paging`), **login limiter** (`LoginLimiter`, `LoginBound`),
  **chunk sampling** (`Sampling`, `SamplingUniformity`).

`Basics` and `Modular` hold shared arithmetic.

## Where the code differs from what its comments suggest

- `claim_transfer` calls its "superseded by a newer committed write" update a rule for older draft data. It
  can drop an accepted write: the staging clean-up also turns cancelled and failed jobs into
  `cleaned`, which the update takes for committed. `TransferSupersede` has the run, the exact
  condition, and the check in the clean-up that rules it out.
- `reclassify_flood_wait_attempts` casts the delay to i64, so delays above i64::MAX would wrap and
  not pause; `TransferRecovery.RetryAtIsTheDelay` gives the exact condition. The only caller passes
  the constant 60 (src/object_format/workflow.rs:15,374), which is far below it.
- `queue_after_reconciliation` does not ask whether the job was ever queued. Its only caller passes
  jobs with send attempts, which is what keeps a half-received upload from being granted;
  `TransferPlans` proves it of such calls and has the run without.
- `parse_content_range` accepts a leading plus sign, which the grammar of section 14.1.2 of
  RFC 9110 does not have; `RangeHeader.AcceptedExactlyAsRfc` says when an accepted value is a range
  of the RFC.
- Eight failures in 300 seconds are meant to lock a user name. While no login succeeds, a limiter
  window lets eleven failed logins through, and 300 seconds that meet two limiter windows let
  eighteen through; both numbers are reached. Every login that succeeds removes the bucket and lets
  up to eleven more through, so the bound is 18 + 11 per success; `LoginBound` proves it and that
  no bound holds without the successes.
- `ObjectManifest::validate` compares a chunk's order with the index as u32. Past 2^32 chunks it
  accepts orders that no longer find their chunk; `Manifest.OrderFindsChunk` is exact about it,
  `Manifest.LongManifestRepeatsOrders` has the manifests, and the composition loop refuses them.
- `plan_chunks` refuses a plan of exactly 2^32 chunks although 2^32 orders exist.

## Assumptions

- Lease, job and session identifiers are fresh, the clock does not go back, `sequence` grows.
- Part jobs carry the bucket and key of their session.
- No Telegram peer id starts with `evidence:`; only listed evidence attempts are reconciled.
- Logins of one key do not interleave with each other.
- Listed keys are distinct, sorted by the query's caller and not empty.
- The mutexes are not poisoned.

## Model

| member | source | states |
|---|---|---|
| TransferTheorems.NoResendBeforeReconciliation | src/durable.rs:802-1164 | in every reachable state an unsettled send belongs to no receiving, queued or retry_wait job, and on an uploading or committing job it began under the lease the job carries now |
| TransferTheorems.FreshLeaseMeansSettledSends | src/durable.rs:832-848 | a claim leaves the job uploading under a lease no attempt of it ran under, with every attempt settled |
| TransferTheorems.QueuedUploadIsGranted | src/durable.rs:832-849 | claims do grant: after an upload is begun and queued, the next claim picks it |
| TransferTheorems.OverlappingSendsShareTheLease | src/durable.rs:856-887 | when a send begins, every other open send of that job began under the same lease |
| TransferTheorems.LostLeaseIsPowerless | src/durable.rs:802-975 | once a job has lost a lease, then after any run the lease is still not its lease, and renew, begin, finish, mark, fail, commit and part publication under it change no row |
| TransferTheorems.OneActivePerKey | src/durable.rs:832-848 | in every reachable state at most one job per bucket and key is uploading or committing |
| TransferTheorems.GrantedMeansOlderSettled | src/durable.rs:832-848 | after a grant every older job for the same key is in a terminal state |
| TransferTheorems.GrantsFollowKeyOrder | src/durable.rs:832-848 | of two grants for one key in any run, the later one never goes to a job with a smaller sequence |
| TransferTheorems.DuplicateIsSafe | src/durable.rs:588-637 | while a part job commits, any unfinished duplicate of the part is inactive and never had a send attempt, so the NOT EXISTS guard spares none |
| TransferTheorems.PublicationEndsDuplicates | src/durable.rs:588-637 | when a part is published in a reachable state, every job then existing for that upload and part number is terminal |
| TransferSupersede.SupersedeNeedsPhantom | src/durable.rs:826-831 | read from the state before the claim: a claim leaves a job superseded if and only if it already was, or it is outstanding and a newer job for the key was cleaned without ever having been claimed |
| TransferSupersede.SupersededExactly | src/durable.rs:826-831 | the same equivalence in every state that satisfies the invariant |
| TransferSupersede.AcceptedWriteIsDropped | src/object_format/workflow.rs:1705-1711 | the update, meant for older draft data, does fire in normal operation: a run in which an accepted, queued upload is dropped after a second upload of the key broke off and was cleaned |
| TransferSupersede.CleanDoomsExactly | src/object_format/workflow.rs:1705-1711 | cleaning a job makes an older one superseded if and only if the cleaned job was never claimed, has the same key and a larger sequence, and the older one is unfinished |
| TransferSupersede.GuardedRunsNeverSupersede | src/durable.rs:826-831 | in every run whose clean-ups leave never-claimed jobs with unfinished older ones alone, no claim supersedes a job |
| TransferClaim.ClaimIsDecided | src/durable.rs:802-851 | a whole claim in one look at the state before it: what becomes of every job and attempt row, that the pick is the oldest runnable job or none exactly when there is none, and that it is leased for exactly 120 seconds |
| TransferClaim.PreparedIsDecided | src/durable.rs:805-831 | the five updates, each reading what the one before wrote, make for every job row the one decision that its state, lease, session, sends and newer writes call for |
| TransferClaim.PreparedAttemptIsDecided | src/durable.rs:818-821 | a running send becomes unknown if and only if its job was in recovery or its worker's lease had run out |
| TransferClaim.PickIsDecided | src/durable.rs:832-836 | the job the query orders first is the oldest one that is due, settled and without an unfinished older job of its key, after those decisions |
| TransferClaim.ReceptionsAreNotClaimed | src/durable.rs:805-836 | a claim never picks a job that is being received; one renewed in time keeps its row, one that broke off goes to recovery unless its session refuses it or a newer write is done |
| TransferPlans.CallKeepsPlans | src/durable.rs:501-1164 | every call keeps jobs without an operation out of the queue and ungranted, except exactly the queueing after reconciliation of such a job |
| TransferPlans.NothingUnplannedIsGranted | src/object_format/workflow.rs:1480-1530 | in every run that queues after reconciliation only jobs with send attempts, as the reconciliation loop does, no job without an operation is ever granted |
| TransferPlans.UnplannedCouldBeGranted | src/durable.rs:1063-1070 | without that the store alone would grant one: a run in which a half-received upload is queued and picked |
| TransferRecovery.ClaimNormalizesRecovery | src/durable.rs:812-821 | after any claim no recovery_required job has an attempt marked sending |
| TransferRecovery.RecoveryOnlyResolves | src/durable.rs:856-887 | while a job is in recovery_required with nothing sending, no call whatever starts or restarts a send of it, and its set of unknown sends only shrinks |
| TransferRecovery.RecoveryOnlyShrinks | src/durable.rs:856-1070 | the same over any run that keeps the job in recovery, and each resolving call in it takes at least one unknown send away |
| TransferRecovery.ResolveSettlesOne | src/durable.rs:1029-1061 | resolving an unknown attempt removes exactly that one from the unknown set, keeps the job state, and stores the found location |
| TransferRecovery.QueueAfterSucceeds | src/durable.rs:1063-1070 | with no sending attempt, queue_after_reconciliation succeeds if and only if no attempt is unknown, and then the job is queued or in retry_wait |
| TransferRecovery.RecoveryCannotStick | src/durable.rs:1029-1070 | after any claim and any calls that leave the job in recovery_required: nothing of it is sending, its unknown sends are among those after the claim, their number fell by at least one per resolving call, and queue_after_reconciliation succeeds if and only if none is left |
| TransferRecovery.RecoveryCanFinish | src/durable.rs:1029-1070 | from every such state, resolving the unknown sends in any order, at any non-decreasing times and with any outcomes and messages, then queueing, is a run that ends with the job queued or in retry_wait |
| TransferRecovery.RetryAtIsTheDelay | src/durable.rs:985-986 | the computed retry time is now + max(delay, 1) if and only if that sum fits an i64; it lies in the future if and only if the delay does not wrap as i64 |
| TransferRecovery.ReclassifyPauses | src/durable.rs:979-1005 | reclassification leaves a recovery_required job with a flood-wait attempt paused until the computed retry time |
| TransferRecovery.PauseSurvivesCall | src/durable.rs:979-1070 | every store call except an operator retry of that job keeps the pause, and a claim of the job cannot come before it ends |
| TransferRecovery.FloodPauseSurvivesRuns | src/durable.rs:979-1070 | after reclassification at time t with delay d, no run without an operator retry claims the job before t + max(d, 1), whatever is reconciled meanwhile |
| TransferAccounting.StagingNeverExceedsBudget | src/durable.rs:690-701 | in every run with one fixed budget the bytes of all jobs neither completed nor cleaned never exceed it |
| TransferAccounting.ReserveStaysWithinBudget | src/durable.rs:690-701 | one reservation never lifts the staged sum above the budget |
| TransferAccounting.CheckpointsAreExact | src/durable.rs:889-924 | in every reachable state chunks_done equals the number of stored orders below 2^32-1, each stored location is that of a checkpointed attempt of the same job and order, and each checkpointed attempt has a stored location |
| TransferAccounting.FinishSendRecords | src/durable.rs:889-924 | finishing a send keeps these records exact |
| TransferAccounting.ResolveRecords | src/durable.rs:1029-1061 | resolving a send keeps these records exact, for both outcomes |
| TransferInvariant.ApplyIsStep | src/durable.rs:501-1164 | every store call keeps the invariant, never revives a terminal job or a lost lease, and has no effect on cleaning, staged bytes or checkpoints beyond its own |
| TransferInvariant.RunIsStep | src/durable.rs:501-1164 | the same over any finite sequence of calls |
| TransferInvariant.ReachableIsSafe | src/durable.rs:501-1164 | every reachable state satisfies the invariant: references, unique sequences, leases exactly on active jobs, fenced sends, key order, part sessions |
| TransferInvariant.PrepareIsStep | src/durable.rs:805-831 | the five updates claim_transfer makes before selecting a candidate keep the invariant |
| TransferInvariant.ClaimIsStep | src/durable.rs:802-851 | a whole claim keeps the invariant |
| TransferInvariant.ReclassifyIsStep | src/durable.rs:979-1005 | a whole reclassification keeps the invariant |
| TransferSafety.LawKeepsInv | src/durable.rs:501-1164 | any change that is lawful row by row keeps the invariant |
| TransferSteps.BeginIsLegal | src/durable.rs:676-688 | creating a job is a lawful change with no other effect |
| TransferSteps.RenewReceivingIsLegal | src/durable.rs:501-508 | renewing a reception is lawful |
| TransferSteps.ReserveIsLawful | src/durable.rs:690-701 | reserving bytes is lawful and records or cleans nothing |
| TransferSteps.QueueIsLegal | src/durable.rs:703-715 | queueing is lawful: a receiving job has no open send |
| TransferSteps.FailReceptionIsLegal | src/durable.rs:510-530 | failing a reception is lawful |
| TransferSteps.RejectIsLegal | src/durable.rs:535-554 | rejecting for quota is lawful |
| TransferSteps.CreateSessionIsLegal | src/metadata/multipart.rs:9-57 | creating a session is lawful |
| TransferSteps.ChangeSessionIsLegal | src/metadata/multipart.rs:140-180 | changing a session state is lawful |
| TransferSteps.RegisterPartIsLegal | src/object_format/workflow.rs:196-198 | registering a part job is lawful and keeps parts on their session's key |
| TransferSteps.CompletionIsLegal | src/metadata/multipart.rs:347-421 | queueing a completion, which supersedes earlier ones without open sends, is lawful |
| TransferSteps.AbortIsLegal | src/durable.rs:638-649 | aborting a session is lawful: no part job is active then |
| TransferSteps.RenewTransferIsLegal | src/durable.rs:852-854 | renewing a lease is lawful |
| TransferSteps.StartCommitIsLegal | src/object_format/workflow.rs:1409-1413 | moving from uploading to committing under the lease is lawful |
| TransferSteps.FailedIsLegal | src/durable.rs:1101-1119 | transfer_failed is lawful: a job with an open send goes to recovery, never to retry_wait |
| TransferSteps.MarkUnknownIsLegal | src/durable.rs:926-947 | marking an attempt unknown is lawful |
| TransferSteps.MarkRetryableIsLegal | src/durable.rs:953-975 | marking an attempt retryable is lawful |
| TransferSteps.BeginSendIsLegal | src/durable.rs:856-887 | beginning a send is lawful: it starts under the current lease |
| TransferSteps.FinishSendIsLawful | src/durable.rs:889-924 | finishing a send is lawful |
| TransferSteps.ResolveIsLawful | src/durable.rs:1029-1061 | resolving a send is lawful |
| TransferSteps.CommitIsLegal | src/metadata/manifests.rs:163-373 | the fenced commit is lawful: it completes a job only when all older ones for the key are finished |
| TransferSteps.FinishPartIsLegal | src/durable.rs:588-637 | publishing a part is lawful |
| TransferSteps.CleanIsLawful | src/object_format/workflow.rs:1705-1711 | cleaning a finished job's staging is lawful |
| TransferSteps.RetryIsLawful | src/durable.rs:1120-1127 | an operator retry is lawful: it needs every send settled |
| TransferSteps.QueueAfterIsLawful | src/durable.rs:1063-1070 | queueing after reconciliation is lawful |
| TransferSteps.CancelIsLegal | src/durable.rs:1128-1164 | an operator cancel is lawful |
| TransferSteps.DeleteIsLegal | src/metadata/auth.rs:398-420 | cancelling a key's waiting jobs on delete is lawful |
| TransferSteps.AdoptIsLegal | src/metadata/settings.rs:433-438 | adopting legacy rows is lawful |
| TransferSteps.RemoveIsLegal | src/metadata/connection_removal.rs:191-198 | cancelling a removed connection's jobs and sessions is lawful |
| TransferSteps.PurgeIsLawful | src/durable.rs:756-789 | purging a connection's rows is lawful |
| TransferSteps.ExpireReceptionsIsLegal | src/durable.rs:805-805 | expiring receptions is lawful |
| TransferSteps.FenceLostSendsIsLegal | src/durable.rs:806-811 | moving expired workers with open sends to recovery is lawful |
| TransferSteps.MarkLostSendsIsLegal | src/durable.rs:812-821 | marking their sends unknown is lawful |
| TransferSteps.CancelClosedIsLegal | src/durable.rs:822-825 | cancelling jobs of closed sessions is lawful |
| TransferSteps.SupersedeIsLegal | src/durable.rs:826-831 | the supersede update is lawful |
| TransferSteps.GrantIsLawful | src/durable.rs:845-846 | granting a candidate a fresh lease is lawful |
| TransferSteps.ReclassifyAttemptsIsLegal | src/durable.rs:987-990 | turning unknown flood-wait attempts retryable is lawful |
| TransferSteps.PauseFloodedIsLegal | src/durable.rs:991-997 | raising next_retry of flooded jobs is lawful |
| TransferSteps.RescheduleFloodedIsLegal | src/durable.rs:998-1001 | rescheduling flooded jobs without open sends is lawful |
| TransferCalls.ReachedMeansReachable | src/durable.rs:501-1164 | the states the store object can be in, those of every set closed under the calls, are exactly the states some run reaches |
| TransferStore.Store.constructor | src/metadata/schema.rs:273-322 | the store starts in the empty reached state |
| TransferStore.Store.BeginTransfer | src/durable.rs:676-688 | succeeds exactly for a new id in an existing bucket; the new row field by field, newer than every other, with nothing ever sent for it |
| TransferStore.Store.RenewReceiving | src/durable.rs:501-508 | succeeds exactly for a receiving job; no claim up to exactly 120 seconds later expires it |
| TransferStore.Store.SumStaged | src/durable.rs:693-693 | the row-by-row sum is the staged sum of the model |
| TransferStore.Store.ReserveStaging | src/durable.rs:690-701 | succeeds exactly within the i64 limits and the budget; the staged sum grows by exactly the bytes granted and stays within the budget |
| TransferStore.Store.QueueTransfer | src/durable.rs:703-715 | succeeds exactly for a receiving job; every send of it is settled, and claims can pick it from its retry time on if and only if no older job of the key is pending |
| TransferStore.Store.FailReception | src/durable.rs:510-530 | no claim ever picks the failed job, and exactly its bytes are released if and only if the files are gone |
| TransferStore.Store.RejectForQuota | src/durable.rs:535-554 | succeeds exactly for an active job; no claim picks it and exactly its bytes are released |
| TransferStore.Store.PickCandidate | src/durable.rs:832-836 | the loop returns a candidate with the smallest sequence, or none exactly when there is none |
| TransferStore.Store.ClaimTransfer | src/durable.rs:802-851 | every row is the one decided from the state before the call, so a broken-off reception is never granted; the pick is the oldest runnable job, has a clean start under the new lease, and is claimable again exactly after 120 seconds; no job in recovery is left with a running send |
| TransferStore.Store.RenewTransfer | src/durable.rs:852-854 | succeeds exactly while the lease is held; claims fence or pick the job exactly after another 120 seconds |
| TransferStore.Store.BeginSend | src/durable.rs:856-887 | succeeds exactly under a held, live lease; every send of the job without an outcome then runs under this lease, and no claim picks the job |
| TransferStore.Store.FinishSend | src/durable.rs:889-924 | succeeds exactly for a sending attempt under a held, live lease; the location is stored for its order and the chunk count is recounted |
| TransferStore.Store.MarkUnknown | src/durable.rs:926-947 | adds exactly this send to the unknown ones, and no claim picks the job at any time while it stays so |
| TransferStore.Store.MarkRetryable | src/durable.rs:953-975 | takes exactly this send out of the open ones |
| TransferStore.Store.TransferFailed | src/durable.rs:1101-1119 | the lease is given up; claims can pick the job from exactly now + delay on if and only if a delay was given and no send is open, and otherwise never |
| TransferStore.Store.StartCommit | src/object_format/workflow.rs:1409-1413 | succeeds exactly under the live lease of an uploading job; every older job of the key is then finished and every open send runs under this lease |
| TransferStore.Store.CommitTransfer | src/metadata/manifests.rs:163-373 | succeeds exactly under the fenced checks, spelled out on the rows; every older job of the key is finished, no committed one is newer, and exactly its bytes are released |
| TransferStore.Store.CleanStaging | src/object_format/workflow.rs:1705-1711 | succeeds exactly for a finished job; no claim picks it, and its bytes are released unless they were when it was published |
| TransferStore.Store.CreateSession | src/metadata/multipart.rs:9-57 | the new session is open and no job is a part of it |
| TransferStore.Store.QueueCompletion | src/metadata/multipart.rs:347-421 | succeeds exactly when the session is open and no earlier completion may still reach Telegram; every earlier one is then finished and no other job changes |
| TransferStore.Store.FinishPart | src/durable.rs:609-637 | succeeds exactly for an open session, a staged manifest and the lease held while committing; every job of that part is then finished, and no other job changes |
| TransferStore.Store.AbortParts | src/durable.rs:638-649 | refused exactly while a part job is active; otherwise the session is gone, every job of every part is finished, and the jobs and sessions of other uploads keep their rows |
| TransferStore.Store.ReclassifyFloodWaits | src/durable.rs:979-1005 | the three updates make one decision per row: flood waits become retryable, and every job in recovery with one is held back until the computed retry time, or rescheduled for then exactly when nothing else is open |
| TransferStore.Store.ResolveSend | src/durable.rs:1029-1061 | takes exactly this send out of the unknown ones, keeps the job state, stores the found location and recounts the chunks |
| TransferStore.Store.QueueAfterReconciliation | src/durable.rs:1063-1070 | succeeds exactly in recovery with every send settled; claims can pick the job when due, and a running flood pause keeps its end |
| TransferStore.Store.OperatorRetry | src/durable.rs:1120-1127 | succeeds exactly with every send settled; claims can pick the job at once unless an older job of the key is pending |
| TransferStore.Store.OperatorCancel | src/durable.rs:1128-1164 | succeeds exactly for a waiting job; it is finished and no claim ever picks it |
| TransferStore.Store.DeleteKey | src/metadata/auth.rs:398-420 | refused exactly while a worker holds a job of the object; otherwise its waiting jobs are cancelled and no other job changes |
| TransferStore.Store.RemoveConnection | src/metadata/connection_removal.rs:191-198 | unfinished jobs and open sessions of the connection end, and those of other connections keep their rows |
| TransferStore.Store.PurgeConnection | src/durable.rs:756-789 | no row of the connection is left in any table, and every other row is as it was |
| CleanupSafety.NoMessageBeforeEvidence | src/durable.rs:301-334 | in every reachable state a message target that is leased or completed has completed evidence of the same object |
| CleanupSafety.EveryMessageHasEvidenceRow | src/durable.rs:206-241 | every message target has an evidence target of its object |
| CleanupSafety.EnqueueRecordsAll | src/durable.rs:206-241 | enqueueing leaves a row for the evidence and for every listed message, whatever rows the unique index already holds |
| CleanupSafety.InsertEvidenceEnsuresIt | src/durable.rs:222-225 | the ignored insert of an evidence row is ignored only when that object has one |
| CleanupSafety.CompletionIsFinal | src/durable.rs:381-476 | a completed target, and a quarantined one without a reconcilable attempt, never changes again in any run |
| CleanupSafety.StaleLeaseChangesNothing | src/durable.rs:359-476 | a lease the target no longer carries changes nothing, now or after any run |
| CleanupSafety.GaugesSumToBacklog | src/durable.rs:257-297 | in every reachable state due + scheduled + recovery_required equals the backlog exactly |
| CleanupSafety.DueMeansClaimableOrAwaiting | src/durable.rs:267-271 | a target counts as due if and only if it is claimable or awaits reconciliation of a running evidence upload, never both |
| CleanupSafety.IdleExactlyWhenNothingDue | src/durable.rs:301-334 | the claim finds nothing if and only if every due target awaits reconciliation |
| CleanupSafety.ApplyKeeps | src/durable.rs:155-500 | every cleanup call keeps the invariant and moves every row onward |
| CleanupSafety.RunKeeps | src/durable.rs:155-500 | the same over any run |
| CleanupCalls.ReachedMeansReachable | src/durable.rs:155-500 | the states the outbox object can be in are exactly the states some run reaches |
| CleanupStore.Store.constructor | src/metadata/schema.rs:323-342 | the outbox starts empty |
| CleanupStore.Store.Enqueue | src/durable.rs:215-241 | afterwards the object has an evidence row and every listed message a row; the rows added are exactly such rows, waiting for the due time, and every earlier row is kept |
| CleanupStore.Store.Choose | src/durable.rs:319-324 | the chosen row is the lowest claimable evidence row, else the lowest claimable message row, else none |
| CleanupStore.Store.LowestEvidence | src/durable.rs:319-321 | the lowest claimable evidence row, or none exactly when there is none |
| CleanupStore.Store.LowestMessage | src/durable.rs:322-324 | the lowest claimable message row, or none exactly when there is none |
| CleanupStore.Store.Claim | src/durable.rs:301-334 | the row is the first by the queries' order among exactly the claimable ones, is not claimable again for 120 seconds, and a message row has its evidence stored |
| CleanupStore.Store.BeginEvidence | src/durable.rs:359-379 | succeeds exactly under the running lease of an open row; an evidence row is then never claimed again and awaits reconciliation exactly once the lease has ended |
| CleanupStore.Store.Complete | src/durable.rs:432-445 | succeeds exactly under the running lease; whatever is completed, evidence of its object is stored |
| CleanupStore.Store.Fail | src/durable.rs:447-461 | the row is claimable at a time if and only if that has reached now + delay and its due time and, for a message, its evidence is stored |
| CleanupStore.Store.Quarantine | src/durable.rs:463-476 | the row is never claimed, and is listed for reconciliation exactly when its evidence may have been uploaded |
| CleanupStore.Store.ResolveEvidence | src/durable.rs:381-394 | every waiting message of the object can then be claimed exactly from its due and retry times on |
| CleanupStore.Store.RetryEvidence | src/durable.rs:396-408 | the row is claimable exactly from now on |
| CleanupStore.Store.MakeDue | src/durable.rs:491-500 | the waiting rows of the object are due at once, and every other row is unchanged |
| CleanupStore.Store.Metrics | src/durable.rs:257-297 | backlog, due and recovery count the open, due and quarantined rows, and due, scheduled and recovery add up to the backlog |
| Manifest.Validate | src/manifest.rs:201-280 | one pass with a running u64 offset accepts a manifest if and only if its header is filled in and its chunks tile the content in order |
| Manifest.ValidReplicas | src/manifest.rs:246-256 | accepts if and only if every replica names an account, a peer and a durable message |
| Manifest.OrderFindsChunk | src/manifest.rs:257-259 | in a valid manifest chunk i is found under its order if and only if i fits a u32, because the check compares with the wrapped index |
| Manifest.LongManifestRepeatsOrders | src/manifest.rs:257-259 | the check accepts manifests of any length up to u64::MAX, and past 2^32 chunks two chunks share the order 0 |
| Manifest.Content | src/object_format.rs:5187-5194 | the content of valid chunks has exactly the summed size |
| Manifest.ContentAt | src/object_format.rs:5187-5194 | byte k of a chunk is byte k of the payload it names: its own object and order when it is plain, its source's when it was composed |
| Manifest.PlainChunksDiffer | src/manifest.rs:94-99 | different plain chunks of an object of at most 2^32 chunks name different payloads |
| ReadPlanning.PlanRead | src/object_format.rs:3468-3509 | succeeds if and only if the range is ordered, inside the object and no chunk end overflows; the result is the overlap of each touched chunk |
| ReadPlanning.RangeReadIsSlice | src/object_format.rs:3468-3509 | for every in-bounds range of a valid manifest the planned slices concatenate to exactly that slice of the content |
| ReadPlanning.SpanLengthsCoverRange | src/object_format.rs:3468-3509 | the span lengths add up to the range length, and a non-empty range has only non-empty spans |
| ReadPlanning.WellFormedEndsFit | src/object_format.rs:3487-3489 | a valid manifest never meets the overflow error |
| ReadPlanning.PlanChunks | src/object_format.rs:3739-3771 | succeeds if and only if the chunk size is non-zero and 2^32-1 chunks suffice; the plan is full chunks at multiples of the size and one remainder, covering the length |
| ReadPlanning.PlannedLayoutIsValid | src/object_format.rs:3739-3771 | chunks laid out by such a plan validate for the planned length |
| Composition.LayoutIsValid | src/object_format.rs:2453-2582 | any valid, published parts with at most 2^32 chunks compose to a layout that validates for the summed length |
| Composition.IdentityIsKept | src/object_format.rs:2524-2537 | chunk j of part p appears behind all chunks and bytes of the earlier parts with size, checksum, location and replicas unchanged; a plain chunk then names its part and its order there, a composed one keeps its source and order |
| Composition.LayoutContent | src/object_format.rs:2453-2582 | the composed chunks stand for the concatenated contents of the parts |
| Composition.ComposedRangeRead | src/object_format.rs:3468-3509 | every in-bounds range read of a composed object is that slice of the concatenated part contents |
| Composition.AppendPart | src/object_format.rs:2510-2541 | fails exactly on an unpublished chunk, a u32 order or a u64 offset overflow, and otherwise appends the chunks of the part one by one, each naming on its fields the payload it always named |
| Composition.CheckPart | src/object_format.rs:2459-2503 | a part passes if and only if order, ETag, manifest, validity, size, checksum and encryption all fit |
| Composition.ComposeParts | src/object_format.rs:2453-2542 | the loop succeeds if and only if every part passes and the sizes fit, with the composed layout and length |
| Composition.Complete | src/object_format.rs:2453-2582 | a request is composed if and only if it is acceptable; the manifest validates, has the planned fields and the encryption of every part, and its chunks are exactly those of the parts, moved |
| Composition.CompletedRangeRead | src/object_format.rs:2453-2582 | every in-bounds range read of the completed object is that slice of the concatenated contents of the requested parts |
| Composition.ResultIsValid | src/object_format.rs:2580-2582 | the final validation can only object to a blank bucket, key or storage peer |
| RangeHeader.AcceptedExactlyAsRfc | src/admin.rs:3583-3631 | an accepted value selects the bytes section 14.1.2 of RFC 9110 assigns to it if and only if it contains no plus sign |
| RangeHeader.SignIsAccepted | src/admin.rs:3603-3625 | a signed position is accepted although the grammar has none |
| RangeHeader.DenotedIsNeverMisread | src/admin.rs:3583-3631 | a range the RFC defines is answered with exactly its bytes or with 416, never with other bytes |
| RangeHeader.SuffixForm | src/admin.rs:3603-3610 | bytes=-N is the last min(N, length) bytes, refused exactly for N = 0, an empty object or N above u64::MAX |
| RangeHeader.OpenForm | src/admin.rs:3612-3618 | bytes=a- runs to the end, refused exactly for a at or past the length |
| RangeHeader.ClosedForm | src/admin.rs:3612-3624 | bytes=a-b is clamped to the object, refused exactly for b < a, a past the end or b above u64::MAX |
| RangeHeader.ParseContentRange | src/admin.rs:3583-3631 | the whole object exactly without a header, 416 for any unit but bytes, and an accepted range is non-empty and inside the object |
| RangeHeader.ParsesExactly | src/admin.rs:3583-3631 | a header is accepted with a range if and only if the texts around its first dash select it |
| RangeHeader.DecimalOfPrint | src/admin.rs:3605-3625 | reading a printed number gives the number |
| RangeHeader.HandleContent | src/admin.rs:2368-2396 | for every valid manifest: without a header the whole object, not partial; with one, exactly the bytes it selects, as partial content, or 416 if and only if it selects none; the spans read exactly those bytes of whatever payloads are stored |
| RangeHeader.AcceptedRangeReads | src/admin.rs:2368-2396 | the planned spans of an accepted RFC range read exactly the bytes the RFC selects |
| ReadStream.Drain | src/object_format.rs:3545-3687 | in both modes and for every completion order, slow-down choice and worker schedule the stream emits exactly the span results up to and including the first failure |
| ReadStream.AdaptiveWindow.Next | src/object_format.rs:1285-1301 | whatever order pending reads finish in, the next result is that of the next span, and the stream ends only after the last; at most max_window spans are pending or ready and 1 <= window <= max_window |
| ReadStream.AdaptiveWindow.Fill | src/object_format.rs:1221-1246 | schedules exactly until the window is full or no span is left, and always leaves the next span scheduled |
| ReadStream.AdaptiveWindow.Schedule | src/object_format.rs:1225-1244 | one more span becomes pending |
| ReadStream.AdaptiveWindow.Settle | src/object_format.rs:1294-1297 | one pending read, whichever it is, becomes ready with its own outcome |
| ReadStream.AdaptiveWindow.Take | src/object_format.rs:1288-1289 | the ready result of the next span is handed out |
| ReadStream.AdaptiveWindow.Observe | src/object_format.rs:1248-1283 | window and streak exactly: halved on failure or slow-down, one less on retries, never below one, one more on the second clean read in a row while there is room |
| ReadStream.AdaptiveWindow.constructor | src/object_format.rs:1198-1215 | starts with window 1 or 2 and nothing scheduled |
| ReadStream.SequentialReadAhead.Next | src/object_format.rs:1380-1396 | as long as nothing failed, the next result is that of the next span, for every schedule of the worker task |
| ReadStream.SequentialReadAhead.WorkerStep | src/object_format.rs:1346-1362 | each worker step keeps the channel bound and the span order, and the worker terminates |
| ReadStream.SequentialReadAhead.RunAhead | src/object_format.rs:1346-1362 | running ahead keeps them too |
| ReadStream.SequentialReadAhead.Await | src/object_format.rs:1381-1383 | the receiver always gets an item or the end |
| ReadStream.SequentialReadAhead.Receive | src/object_format.rs:1381-1383 | the received item is the outcome of the next span |
| ReadStream.SequentialReadAhead.constructor | src/object_format.rs:1317-1374 | starts with nothing read |
| ReadStream.ReadPipeline.Next | src/object_format.rs:1126-1161 | emits the next span; no tail exists before the first span has been fetched |
| ReadStream.ReadPipeline.First | src/object_format.rs:1127-1156 | emits the first span alone and creates a tail only when it was fetched |
| ReadStream.ReadPipeline.FromWindow | src/object_format.rs:1158-1158 | the adaptive tail continues the span order |
| ReadStream.ReadPipeline.FromWorker | src/object_format.rs:1159-1159 | the sequential tail continues the span order |
| ReadStream.ReadPipeline.constructor | src/object_format.rs:1083-1124 | nothing is emitted yet |
| Failover.EveryLocationInTurn | src/object_format.rs:5098-5113 | the attempts on one location are exactly attempts_per_account consecutive ones, and the locations take turns in rotation from the selected one |
| Failover.Download | src/object_format.rs:5098-5181 | succeeds with the first working attempt in that order, fails only if none works, and reports no location exactly when there is no candidate |
| Failover.FailureMeansAllExhausted | src/object_format.rs:5098-5181 | a failed download means every location failed every one of its attempts |
| Failover.CandidatesAreEnabled | src/object_format.rs:5043-5077 | the candidates are exactly the enabled locations, the enabled primary first |
| Failover.CandidatesKeepOrder | src/object_format.rs:5043-5077 | the enabled replicas follow the primary in their stored order |
| Failover.CandidateIndex | src/object_format.rs:5236-5243 | the index is always that of a candidate |
| Failover.ConfiguredAttemptsFit | src/config.rs:192-197 | with the configured bound on retries the attempt count cannot saturate |
| Sampling.RandomBelow | src/object_format.rs:5391-5401 | returns the remainder of the first accepted word, and nothing exactly when every word left is rejected |
| Sampling.AcceptedWordsAreUniform | src/object_format.rs:5391-5401 | among all 2^64 words the accepted ones hit each remainder equally often |
| Sampling.RandomChunkSample | src/object_format.rs:5368-5389 | min(requested, count) distinct indexes below count, the reservoir of the slots the words determine; nothing exactly when the words run out before the last draw |
| SamplingUniformity.SampleIsUniform | src/object_format.rs:5365-5389 | of the n!/k! slot sequences the sampling can draw, exactly (n - k)! have any given set of k indexes as their sample, so the sample is uniform |
| SamplingUniformity.RunsCount | src/object_format.rs:5378-5388 | the counted runs are exactly the slot sequences that lead from a reservoir to the set |
| SamplingUniformity.RunsInReach | src/object_format.rs:5378-5388 | the number of slot sequences that complete a given set from any reservoir that has lost nothing |
| DownloadGate.OneStreamPerKey | src/object_format.rs:502-523 | in every run two live streams of one client and object hold the same semaphore and at most one is admitted |
| DownloadGate.KeysDoNotShareGates | src/object_format.rs:502-523 | streams of different keys never hold the same semaphore |
| DownloadGate.WaitsOnlyForItsKey | src/object_format.rs:3545-3576 | a waiting stream can be admitted if and only if no stream of its key is |
| DownloadGate.ClientObjectDownloadLimiter.GateFor | src/object_format.rs:506-523 | the gate handed out is held by every live stream of the key and by no stream of another key; from 4096 keys on exactly the unused ones are forgotten |
| DownloadGate.ClientObjectDownloadLimiter.constructor | src/object_format.rs:502-504 | starts without entries |
| DownloadGate.StepKeeps | src/object_format.rs:502-523 | lookups, admissions, ends and evictions keep one live semaphore per key |
| ConnectionPool.AccountingIsExact | src/metadata/pool.rs:64-137 | in every interleaving open_connections equals available plus held plus being-opened handles and is at most max_size |
| ConnectionPool.NoLostWakeup | src/metadata/pool.rs:64-137 | a thread waits with no thread woken or about to notify only if no handle is available and open_connections equals max_size, however many newcomers there are |
| ConnectionPool.WaiterHasAWaker | src/metadata/pool.rs:64-137 | while a thread waits, some thread is woken, about to notify, holds a handle or is opening one |
| ConnectionPool.HandlesAreExclusive | src/metadata/pool.rs:64-137 | no handle has two owners or is both held and available |
| ConnectionPool.DiscardAlwaysReplaces | src/metadata/pool.rs:110-118 | a discarded handle always gets a replacement attempt and the counter never saturates |
| ConnectionPool.StepKeeps | src/metadata/pool.rs:64-170 | every step of every thread keeps accounting, wakeups and exclusivity |
| ConnectionPool.Monitor.Checkout | src/metadata/pool.rs:64-100 | keeps accounting, wakeups and exclusivity; a taken handle was nobody's and leaves the free list, and a thread is sent to wait only when every handle is in use |
| ConnectionPool.Monitor.OpenFails | src/metadata/pool.rs:86-91 | keeps them; the counter falls by exactly one, and if anybody waits a waiter is woken |
| ConnectionPool.Monitor.Return | src/metadata/pool.rs:102-119 | keeps them; the counter is unchanged, a replacement is opened if and only if the handle was lost, and a returned handle is free and nobody's |
| ConnectionPool.Monitor.Replaced | src/metadata/pool.rs:121-136 | keeps them; the counter falls by one exactly when the replacement failed, and a new handle is free and nobody's |
| ConnectionPool.Monitor.constructor | src/metadata/pool.rs:47-62 | the pool starts full, with at least one handle |
| Listing.ListedIsExact | src/s3_server.rs:116-140 | the listing is strictly ordered and holds exactly the keys in which the delimiter does not occur behind the prefix, and for the others the prefix with what follows up to and including the first delimiter, once each |
| Listing.GroupExactly | src/s3_server.rs:120-127 | the common prefix of a key is the prefix with the rest of the key up to and including the first occurrence of the delimiter, and there is one exactly when it occurs |
| Listing.BelowIsLexicographic | src/s3_server.rs:108-112 | the order is the lexicographic one: a proper prefix, or smaller where the strings first differ |
| Listing.KeyIsNoPrefix | src/s3_server.rs:120-128 | a listed key never equals a common prefix |
| Listing.MergeIsExact | src/s3_server.rs:161-196 | merging two sorted disjoint lists gives every name once, in order |
| Listing.PrefixesAreExact | src/s3_server.rs:117-128 | the common prefixes are sorted and exactly those some key folds into, ending with its first delimiter |
| Listing.ObjectsAreExact | src/s3_server.rs:116-140 | the objects are exactly the ungrouped keys, sorted |
| Listing.Find | src/s3_server.rs:123-123 | the reported position is the first occurrence, and none is reported only when there is none |
| Paging.ListPage | src/s3_server.rs:99-228 | the page in terms of the keys alone: sorted, at most max_keys entries, all of them listed and behind the marker; whatever is left is behind the whole page and the page is full; truncated exactly when something is left, with the last name shown as next marker |
| Paging.ListEverything | src/s3_server.rs:1345-1385 | a client that follows next_marker ends, with exactly the listed keys and common prefixes behind its first marker, once each, in order |
| Paging.MergePage | src/s3_server.rs:154-219 | the merge loop emits the first max_keys merged entries |
| Paging.CollectLists | src/s3_server.rs:116-140 | the collecting loop builds exactly the objects and the common prefixes |
| Paging.MergeAbove | src/s3_server.rs:142-145 | dropping both lists below the marker is dropping the merged listing below it |
| Paging.NextPageContinues | src/s3_server.rs:198-219 | the last name of a page as marker leaves exactly the entries behind it |
| Paging.EmptyNameRestarts | src/s3_server.rs:142-142 | an empty marker is ignored, so an empty key could never be passed |
| Paging.ResumeIsBoth | src/s3_server.rs:1401-1411 | resuming after the later of continuation token and start-after is resuming after both |
| LoginLimiter.ElevenPerWindow | src/auth.rs:345-439 | within one limiter window at most eleven failed logins pass the check, and eleven more for every login that succeeds in it |
| LoginLimiter.LockFreeBranchIsUnreachable | src/auth.rs:425-431 | no sequence of failing and succeeding logins reaches the rate-limit branch without a lock |
| LoginLimiter.PassesFitWindow | src/auth.rs:375-410 | from any producible bucket the passes before the window ends are bounded by the locks still ahead, and eleven for every success |
| LoginLimiter.LocksGrow | src/auth.rs:370-373 | a lock is at least 30 seconds and never shorter than the one before |
| LoginLimiter.LockSeconds | src/auth.rs:370-373 | the locks are 30, 60, 120, 240 and 480 seconds and then always 900 |
| LoginLimiter.Limiter.Check | src/auth.rs:412-439 | blocks exactly when some key has a lock that is not over, with the longest of their remaining whole seconds, at least one |
| LoginLimiter.Limiter.RecordFailure | src/auth.rs:384-410 | records each key in turn as the model does and keeps every bucket producible, so the branch without a lock stays unreachable |
| LoginLimiter.Limiter.Reset | src/auth.rs:375-382 | removes exactly the given keys and keeps every bucket producible |
| LoginLimiter.Limiter.HandleLogin | src/admin.rs:1045-1073 | a login passes exactly when its key has no running lock; a success removes the bucket, anything else leaves it with the failure counted and locked by the schedule; no other bucket changes |
| LoginLimiter.Limiter.constructor | src/auth.rs:364-368 | starts without buckets |
| LoginBound.EighteenInAnyWindow | src/auth.rs:345-439 | in any 300 seconds, from any state, at most eighteen failed logins pass the check, and eleven more for every login that succeeds meanwhile |
| LoginBound.SuccessesLetMoreThrough | src/auth.rs:375-382 | no bound holds without counting the successes: seven failures before each of n successes pass 7n failures at one instant |
| LoginBound.TwentyOneArePassed | src/auth.rs:375-382 | twenty-one failures pass at one instant |
| LoginBound.EighteenAreReached | src/auth.rs:384-410 | eighteen do pass within 300 seconds, so eleven is no bound across limiter windows |
| LoginBound.ElevenAreReached | src/auth.rs:384-410 | eleven do pass within one limiter window |

## Left out

- SQL, JSON, error texts and `updated_at`: rows are maps, each method one step.
- Journal, recovery-marker, manifest and conditional-write rows of a commit or delete: one boolean parameter stands for their checks.
- Telegram transport, encryption, SHA-256, argon2 and cookies: payloads are byte sequences found by identity, a download is its outcome.
- `set_transfer_error`, transfer listings, metrics of jobs and settings: they change nothing the proofs speak of.
- TransferStore: changing a session's state, registering a part and adopting legacy rows are calls of the run model without a method here.
- TransferStore.Store.FinishPart: does not model the branch for part number 0, which hands over to the unfenced commit and which the worker does not take.
- TransferStore.Store.TransferFailed: the read and the write of the source, which share no transaction, are one step, because only the lease holder calls it.
- TransferStore.Store.OperatorCancel: does not model the cleanup rows the cancellation enqueues; enqueueing is modelled in the outbox.
- TransferRecovery.RecoveryCanFinish: says that reconciliation can always finish, not that a worker performs it.
- Manifest.Validate: says whether a manifest is accepted, not with which message it is refused.
- Composition.Complete: starts at the part loop; the session checks before it, the hashing and the queueing after it are not part of the model.
- Composition.AppendPart: document ids and replica modes are not modelled; replicas are copied whole.
- CleanupModel: connection ids, stored evidence locations and the wake-up delay.
- ReadStream.AdaptiveWindow.Observe: the floating-point throughput average is an arbitrary boolean.
- ReadStream.Drain: account and stage permits, metrics and cancellation of a stream by its client.
- ConnectionPool.NoLostWakeup: claims no lost wakeup, not freedom from deadlock when a thread checks out twice.
- Paging.ListPage: takes the keys sorted; the manifest query uses LIKE, which is not a byte-prefix test, so nothing is claimed about which keys it returns.
- LoginLimiter.Limiter.RecordFailure: the u32 failure counter is unbounded here.
- LoginLimiter.Limiter.HandleLogin: a login that is given up between the check and its outcome, which records nothing, is not part of the runs.
- Sampling.RandomBelow: a word sequence without an accepted word gives no result instead of waiting for more.
- RangeHeader.HandleContent: the Content-Range text and the response headers.
- `object_range` of the S3 server, which refuses ends past the object, the admin JSON handlers, the configuration, the command line and the frontend: plumbing or easy checks.
