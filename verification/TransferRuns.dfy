/**
 Runs of the transfer queue: the alphabet of store calls, when the environment may make
 each, and finite sequences of them.
 */
module TransferRuns {
  import opened Basics
  import opened TransferModel

  datatype Op =
    | OpBegin(id: Uuid, connection: Uuid, bucket: string, key: string, bucketExists: bool, now: int)
    | OpRenewReceiving(id: Uuid, now: int)
    | OpReserve(id: Uuid, bytes: nat, budget: nat, used: nat, now: int)
    | OpQueue(id: Uuid, operation: Uuid, chunks: nat, now: int)
    | OpFailReception(id: Uuid, filesRemoved: bool, now: int)
    | OpRejectForQuota(id: Uuid, now: int)
    | OpCreateSession(upload: Uuid, connection: Uuid, bucket: string, key: string)
    | OpChangeSession(upload: Uuid, session: SessionState)
    | OpRegisterPart(id: Uuid, upload: Uuid, number: nat)
    | OpQueueCompletion(id: Uuid, operation: Uuid, upload: Uuid, now: int)
    | OpAbortParts(upload: Uuid)
    | OpClaim(times: ClaimTimes, pick: Option<Uuid>, lease: Uuid)
    | OpRenewTransfer(id: Uuid, lease: Uuid, now: int)
    | OpBeginSend(k: AttemptKey, lease: Uuid, now: int)
    | OpFinishSend(k: AttemptKey, lease: Uuid, location: Location, now: int)
    | OpMarkUnknown(k: AttemptKey, lease: Uuid, kind: ErrorKind, mentionsFlood: bool, now: int)
    | OpMarkRetryable(k: AttemptKey, lease: Uuid, kind: ErrorKind, mentionsFlood: bool, now: int)
    | OpStartCommit(id: Uuid, lease: Uuid, now: int)
    | OpFailed(id: Uuid, lease: Uuid, retryAfter: Option<nat>, now: int)
    | OpCommit(id: Uuid, lease: Uuid, operation: Uuid, others: bool, now: int)
    | OpFinishPart(id: Uuid, lease: Uuid, upload: Uuid, number: nat, staged: bool, now: int)
    | OpClean(id: Uuid)
    | OpReclassify(delay: nat, now: int)
    | OpResolve(k: AttemptKey, found: Option<Location>, mentionsFlood: bool, now: int)
    | OpQueueAfterReconciliation(id: Uuid, now: int)
    | OpRetry(id: Uuid)
    | OpCancel(id: Uuid, now: int)
    | OpDeleteKey(bucket: string, key: string, others: bool, now: int)
    | OpAdoptConnection(legacy: Uuid, connection: Uuid)
    | OpRemoveConnection(connection: Uuid, now: int)
    | OpPurgeConnection(connection: Uuid)

  /** Fresh identifiers come from `Uuid::new_v4`; parts carry the bucket and key of their session. */
  predicate PartFitsSession(s: Db, id: Uuid, upload: Uuid) {
    upload in s.everUploads
    && (id in s.jobs && upload in s.uploads ==>
          s.jobs[id].bucket == s.uploads[upload].bucket && s.jobs[id].key == s.uploads[upload].key)
  }

  predicate Ordered(clock: int, t: ClaimTimes) {
    clock <= t.t1 <= t.t2 <= t.t3 <= t.t4 <= t.t5
  }

  /**
   What the environment guarantees: the clock does not go back, leases, job and session
   identifiers are fresh, and the two queries whose result is a parameter (the candidate
   of `claim_transfer`, the sum of `reserve_staging`) return what the SQL says.
   */
  ghost predicate Enabled(s: Db, op: Op) {
    match op
    case OpBegin(id, _, _, _, _, now) => s.clock <= now && (id in s.everJobs ==> id in s.jobs)
    case OpReserve(_, _, _, used, now) => s.clock <= now && used == StagedBytes(s.jobs)
    case OpCreateSession(upload, _, _, _) => upload !in s.everUploads
    case OpChangeSession(_, _) => true
    case OpRegisterPart(id, upload, _) => PartFitsSession(s, id, upload)
    case OpQueueCompletion(id, _, upload, now) => s.clock <= now && PartFitsSession(s, id, upload)
    case OpAbortParts(_) => true
    case OpClaim(t, pick, lease) => Ordered(s.clock, t) && lease !in s.leases && IsPick(Prepared(s, t), pick, t.t4)
    case OpClean(_) => true
    case OpRetry(_) => true
    case OpAdoptConnection(_, _) => true
    case OpPurgeConnection(_) => true
    case _ => s.clock <= op.now
  }

  lemma PreparedKeepsRows(s: Db, t: ClaimTimes)
    ensures Prepared(s, t).jobs.Keys == s.jobs.Keys && Prepared(s, t).attempts.Keys == s.attempts.Keys
  {
  }

  ghost function Apply(s: Db, op: Op): Db
    requires Enabled(s, op)
  {
    match op
    case OpBegin(id, connection, bucket, key, bucketExists, now) =>
      BeginTransfer(s, id, connection, bucket, key, bucketExists, now)
    case OpRenewReceiving(id, now) => RenewReceiving(s, id, now)
    case OpReserve(id, bytes, budget, used, now) => ReserveStaging(s, id, bytes, budget, used, now)
    case OpQueue(id, operation, chunks, now) => QueueTransfer(s, id, operation, chunks, now)
    case OpFailReception(id, filesRemoved, now) => FailReception(s, id, filesRemoved, now)
    case OpRejectForQuota(id, now) => RejectForQuota(s, id, now)
    case OpCreateSession(upload, connection, bucket, key) => CreateSession(s, upload, connection, bucket, key)
    case OpChangeSession(upload, state) => ChangeSession(s, upload, state)
    case OpRegisterPart(id, upload, number) => RegisterPart(s, id, upload, number)
    case OpQueueCompletion(id, operation, upload, now) => QueueCompletion(s, id, operation, upload, now)
    case OpAbortParts(upload) => AbortParts(s, upload)
    case OpClaim(t, pick, lease) => PreparedKeepsRows(s, t); Claim(s, t, pick, lease)
    case OpRenewTransfer(id, lease, now) => RenewTransfer(s, id, lease, now)
    case OpBeginSend(k, lease, now) => BeginSend(s, k, lease, now)
    case OpFinishSend(k, lease, location, now) => FinishSend(s, k, lease, location, now)
    case OpMarkUnknown(k, lease, kind, mentionsFlood, now) => MarkUnknown(s, k, lease, kind, mentionsFlood, now)
    case OpMarkRetryable(k, lease, kind, mentionsFlood, now) => MarkRetryable(s, k, lease, kind, mentionsFlood, now)
    case OpStartCommit(id, lease, now) => StartCommit(s, id, lease, now)
    case OpFailed(id, lease, retryAfter, now) => TransferFailed(s, id, lease, retryAfter, now)
    case OpCommit(id, lease, operation, others, now) => CommitTransfer(s, id, lease, operation, others, now)
    case OpFinishPart(id, lease, upload, number, staged, now) => FinishPart(s, id, lease, upload, number, staged, now)
    case OpClean(id) => CleanStaging(s, id)
    case OpReclassify(delay, now) => ReclassifyFloodWaits(s, delay, now)
    case OpResolve(k, found, mentionsFlood, now) => ResolveSend(s, k, found, mentionsFlood, now)
    case OpQueueAfterReconciliation(id, now) => QueueAfterReconciliation(s, id, now)
    case OpRetry(id) => OperatorRetry(s, id)
    case OpCancel(id, now) => OperatorCancel(s, id, now)
    case OpDeleteKey(bucket, key, others, now) => DeleteKey(s, bucket, key, others, now)
    case OpAdoptConnection(legacy, connection) => AdoptConnection(s, legacy, connection)
    case OpRemoveConnection(connection, now) => RemoveConnection(s, connection, now)
    case OpPurgeConnection(connection) => PurgeConnection(s, connection)
  }

  /** Every call of the run is one the environment may make, in order. */
  ghost predicate IsRun(s: Db, ops: seq<Op>)
    decreases |ops|
  {
    ops == [] || (Enabled(s, ops[0]) && IsRun(Apply(s, ops[0]), ops[1..]))
  }

  /** The state after a run. */
  ghost function After(s: Db, ops: seq<Op>): Db
    requires IsRun(s, ops)
    decreases |ops|
  {
    if ops == [] then s else After(Apply(s, ops[0]), ops[1..])
  }

  ghost predicate Reachable(s: Db) {
    exists ops :: IsRun(EMPTY, ops) && After(EMPTY, ops) == s
  }
}
