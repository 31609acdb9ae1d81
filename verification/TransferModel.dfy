/**
 The durable transfer queue of src/durable.rs, as rows in maps.

 A `Db` value is the content of the SQLite tables the transfer protocol uses; every
 store method that touches them is one function from `Db` to `Db`, because each runs in
 one immediate transaction.  An SQL `UPDATE ... WHERE` becomes a map comprehension over
 all rows.  Clock readings and random identifiers are parameters.

 Three components are not columns: `Attempt.beganUnder` (the lease that was current when
 the send began) and the sets `everJobs`, `everUploads`, `leases` of identifiers handed
 out so far.  They only record history; no step branches on them.
 */
module TransferModel {
  import opened Basics

  const LEASE_SECS: int := 120

  /** The chunk order under which the manifest document itself is checkpointed. */
  const MANIFEST_ORDER: nat := U32_MAX

  datatype JobState =
    | Receiving | Queued | Uploading | Committing | RetryWait | RecoveryRequired
    | Completed | Cleaned | Cancelled | ReceptionFailed | Superseded

  predicate Terminal(st: JobState) {
    st in {Completed, Cleaned, Cancelled, ReceptionFailed, Superseded}
  }

  /** A worker may be sending: the job carries a lease. */
  predicate Active(st: JobState) {
    st == Uploading || st == Committing
  }

  /** The job waits for its upload to arrive or for a worker. */
  predicate Idle(st: JobState) {
    st == Receiving || st == Queued || st == RetryWait
  }

  datatype Job = Job(
    sequence: nat,
    connection: Uuid,
    operation: Option<Uuid>,
    bucket: string,
    key: string,
    state: JobState,
    bytes: nat,
    chunksDone: nat,
    chunksTotal: nat,
    attempts: nat,
    nextRetry: int,
    lease: Option<Uuid>,
    leaseUntil: int)

  predicate SameKey(a: Job, b: Job) {
    a.bucket == b.bucket && a.key == b.key
  }

  datatype AttemptState = Sending | Unknown | Retryable | Checkpointed

  /** The send may have reached Telegram without a recorded outcome. */
  predicate Unsettled(st: AttemptState) {
    st == Sending || st == Unknown
  }

  datatype ErrorKind = NoKind | FloodWait | LeaseExpired | ReconciliationAbsent | OtherKind

  datatype Location = Location(peer: string, message: int)

  datatype AttemptKey = AttemptKey(job: Uuid, order: nat, id: Uuid)

  /** `mentionsFlood` is `UPPER(COALESCE(error,'')) LIKE '%FLOOD_WAIT%'`. */
  datatype Attempt = Attempt(
    state: AttemptState,
    kind: ErrorKind,
    mentionsFlood: bool,
    retryable: bool,
    location: Option<Location>,
    beganUnder: Uuid)

  datatype ChunkKey = ChunkKey(job: Uuid, order: nat)

  /** A row of multipart_jobs: part 0 is the completion itself. */
  datatype PartRef = PartRef(upload: Uuid, number: nat)

  datatype SessionState =
    | Initiated | SessionUploading | Completing | SessionCompleted | Aborted | Quarantined | SessionRecovery

  datatype Session = Session(connection: Uuid, bucket: string, key: string, state: SessionState)

  datatype Db = Db(
    jobs: map<Uuid, Job>,
    attempts: map<AttemptKey, Attempt>,
    chunks: map<ChunkKey, Location>,
    parts: map<Uuid, PartRef>,
    uploads: map<Uuid, Session>,
    nextSequence: nat,
    clock: int,
    everJobs: set<Uuid>,
    everUploads: set<Uuid>,
    leases: set<Uuid>)

  const EMPTY: Db := Db(map[], map[], map[], map[], map[], 1, 0, {}, {}, {})

  // ---- queries the statements share ----------------------------------------

  predicate HasUnsettled(attempts: map<AttemptKey, Attempt>, id: Uuid) {
    exists k :: k in attempts && k.job == id && Unsettled(attempts[k].state)
  }

  predicate HasFloodWait(attempts: map<AttemptKey, Attempt>, id: Uuid) {
    exists k :: k in attempts && k.job == id && attempts[k].state == Retryable && attempts[k].kind == FloodWait
  }

  /** Another job for the same object was created earlier and is not finished. */
  predicate HasOlderPending(jobs: map<Uuid, Job>, id: Uuid)
    requires id in jobs
  {
    exists o :: o in jobs && SameKey(jobs[o], jobs[id]) && jobs[o].sequence < jobs[id].sequence
      && !Terminal(jobs[o].state)
  }

  /** What the SQL takes for "a newer committed write": newer, and completed or cleaned. */
  predicate LooksNewerCommitted(jobs: map<Uuid, Job>, id: Uuid)
    requires id in jobs
  {
    exists n :: n in jobs && SameKey(jobs[n], jobs[id]) && jobs[n].sequence > jobs[id].sequence
      && (jobs[n].state == Completed || jobs[n].state == Cleaned)
  }

  predicate HoldsLease(s: Db, id: Uuid, lease: Uuid) {
    id in s.jobs && s.jobs[id].lease == Some(lease) && Active(s.jobs[id].state)
  }

  predicate HoldsLiveLease(s: Db, id: Uuid, lease: Uuid, now: int) {
    HoldsLease(s, id, lease) && s.jobs[id].leaseUntil >= now
  }

  predicate InState(s: Db, id: Uuid, st: JobState) {
    id in s.jobs && s.jobs[id].state == st
  }

  function ChunkOrders(chunks: map<ChunkKey, Location>, id: Uuid): set<ChunkKey> {
    set c | c in chunks.Keys && c.job == id && c.order < MANIFEST_ORDER
  }

  /** What the row adds to the `SUM(bytes)` of `reserve_staging`. */
  function Weight(j: Job): nat {
    if j.state != Completed && j.state != Cleaned then j.bytes else 0
  }

  ghost function SomeJob(jobs: map<Uuid, Job>): (id: Uuid)
    requires |jobs| != 0
    ensures id in jobs
  {
    var id :| id in jobs;
    id
  }

  ghost function StagedBytes(jobs: map<Uuid, Job>): nat
    decreases |jobs|
  {
    if |jobs| == 0 then 0
    else
      var id := SomeJob(jobs);
      Weight(jobs[id]) + StagedBytes(jobs - {id})
  }

  // ---- admission -----------------------------------------------------------

  function BeginTransfer(s: Db, id: Uuid, connection: Uuid, bucket: string, key: string, bucketExists: bool,
                         now: int): Db
  {
    var s := s.(clock := now);
    if id in s.jobs || !bucketExists then s
    else s.(
      jobs := s.jobs[id := Job(s.nextSequence, connection, None, bucket, key, Receiving, 0, 0, 0, 0, 0, None,
                               now + LEASE_SECS)],
      nextSequence := s.nextSequence + 1,
      everJobs := s.everJobs + {id})
  }

  function RenewReceiving(s: Db, id: Uuid, now: int): Db {
    var s := s.(clock := now);
    if InState(s, id, Receiving) then s.(jobs := s.jobs[id := s.jobs[id].(leaseUntil := now + LEASE_SECS)]) else s
  }

  /**
   `used` is what `SELECT SUM(bytes)` over the unfinished jobs returned.  SQLite integers are
   i64: a larger sum or parameter is an error, so the saturating u64 sum never saturates.
   */
  predicate CanReserve(s: Db, id: Uuid, bytes: nat, budget: nat, used: nat) {
    used <= I64_MAX && bytes <= I64_MAX
    && (if used + bytes > U64_MAX then U64_MAX else used + bytes) <= budget && InState(s, id, Receiving)
  }

  function Reserved(s: Db, id: Uuid, bytes: nat, now: int): Db
    requires id in s.jobs
  {
    s.(jobs := s.jobs[id := s.jobs[id].(bytes := s.jobs[id].bytes + bytes, leaseUntil := now + LEASE_SECS)])
  }

  function ReserveStaging(s: Db, id: Uuid, bytes: nat, budget: nat, used: nat, now: int): Db {
    var s := s.(clock := now);
    if CanReserve(s, id, bytes, budget, used) then Reserved(s, id, bytes, now) else s
  }

  function QueueTransfer(s: Db, id: Uuid, operation: Uuid, chunks: nat, now: int): Db {
    var s := s.(clock := now);
    if InState(s, id, Receiving)
    then s.(jobs := s.jobs[id := s.jobs[id].(operation := Some(operation), chunksTotal := chunks, state := Queued,
                                             leaseUntil := 0)])
    else s
  }

  function FailReception(s: Db, id: Uuid, filesRemoved: bool, now: int): Db {
    var s := s.(clock := now);
    if InState(s, id, Receiving)
    then s.(jobs := s.jobs[id := s.jobs[id].(
      state := if filesRemoved then ReceptionFailed else RecoveryRequired,
      bytes := if filesRemoved then 0 else s.jobs[id].bytes,
      lease := None, leaseUntil := 0)])
    else s
  }

  function RejectForQuota(s: Db, id: Uuid, now: int): Db {
    var s := s.(clock := now);
    if id in s.jobs && Active(s.jobs[id].state)
    then s.(jobs := s.jobs[id := s.jobs[id].(state := ReceptionFailed, bytes := 0, lease := None, leaseUntil := 0)])
    else s
  }

  // ---- multipart sessions --------------------------------------------------

  function CreateSession(s: Db, upload: Uuid, connection: Uuid, bucket: string, key: string): Db {
    s.(uploads := s.uploads[upload := Session(connection, bucket, key, Initiated)],
       everUploads := s.everUploads + {upload})
  }

  function ChangeSession(s: Db, upload: Uuid, state: SessionState): Db {
    if upload in s.uploads then s.(uploads := s.uploads[upload := s.uploads[upload].(state := state)]) else s
  }

  function RegisterPart(s: Db, id: Uuid, upload: Uuid, number: nat): Db {
    if id in s.jobs && id !in s.parts then s.(parts := s.parts[id := PartRef(upload, number)]) else s
  }

  predicate OpenForParts(s: Db, upload: Uuid) {
    upload in s.uploads && s.uploads[upload].state in {Initiated, SessionUploading}
  }

  predicate OpenForCompletion(s: Db, upload: Uuid) {
    upload in s.uploads && s.uploads[upload].state in {Initiated, SessionUploading, Completing}
  }

  predicate IsPart(s: Db, id: Uuid, upload: Uuid, number: nat) {
    id in s.parts && s.parts[id] == PartRef(upload, number)
  }

  predicate UnsafePriorCompletion(s: Db, id: Uuid, upload: Uuid) {
    exists o :: o in s.jobs && o != id && IsPart(s, o, upload, 0)
      && (Active(s.jobs[o].state) || (s.jobs[o].state == RecoveryRequired && HasUnsettled(s.attempts, o)))
  }

  predicate CanQueueCompletion(s: Db, id: Uuid, upload: Uuid) {
    OpenForCompletion(s, upload) && !UnsafePriorCompletion(s, id, upload) && InState(s, id, Receiving) && id !in s.parts
  }

  predicate ReplacedByCompletion(s: Db, o: Uuid, id: Uuid, upload: Uuid)
    requires o in s.jobs
  {
    o != id && IsPart(s, o, upload, 0)
    && (s.jobs[o].state in {Receiving, Queued, RetryWait, ReceptionFailed, Cancelled}
        || (s.jobs[o].state == RecoveryRequired && !HasUnsettled(s.attempts, o)))
  }

  function SupersedeRow(j: Job, hit: bool): Job {
    if hit then j.(state := Superseded, lease := None, leaseUntil := 0) else j
  }

  function CompletionQueued(s: Db, id: Uuid, operation: Uuid, upload: Uuid): Db
    requires id in s.jobs && upload in s.uploads
  {
    var jobs := map o | o in s.jobs :: SupersedeRow(s.jobs[o], ReplacedByCompletion(s, o, id, upload));
    s.(jobs := jobs[id := jobs[id].(operation := Some(operation), chunksTotal := 0, state := Queued, leaseUntil := 0)],
       parts := s.parts[id := PartRef(upload, 0)],
       uploads := s.uploads[upload := s.uploads[upload].(state := Completing)])
  }

  function QueueCompletion(s: Db, id: Uuid, operation: Uuid, upload: Uuid, now: int): Db {
    var s := s.(clock := now);
    if CanQueueCompletion(s, id, upload) then CompletionQueued(s, id, operation, upload) else s
  }

  function AbortRow(j: Job, hit: bool): Job {
    if hit && j.state != Completed && j.state != Cleaned then j.(state := Cancelled, lease := None) else j
  }

  function AbortParts(s: Db, upload: Uuid): Db {
    if exists o :: o in s.jobs && o in s.parts && s.parts[o].upload == upload && Active(s.jobs[o].state) then s
    else
      s.(jobs := map o | o in s.jobs :: AbortRow(s.jobs[o], o in s.parts && s.parts[o].upload == upload),
         uploads := s.uploads - {upload})
  }

  // ---- claiming ------------------------------------------------------------

  function ExpireRow(j: Job, now: int): Job {
    if j.state == Receiving && j.leaseUntil < now then j.(state := RecoveryRequired) else j
  }

  function ExpireReceptions(s: Db, now: int): Db {
    s.(jobs := map id | id in s.jobs :: ExpireRow(s.jobs[id], now))
  }

  function FenceRow(j: Job, now: int, open: bool): Job {
    if Active(j.state) && j.leaseUntil < now && open
    then j.(state := RecoveryRequired, lease := None, leaseUntil := 0)
    else j
  }

  function FenceLostSends(s: Db, now: int): Db {
    s.(jobs := map id | id in s.jobs :: FenceRow(s.jobs[id], now, HasUnsettled(s.attempts, id)))
  }

  predicate SenderIsGone(s: Db, id: Uuid, now: int) {
    id in s.jobs
    && ((s.jobs[id].state == RecoveryRequired && s.jobs[id].lease == None)
        || (Active(s.jobs[id].state) && s.jobs[id].leaseUntil < now))
  }

  function MarkLostSendsUnknown(s: Db, now: int): Db {
    s.(attempts := map k | k in s.attempts ::
      if s.attempts[k].state == Sending && SenderIsGone(s, k.job, now)
      then s.attempts[k].(state := Unknown, kind := LeaseExpired, mentionsFlood := false)
      else s.attempts[k])
  }

  predicate SessionClosedFor(s: Db, id: Uuid) {
    id in s.parts && s.parts[id].upload in s.uploads
    && (if s.parts[id].number == 0 then !OpenForCompletion(s, s.parts[id].upload)
        else !OpenForParts(s, s.parts[id].upload))
  }

  function CancelRow(j: Job, hit: bool): Job {
    if hit then j.(state := Cancelled, lease := None, leaseUntil := 0) else j
  }

  function CancelClosedSessions(s: Db): Db {
    s.(jobs := map id | id in s.jobs ::
      CancelRow(s.jobs[id], SessionClosedFor(s, id) && s.jobs[id].state in {Queued, RetryWait, RecoveryRequired}))
  }

  /** The rows the "superseded by a newer committed write" update changes. */
  predicate IsSuperseded(jobs: map<Uuid, Job>, id: Uuid) {
    id in jobs && jobs[id].state in {Queued, RetryWait, Uploading, Committing, RecoveryRequired}
      && LooksNewerCommitted(jobs, id)
  }

  function SupersedeOlder(s: Db): Db {
    s.(jobs := map id | id in s.jobs :: SupersedeRow(s.jobs[id], IsSuperseded(s.jobs, id)))
  }

  /** Everything `claim_transfer` does before it looks for a candidate. */
  function PrepareClaim(s: Db, t1: int, t2: int, t3: int): Db {
    SupersedeOlder(CancelClosedSessions(MarkLostSendsUnknown(FenceLostSends(ExpireReceptions(s, t1), t2), t3)))
  }

  predicate IsCandidate(s: Db, id: Uuid, now: int) {
    id in s.jobs
    && ((s.jobs[id].state in {Queued, RetryWait} && s.jobs[id].nextRetry <= now)
        || (Active(s.jobs[id].state) && s.jobs[id].leaseUntil < now))
    && !HasUnsettled(s.attempts, id)
    && !HasOlderPending(s.jobs, id)
  }

  /** `ORDER BY candidate.sequence LIMIT 1`. */
  ghost predicate IsPick(s: Db, pick: Option<Uuid>, now: int) {
    match pick
    case None => forall id :: !IsCandidate(s, id, now)
    case Some(id) =>
      IsCandidate(s, id, now) && forall o :: IsCandidate(s, o, now) ==> s.jobs[id].sequence <= s.jobs[o].sequence
  }

  function Grant(s: Db, id: Uuid, lease: Uuid, now: int): Db
    requires id in s.jobs
  {
    s.(jobs := s.jobs[id := s.jobs[id].(state := Uploading, lease := Some(lease), leaseUntil := now + LEASE_SECS,
                                        attempts := s.jobs[id].attempts + 1)],
       leases := s.leases + {lease})
  }

  /** The five clock readings of one `claim_transfer` call, in program order. */
  datatype ClaimTimes = ClaimTimes(t1: int, t2: int, t3: int, t4: int, t5: int)

  function Prepared(s: Db, t: ClaimTimes): Db {
    PrepareClaim(s, t.t1, t.t2, t.t3)
  }

  function Claim(s: Db, t: ClaimTimes, pick: Option<Uuid>, lease: Uuid): Db
    requires pick.Some? ==> pick.value in s.jobs
  {
    var p := Prepared(s, t);
    (if pick.None? then p else Grant(p, pick.value, lease, t.t5)).(clock := t.t5)
  }

  // ---- the sending worker --------------------------------------------------

  function RenewTransfer(s: Db, id: Uuid, lease: Uuid, now: int): Db {
    var s := s.(clock := now);
    if HoldsLease(s, id, lease) then s.(jobs := s.jobs[id := s.jobs[id].(leaseUntil := now + LEASE_SECS)]) else s
  }

  function BeginSend(s: Db, k: AttemptKey, lease: Uuid, now: int): Db {
    var s := s.(clock := now);
    if HoldsLiveLease(s, k.job, lease, now) && k !in s.attempts
    then s.(attempts := s.attempts[k := Attempt(Sending, NoKind, false, false, None, lease)])
    else s
  }

  function Checkpoint(s: Db, k: AttemptKey, location: Location): Db
    requires k.job in s.jobs
  {
    var chunks := s.chunks[ChunkKey(k.job, k.order) := location];
    s.(chunks := chunks,
       jobs := s.jobs[k.job := s.jobs[k.job].(chunksDone := |ChunkOrders(chunks, k.job)|)])
  }

  function SettledAttempt(a: Attempt, location: Location, mentionsFlood: bool): Attempt {
    a.(state := Checkpointed, kind := NoKind, mentionsFlood := mentionsFlood, retryable := false,
       location := Some(location))
  }

  predicate CanFinishSend(s: Db, k: AttemptKey, lease: Uuid, now: int) {
    HoldsLiveLease(s, k.job, lease, now) && k in s.attempts && s.attempts[k].state == Sending
  }

  function FinishSend(s: Db, k: AttemptKey, lease: Uuid, location: Location, now: int): Db {
    var s := s.(clock := now);
    if CanFinishSend(s, k, lease, now)
    then Checkpoint(
      s.(attempts := s.attempts[k := SettledAttempt(s.attempts[k], location, false)]), k, location)
    else s
  }

  predicate CanMark(s: Db, k: AttemptKey, lease: Uuid) {
    k in s.attempts && s.attempts[k].state == Sending && HoldsLease(s, k.job, lease)
  }

  function Mark(s: Db, k: AttemptKey, lease: Uuid, st: AttemptState, kind: ErrorKind, mentionsFlood: bool, now: int)
    : Db
  {
    var s := s.(clock := now);
    if CanMark(s, k, lease)
    then s.(attempts := s.attempts[k := MarkedAttempt(s.attempts[k], st, kind, mentionsFlood)])
    else s
  }

  function MarkedAttempt(a: Attempt, st: AttemptState, kind: ErrorKind, mentionsFlood: bool): Attempt {
    a.(state := st, kind := kind, mentionsFlood := mentionsFlood, retryable := st == Retryable)
  }

  function MarkUnknown(s: Db, k: AttemptKey, lease: Uuid, kind: ErrorKind, mentionsFlood: bool, now: int): Db {
    Mark(s, k, lease, Unknown, kind, mentionsFlood, now)
  }

  function MarkRetryable(s: Db, k: AttemptKey, lease: Uuid, kind: ErrorKind, mentionsFlood: bool, now: int): Db {
    Mark(s, k, lease, Retryable, kind, mentionsFlood, now)
  }

  function StartCommit(s: Db, id: Uuid, lease: Uuid, now: int): Db {
    var s := s.(clock := now);
    if InState(s, id, Uploading) && s.jobs[id].lease == Some(lease) && s.jobs[id].leaseUntil >= now
    then s.(jobs := s.jobs[id := s.jobs[id].(state := Committing)])
    else s
  }

  function FailedRow(j: Job, ambiguous: bool, retryAfter: Option<nat>, now: int): Job {
    j.(state := if !ambiguous && retryAfter.Some? then RetryWait else RecoveryRequired,
       nextRetry := SaturatingAdd(now, if retryAfter.Some? then AsI64(retryAfter.value) else 0),
       lease := None, leaseUntil := 0)
  }

  function TransferFailed(s: Db, id: Uuid, lease: Uuid, retryAfter: Option<nat>, now: int): Db {
    var s := s.(clock := now);
    if HoldsLease(s, id, lease)
    then s.(jobs := s.jobs[id := FailedRow(s.jobs[id], HasUnsettled(s.attempts, id), retryAfter, now)])
    else s
  }

  // ---- publication ---------------------------------------------------------

  /** `others` stands for the checks on rows outside the queue: journal, conditionals, quota. */
  predicate CanCommit(s: Db, id: Uuid, lease: Uuid, operation: Uuid, others: bool, now: int) {
    InState(s, id, Committing) && s.jobs[id].lease == Some(lease) && s.jobs[id].leaseUntil >= now
    && s.jobs[id].operation == Some(operation)
    && !HasOlderPending(s.jobs, id) && !LooksNewerCommitted(s.jobs, id)
    && others
    && (id in s.parts && s.parts[id].number == 0 ==> OpenForCompletion(s, s.parts[id].upload))
  }

  function Published(s: Db, id: Uuid): Db
    requires id in s.jobs && (id in s.parts && s.parts[id].number == 0 ==> s.parts[id].upload in s.uploads)
  {
    var s := s.(jobs := s.jobs[id := s.jobs[id].(state := Completed, lease := None, leaseUntil := 0)]);
    if id in s.parts && s.parts[id].number == 0
    then s.(uploads := s.uploads[s.parts[id].upload := s.uploads[s.parts[id].upload].(state := SessionCompleted)])
    else s
  }

  function CommitTransfer(s: Db, id: Uuid, lease: Uuid, operation: Uuid, others: bool, now: int): Db {
    var s := s.(clock := now);
    if CanCommit(s, id, lease, operation, others, now) then Published(s, id) else s
  }

  /** `staged` says the part's staged manifest row is present. */
  predicate CanFinishPart(s: Db, id: Uuid, lease: Uuid, upload: Uuid, staged: bool) {
    staged && OpenForParts(s, upload) && InState(s, id, Committing) && s.jobs[id].lease == Some(lease)
  }

  predicate IsSafeDuplicate(s: Db, o: Uuid, id: Uuid, upload: Uuid, number: nat)
    requires o in s.jobs
  {
    o != id && IsPart(s, o, upload, number)
    && s.jobs[o].state in {Receiving, Queued, RetryWait, RecoveryRequired}
    && !exists k :: k in s.attempts && k.job == o && s.attempts[k].state in {Sending, Unknown, Checkpointed}
  }

  function FinishPart(s: Db, id: Uuid, lease: Uuid, upload: Uuid, number: nat, staged: bool, now: int): Db {
    var s := s.(clock := now);
    if !CanFinishPart(s, id, lease, upload, staged) then s
    else
      var s := s.(jobs := s.jobs[id := s.jobs[id].(state := Completed, lease := None)]);
      s.(jobs := map o | o in s.jobs :: SupersedeRow(s.jobs[o], IsSafeDuplicate(s, o, id, upload, number)))
  }

  function CleanStaging(s: Db, id: Uuid): Db {
    if id in s.jobs && s.jobs[id].state in {Completed, Cancelled, ReceptionFailed, Superseded}
    then s.(jobs := s.jobs[id := s.jobs[id].(state := Cleaned, bytes := 0)])
    else s
  }

  // ---- recovery ------------------------------------------------------------

  function ReclassifyAttempts(s: Db): Db {
    s.(attempts := map k | k in s.attempts ::
      if s.attempts[k].state == Unknown && s.attempts[k].mentionsFlood
      then s.attempts[k].(state := Retryable, kind := FloodWait, retryable := true)
      else s.attempts[k])
  }

  function PauseRow(j: Job, flooded: bool, retryAt: int): Job {
    if j.state == RecoveryRequired && flooded then j.(nextRetry := Max(j.nextRetry, retryAt)) else j
  }

  function PauseFlooded(s: Db, retryAt: int): Db {
    s.(jobs := map id | id in s.jobs :: PauseRow(s.jobs[id], HasFloodWait(s.attempts, id), retryAt))
  }

  function RescheduleRow(j: Job, open: bool, flooded: bool, retryAt: int): Job {
    if j.state == RecoveryRequired && !open && flooded
    then j.(state := RetryWait, nextRetry := Max(j.nextRetry, retryAt), lease := None, leaseUntil := 0)
    else j
  }

  function RescheduleFlooded(s: Db, retryAt: int): Db {
    s.(jobs := map id | id in s.jobs ::
      RescheduleRow(s.jobs[id], HasUnsettled(s.attempts, id), HasFloodWait(s.attempts, id), retryAt))
  }

  function RetryAt(retryAfter: nat, now: int): int {
    SaturatingAdd(now, AsI64(if retryAfter >= 1 then retryAfter else 1))
  }

  function ReclassifyFloodWaits(s: Db, retryAfter: nat, now: int): Db {
    var at := RetryAt(retryAfter, now);
    RescheduleFlooded(PauseFlooded(ReclassifyAttempts(s.(clock := now)), at), at)
  }

  function AbsentAttempt(a: Attempt, mentionsFlood: bool): Attempt {
    a.(state := Retryable, kind := ReconciliationAbsent, mentionsFlood := mentionsFlood, retryable := true)
  }

  predicate CanResolve(s: Db, k: AttemptKey) {
    k in s.attempts && s.attempts[k].state == Unknown && k.job in s.jobs
  }

  function Settled(s: Db, k: AttemptKey, location: Option<Location>, mentionsFlood: bool): Db
    requires k in s.attempts && k.job in s.jobs
  {
    match location
    case Some(l) =>
      Checkpoint(s.(attempts := s.attempts[k := SettledAttempt(s.attempts[k], l, mentionsFlood)]), k, l)
    case None =>
      s.(attempts := s.attempts[k := AbsentAttempt(s.attempts[k], mentionsFlood)],
         jobs := s.jobs[k.job := s.jobs[k.job].(chunksDone := |ChunkOrders(s.chunks, k.job)|)])
  }

  function ResolveSend(s: Db, k: AttemptKey, location: Option<Location>, mentionsFlood: bool, now: int): Db {
    var s := s.(clock := now);
    if CanResolve(s, k) then Settled(s, k, location, mentionsFlood) else s
  }

  predicate CanQueueAfterReconciliation(s: Db, id: Uuid) {
    InState(s, id, RecoveryRequired) && !HasUnsettled(s.attempts, id)
  }

  function RequeueRow(j: Job, flooded: bool, now: int): Job {
    if flooded && j.nextRetry > now then j.(state := RetryWait) else j.(state := Queued, nextRetry := 0)
  }

  function QueueAfterReconciliation(s: Db, id: Uuid, now: int): Db {
    var s := s.(clock := now);
    if CanQueueAfterReconciliation(s, id)
    then s.(jobs := s.jobs[id := RequeueRow(s.jobs[id], HasFloodWait(s.attempts, id), now)])
    else s
  }

  // ---- operator and administration -----------------------------------------

  predicate CanRetry(s: Db, id: Uuid) {
    id in s.jobs && s.jobs[id].state in {RetryWait, RecoveryRequired} && s.jobs[id].operation.Some?
      && !HasUnsettled(s.attempts, id)
  }

  function OperatorRetry(s: Db, id: Uuid): Db {
    if CanRetry(s, id) then s.(jobs := s.jobs[id := s.jobs[id].(state := Queued, nextRetry := 0)]) else s
  }

  function OperatorCancel(s: Db, id: Uuid, now: int): Db {
    var s := s.(clock := now);
    if id in s.jobs && s.jobs[id].state in {Queued, RetryWait, RecoveryRequired}
    then s.(jobs := s.jobs[id := s.jobs[id].(state := Cancelled, lease := None, leaseUntil := 0)])
    else s
  }

  predicate IsFor(j: Job, bucket: string, key: string) {
    j.bucket == bucket && j.key == key
  }

  /** `others` stands for the conditional-delete checks, which roll the deletion back. */
  function DeleteKey(s: Db, bucket: string, key: string, others: bool, now: int): Db {
    var s := s.(clock := now);
    if !others || exists o :: o in s.jobs && IsFor(s.jobs[o], bucket, key) && Active(s.jobs[o].state) then s
    else s.(jobs := map o | o in s.jobs ::
      CancelRow(s.jobs[o], IsFor(s.jobs[o], bucket, key)
                           && s.jobs[o].state in {Receiving, Queued, RetryWait, RecoveryRequired}))
  }

  function AdoptRow(j: Job, legacy: Uuid, connection: Uuid): Job {
    if j.connection == legacy then j.(connection := connection) else j
  }

  function AdoptConnection(s: Db, legacy: Uuid, connection: Uuid): Db {
    s.(jobs := map o | o in s.jobs :: AdoptRow(s.jobs[o], legacy, connection),
       uploads := map u | u in s.uploads ::
         if s.uploads[u].connection == legacy then s.uploads[u].(connection := connection) else s.uploads[u])
  }

  function RemoveConnection(s: Db, connection: Uuid, now: int): Db {
    s.(clock := now,
       jobs := map o | o in s.jobs ::
         CancelRow(s.jobs[o], s.jobs[o].connection == connection
                              && s.jobs[o].state !in {Completed, Cancelled, Cleaned}),
       uploads := map u | u in s.uploads ::
         if s.uploads[u].connection == connection && s.uploads[u].state != SessionCompleted
         then s.uploads[u].(state := Aborted)
         else s.uploads[u])
  }

  predicate OfConnection(s: Db, id: Uuid, connection: Uuid) {
    id in s.jobs && s.jobs[id].connection == connection
  }

  function PurgeConnection(s: Db, connection: Uuid): Db {
    s.(attempts := map k | k in s.attempts && !OfConnection(s, k.job, connection) :: s.attempts[k],
       chunks := map c | c in s.chunks && !OfConnection(s, c.job, connection) :: s.chunks[c],
       parts := map id | id in s.parts && !OfConnection(s, id, connection) :: s.parts[id],
       jobs := map id | id in s.jobs && !OfConnection(s, id, connection) :: s.jobs[id],
       uploads := map u | u in s.uploads && s.uploads[u].connection != connection :: s.uploads[u])
  }
}
