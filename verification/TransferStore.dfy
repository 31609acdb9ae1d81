/**
 The transfer half of `MetadataStore` (src/durable.rs) as an object whose methods update the
 rows in place, statement by statement.

 The ghost field `model` is a state some run of `TransferRuns` has reached, and `Valid()` says
 the rows are that state.  Each public method requires what the environment guarantees, makes
 one call of the run, and says what its caller may rely on afterwards.  The methods without
 `Valid()` are statements inside one transaction.
 */
module TransferStore {
  import opened Basics
  import opened TransferModel
  import opened TransferRuns
  import opened TransferSafety
  import opened TransferRecovery
  import opened TransferAccounting
  import opened TransferClaim
  import opened TransferCalls

  class Store {
    var jobs: map<Uuid, Job>
    var attempts: map<AttemptKey, Attempt>
    var chunks: map<ChunkKey, Location>
    var parts: map<Uuid, PartRef>
    var uploads: map<Uuid, Session>
    var nextSequence: nat
    ghost var model: Reached

    /** The rows, with the history `model` records. */
    ghost function State(): Db
      reads this
    {
      Db(jobs, attempts, chunks, parts, uploads, nextSequence, model.clock, model.everJobs, model.everUploads,
         model.leases)
    }

    ghost predicate Valid()
      reads this
    {
      State() == model
    }

    constructor ()
      ensures Valid() && model == EMPTY
    {
      jobs, attempts, chunks, parts, uploads := map[], map[], map[], map[], map[];
      nextSequence := 1;
      model := EMPTY;
    }

    // ---- admission ---------------------------------------------------------

    method BeginTransfer(id: Uuid, connection: Uuid, bucket: string, key: string, bucketExists: bool, now: int)
      returns (ok: bool)
      requires Valid() && model.clock <= now
      requires id in model.everJobs ==> id in jobs
      modifies this`jobs, this`nextSequence, this`model
      ensures Valid() && model == Apply(old(model), OpBegin(id, connection, bucket, key, bucketExists, now))
      ensures ok <==> bucketExists && id !in old(jobs)
      ensures ok ==> Newest(model, id) && InState(model, id, Receiving)
      ensures !ok ==> model == old(model).(clock := now)
      ensures ok ==> nextSequence == old(nextSequence) + 1
      ensures ok ==> jobs == old(jobs)[id :=
        Job(old(nextSequence), connection, None, bucket, key, Receiving, 0, 0, 0, 0, 0, None, now + 120)]
    {
      model := Call(model, OpBegin(id, connection, bucket, key, bucketExists, now));
      ok := bucketExists && id !in jobs;
      if ok {
        jobs := jobs[id := Job(nextSequence, connection, None, bucket, key, Receiving, 0, 0, 0, 0, 0, None,
                               now + LEASE_SECS)];
        nextSequence := nextSequence + 1;
        BegunIsNewest(old(model), id, connection, bucket, key, now);
      }
    }

    method RenewReceiving(id: Uuid, now: int) returns (ok: bool)
      requires Valid() && model.clock <= now
      modifies this`jobs, this`model
      ensures Valid() && model == Apply(old(model), OpRenewReceiving(id, now))
      ensures ok <==> id in old(jobs) && old(jobs)[id].state == Receiving
      ensures ok ==> forall t :: t <= now + LEASE_SECS ==> ExpireRow(jobs[id], t) == jobs[id]
      ensures !ok ==> model == old(model).(clock := now)
      ensures ok ==> jobs == old(jobs)[id := old(jobs)[id].(leaseUntil := now + 120)]
    {
      model := Call(model, OpRenewReceiving(id, now));
      ok := id in jobs && jobs[id].state == Receiving;
      if ok {
        jobs := jobs[id := jobs[id].(leaseUntil := now + LEASE_SECS)];
      }
    }

    /** The `SUM(bytes)` over jobs neither completed nor cleaned, row by row. */
    method SumStaged() returns (used: nat)
      ensures used == StagedBytes(jobs)
    {
      var rest := jobs;
      used := 0;
      while |rest| > 0
        invariant used + StagedBytes(rest) == StagedBytes(jobs)
        decreases |rest|
      {
        var id :| id in rest;
        StagedBytesWithout(rest, id);
        used := used + Weight(rest[id]);
        rest := rest - {id};
      }
    }

    /** The statements of `reserve_staging`. */
    method AddBytes(id: Uuid, bytes: nat, budget: nat, now: int) returns (ok: bool)
      modifies this`jobs
      ensures ok <==> CanReserve(old(State()), id, bytes, budget, StagedBytes(old(jobs)))
      ensures ok <==>
        && id in old(jobs) && old(jobs)[id].state == Receiving
        && StagedBytes(old(jobs)) <= I64_MAX && bytes <= I64_MAX && StagedBytes(old(jobs)) + bytes <= budget
      ensures ok ==>
        jobs == old(jobs)[id := old(jobs)[id].(bytes := old(jobs)[id].bytes + bytes, leaseUntil := now + 120)]
      ensures State().(clock := now)
              == TransferModel.ReserveStaging(old(State()), id, bytes, budget, StagedBytes(old(jobs)), now)
    {
      var used := SumStaged();
      var wanted := if used + bytes > U64_MAX then U64_MAX else used + bytes;
      ok := used <= I64_MAX && bytes <= I64_MAX && wanted <= budget && id in jobs && jobs[id].state == Receiving;
      if ok {
        jobs := jobs[id := jobs[id].(bytes := jobs[id].bytes + bytes, leaseUntil := now + LEASE_SECS)];
      }
    }

    method ReserveStaging(id: Uuid, bytes: nat, budget: nat, now: int) returns (ok: bool)
      requires Valid() && model.clock <= now
      modifies this`jobs, this`model
      ensures Valid() && model == Apply(old(model), OpReserve(id, bytes, budget, StagedBytes(old(model).jobs), now))
      ensures ok <==>
        && id in old(jobs) && old(jobs)[id].state == Receiving
        && StagedBytes(old(model).jobs) <= I64_MAX && bytes <= I64_MAX && StagedBytes(old(model).jobs) + bytes <= budget
      ensures ok ==> StagedBytes(model.jobs) <= budget
      ensures StagedBytes(model.jobs) == StagedBytes(old(model).jobs) + if ok then bytes else 0
      ensures ok ==>
        jobs == old(jobs)[id := old(jobs)[id].(bytes := old(jobs)[id].bytes + bytes, leaseUntil := now + 120)]
    {
      ok := AddBytes(id, bytes, budget, now);
      ReservationIsCounted(model, id, bytes, budget, now);
      model := Call(model, OpReserve(id, bytes, budget, StagedBytes(model.jobs), now));
    }

    method QueueTransfer(id: Uuid, operation: Uuid, chunkCount: nat, now: int) returns (ok: bool)
      requires Valid() && model.clock <= now
      modifies this`jobs, this`model
      ensures Valid() && model == Apply(old(model), OpQueue(id, operation, chunkCount, now))
      ensures ok <==> id in old(jobs) && old(jobs)[id].state == Receiving
      ensures ok ==> ClaimableWhenDue(model, id)
      ensures !ok ==> model == old(model).(clock := now)
      ensures ok ==> jobs == old(jobs)[id :=
        old(jobs)[id].(operation := Some(operation), chunksTotal := chunkCount, state := Queued, leaseUntil := 0)]
    {
      model := Call(model, OpQueue(id, operation, chunkCount, now));
      ok := id in jobs && jobs[id].state == Receiving;
      if ok {
        jobs := jobs[id := jobs[id].(operation := Some(operation), chunksTotal := chunkCount, state := Queued,
                                     leaseUntil := 0)];
        QueuedIsClaimable(old(model), id, operation, chunkCount, now);
      }
    }

    method FailReception(id: Uuid, filesRemoved: bool, now: int) returns (ok: bool)
      requires Valid() && model.clock <= now
      modifies this`jobs, this`model
      ensures Valid() && model == Apply(old(model), OpFailReception(id, filesRemoved, now))
      ensures ok <==> id in old(jobs) && old(jobs)[id].state == Receiving
      ensures ok ==> NeverClaimable(model, id)
      ensures ok ==> StagedBytes(model.jobs) == StagedBytes(old(jobs)) - if filesRemoved then old(jobs)[id].bytes else 0
      ensures !ok ==> model == old(model).(clock := now)
      ensures ok && filesRemoved ==> jobs == old(jobs)[id :=
        old(jobs)[id].(state := ReceptionFailed, bytes := 0, lease := None, leaseUntil := 0)]
      ensures ok && !filesRemoved ==> jobs == old(jobs)[id :=
        old(jobs)[id].(state := RecoveryRequired, lease := None, leaseUntil := 0)]
    {
      model := Call(model, OpFailReception(id, filesRemoved, now));
      ok := id in jobs && jobs[id].state == Receiving;
      if ok {
        var j := jobs[id].(lease := None, leaseUntil := 0);
        jobs := jobs[id := if filesRemoved then j.(state := ReceptionFailed, bytes := 0)
                     else j.(state := RecoveryRequired)];
        FailedReceptionReleases(old(model), id, filesRemoved, now);
      }
    }

    method RejectForQuota(id: Uuid, now: int) returns (ok: bool)
      requires Valid() && model.clock <= now
      modifies this`jobs, this`model
      ensures Valid() && model == Apply(old(model), OpRejectForQuota(id, now))
      ensures ok <==> id in old(jobs) && old(jobs)[id].state in {Uploading, Committing}
      ensures ok ==> NeverClaimable(model, id)
      ensures ok ==> StagedBytes(model.jobs) == StagedBytes(old(jobs)) - old(jobs)[id].bytes
      ensures !ok ==> model == old(model).(clock := now)
      ensures ok ==> jobs == old(jobs)[id :=
        old(jobs)[id].(state := ReceptionFailed, bytes := 0, lease := None, leaseUntil := 0)]
    {
      model := Call(model, OpRejectForQuota(id, now));
      ok := id in jobs && Active(jobs[id].state);
      if ok {
        jobs := jobs[id := jobs[id].(state := ReceptionFailed, bytes := 0, lease := None, leaseUntil := 0)];
        RejectionReleases(old(model), id, now);
      }
    }

    // ---- claiming ----------------------------------------------------------

    /** `ORDER BY candidate.sequence LIMIT 1` over the rows. */
    method PickCandidate(now: int) returns (pick: Option<Uuid>)
      ensures IsPick(State(), pick, now)
    {
      pick := None;
      var rest := jobs.Keys;
      while rest != {}
        invariant pick.Some? ==> IsRunnable(pick.value, now)
        invariant forall o :: o in jobs && o !in rest && IsRunnable(o, now) ==>
          pick.Some? && jobs[pick.value].sequence <= jobs[o].sequence
        decreases rest
      {
        var id :| id in rest;
        if IsRunnable(id, now) && (pick.None? || jobs[id].sequence < jobs[pick.value].sequence) {
          pick := Some(id);
        }
        rest := rest - {id};
      }
    }

    /** The candidate condition of the claim query, read from the rows. */
    predicate IsRunnable(id: Uuid, now: int)
      reads this
      ensures IsRunnable(id, now) <==> IsCandidate(State(), id, now)
      ensures IsRunnable(id, now) ==> id in jobs
    {
      id in jobs
      && ((jobs[id].state in {Queued, RetryWait} && jobs[id].nextRetry <= now)
          || (Active(jobs[id].state) && jobs[id].leaseUntil < now))
      && !HasUnsettled(attempts, id)
      && !HasOlderPending(jobs, id)
    }

    method ExpireReceptions(now: int)
      modifies this`jobs
      ensures State() == TransferModel.ExpireReceptions(old(State()), now)
    {
      jobs := map id | id in jobs :: ExpireRow(jobs[id], now);
    }

    method FenceLostSends(now: int)
      modifies this`jobs
      ensures State() == TransferModel.FenceLostSends(old(State()), now)
    {
      jobs := map id | id in jobs :: FenceRow(jobs[id], now, HasUnsettled(attempts, id));
    }

    method MarkLostSendsUnknown(now: int)
      modifies this`attempts
      ensures State() == TransferModel.MarkLostSendsUnknown(old(State()), now)
    {
      attempts := map k | k in attempts ::
        if attempts[k].state == Sending && k.job in jobs
           && ((jobs[k.job].state == RecoveryRequired && jobs[k.job].lease == None)
               || (Active(jobs[k.job].state) && jobs[k.job].leaseUntil < now))
        then attempts[k].(state := Unknown, kind := LeaseExpired, mentionsFlood := false)
        else attempts[k];
    }

    predicate IsOpenForParts(upload: Uuid)
      reads this
      ensures IsOpenForParts(upload) <==> OpenForParts(State(), upload)
    {
      upload in uploads && uploads[upload].state in {Initiated, SessionUploading}
    }

    predicate IsOpenForCompletion(upload: Uuid)
      reads this
      ensures IsOpenForCompletion(upload) <==> OpenForCompletion(State(), upload)
    {
      upload in uploads && uploads[upload].state in {Initiated, SessionUploading, Completing}
    }

    predicate ClosedFor(id: Uuid)
      reads this
      ensures ClosedFor(id) <==> SessionClosedFor(State(), id)
    {
      id in parts && parts[id].upload in uploads
      && !(if parts[id].number == 0 then IsOpenForCompletion(parts[id].upload) else IsOpenForParts(parts[id].upload))
    }

    method CancelClosedSessions()
      modifies this`jobs
      ensures State() == TransferModel.CancelClosedSessions(old(State()))
    {
      jobs := map id | id in jobs ::
        CancelRow(jobs[id], ClosedFor(id) && jobs[id].state in {Queued, RetryWait, RecoveryRequired});
    }

    method SupersedeOlder()
      modifies this`jobs
      ensures State() == TransferModel.SupersedeOlder(old(State()))
    {
      jobs := map id | id in jobs :: SupersedeRow(jobs[id], IsSuperseded(jobs, id));
    }

    /** The five updates `claim_transfer` makes before it selects a candidate. */
    method Normalize(t: ClaimTimes)
      modifies this`jobs, this`attempts
      ensures State() == Prepared(old(State()), t)
    {
      ExpireReceptions(t.t1);
      FenceLostSends(t.t2);
      MarkLostSendsUnknown(t.t3);
      CancelClosedSessions();
      SupersedeOlder();
    }

    method GrantLease(id: Uuid, lease: Uuid, now: int)
      requires id in jobs
      modifies this`jobs
      ensures State() == Grant(old(State()), id, lease, now).(leases := model.leases)
    {
      var j := jobs[id];
      jobs := jobs[id := j.(state := Uploading, lease := Some(lease), leaseUntil := now + LEASE_SECS,
                            attempts := j.attempts + 1)];
    }

    /** The statements of `claim_transfer`. */
    method Select(t: ClaimTimes, lease: Uuid) returns (pick: Option<Uuid>)
      modifies this`jobs, this`attempts
      ensures IsPick(Prepared(old(State()), t), pick, t.t4) && (pick.Some? ==> pick.value in old(jobs))
      ensures State() == Claim(old(State()), t, pick, lease).(clock := model.clock, leases := model.leases)
    {
      ghost var s := State();
      Normalize(t);
      PreparedKeepsRows(s, t);
      pick := PickCandidate(t.t4);
      if pick.Some? {
        GrantLease(pick.value, lease, t.t5);
      }
    }

    method ClaimTransfer(t: ClaimTimes, lease: Uuid) returns (pick: Option<Uuid>)
      requires Valid() && Ordered(model.clock, t) && lease !in model.leases
      modifies this`jobs, this`attempts, this`model
      ensures Valid() && IsPick(Prepared(old(model), t), pick, t.t4)
      ensures model == Apply(old(model), OpClaim(t, pick, lease))
      ensures PickIsFirst(old(model), t, pick) && ClaimDecides(old(model), model, t, pick, lease)
      ensures ClaimPromise(model, t, pick, lease)
    {
      pick := Select(t, lease);
      ClaimKeepsPromise(model, t, pick, lease);
      model := Call(model, OpClaim(t, pick, lease));
    }

    // ---- the sending worker ------------------------------------------------

    predicate IsHeld(id: Uuid, lease: Uuid)
      reads this
      ensures IsHeld(id, lease) <==> HoldsLease(State(), id, lease)
      ensures IsHeld(id, lease) ==> id in jobs
    {
      id in jobs && jobs[id].lease == Some(lease) && Active(jobs[id].state)
    }

    method RenewTransfer(id: Uuid, lease: Uuid, now: int) returns (ok: bool)
      requires Valid() && model.clock <= now
      modifies this`jobs, this`model
      ensures Valid() && model == Apply(old(model), OpRenewTransfer(id, lease, now))
      ensures ok <==> id in old(jobs) && IsWorkedOnUnder(old(jobs)[id], lease)
      ensures ok ==> HoldsLease(model, id, lease) && HeldUntil(model, id, now + 120)
      ensures !ok ==> model == old(model).(clock := now)
      ensures ok ==> jobs == old(jobs)[id := old(jobs)[id].(leaseUntil := now + 120)]
    {
      model := Call(model, OpRenewTransfer(id, lease, now));
      ok := IsHeld(id, lease);
      if ok {
        jobs := jobs[id := jobs[id].(leaseUntil := now + LEASE_SECS)];
      }
    }

    method BeginSend(k: AttemptKey, lease: Uuid, now: int) returns (ok: bool)
      requires Valid() && model.clock <= now
      modifies this`attempts, this`model
      ensures Valid() && model == Apply(old(model), OpBeginSend(k, lease, now))
      ensures ok <==>
        && k.job in old(jobs) && IsWorkedOnUnder(old(jobs)[k.job], lease)
        && now <= old(jobs)[k.job].leaseUntil && k !in old(attempts)
      ensures ok ==> SoleSender(model, k.job, lease) && NeverClaimable(model, k.job)
      ensures !ok ==> model == old(model).(clock := now)
      ensures ok ==> attempts == old(attempts)[k := Attempt(Sending, NoKind, false, false, None, lease)]
    {
      model := Call(model, OpBeginSend(k, lease, now));
      ok := IsHeld(k.job, lease) && jobs[k.job].leaseUntil >= now && k !in attempts;
      if ok {
        attempts := attempts[k := Attempt(Sending, NoKind, false, false, None, lease)];
        SenderIsAlone(old(model), k, lease, now);
      }
    }

    /** Stores the location and recounts the job's chunks. */
    method StoreCheckpoint(k: AttemptKey, location: Location)
      requires k.job in jobs
      modifies this`jobs, this`chunks
      ensures State() == Checkpoint(old(State()), k, location)
    {
      chunks := chunks[ChunkKey(k.job, k.order) := location];
      jobs := jobs[k.job := jobs[k.job].(chunksDone := |ChunkOrders(chunks, k.job)|)];
    }

    /** Marks the attempt as checkpointed at `location` and stores the location. */
    method SettleAt(k: AttemptKey, location: Location, mentionsFlood: bool)
      requires k in attempts && k.job in jobs
      modifies this`jobs, this`attempts, this`chunks
      ensures State() == Checkpoint(
        old(State()).(attempts := old(attempts)[k := SettledAttempt(old(attempts)[k], location, mentionsFlood)]),
        k, location)
    {
      attempts := attempts[k := SettledAttempt(attempts[k], location, mentionsFlood)];
      StoreCheckpoint(k, location);
    }

    method FinishSend(k: AttemptKey, lease: Uuid, location: Location, now: int) returns (ok: bool)
      requires Valid() && model.clock <= now
      modifies this`jobs, this`attempts, this`chunks, this`model
      ensures Valid() && model == Apply(old(model), OpFinishSend(k, lease, location, now))
      ensures ok <==>
        && k.job in old(jobs) && IsWorkedOnUnder(old(jobs)[k.job], lease)
        && now <= old(jobs)[k.job].leaseUntil && k in old(attempts) && old(attempts)[k].state == Sending
      ensures ok ==> StoredAt(model, k, location)
      ensures !ok ==> model == old(model).(clock := now)
      ensures ok ==> attempts == old(attempts)[k := old(attempts)[k].(
        state := Checkpointed, kind := NoKind, mentionsFlood := false, retryable := false, location := Some(location))]
      ensures ok ==> chunks == old(chunks)[ChunkKey(k.job, k.order) := location]
      ensures ok ==> jobs == old(jobs)[k.job := old(jobs)[k.job].(chunksDone := ChunkCount(chunks, k.job))]
    {
      ok := IsHeld(k.job, lease) && jobs[k.job].leaseUntil >= now && k in attempts && attempts[k].state == Sending;
      if ok {
        SettleAt(k, location, false);
        FinishedSendIsStored(model, k, lease, location, now);
      }
      model := Call(model, OpFinishSend(k, lease, location, now));
    }

    /** The statement of both marks. */
    method Mark(k: AttemptKey, lease: Uuid, st: AttemptState, kind: ErrorKind, mentionsFlood: bool, ghost now: int)
      returns (ok: bool)
      modifies this`attempts
      ensures ok <==> CanMark(old(State()), k, lease)
      ensures ok <==>
        && k.job in jobs && IsWorkedOnUnder(jobs[k.job], lease)
        && k in old(attempts) && old(attempts)[k].state == Sending
      ensures ok ==> attempts == old(attempts)[k := old(attempts)[k].(
        state := st, kind := kind, mentionsFlood := mentionsFlood, retryable := st == Retryable)]
      ensures !ok ==> State() == old(State())
      ensures State().(clock := now) == TransferModel.Mark(old(State()), k, lease, st, kind, mentionsFlood, now)
    {
      ok := k in attempts && attempts[k].state == Sending && IsHeld(k.job, lease);
      if ok {
        attempts := attempts[k := attempts[k].(state := st, kind := kind, mentionsFlood := mentionsFlood,
                                               retryable := st == Retryable)];
      }
    }

    method MarkUnknown(k: AttemptKey, lease: Uuid, kind: ErrorKind, mentionsFlood: bool, now: int) returns (ok: bool)
      requires Valid() && model.clock <= now
      modifies this`attempts, this`model
      ensures Valid() && model == Apply(old(model), OpMarkUnknown(k, lease, kind, mentionsFlood, now))
      ensures ok <==>
        && k.job in old(jobs) && IsWorkedOnUnder(old(jobs)[k.job], lease)
        && k in old(attempts) && old(attempts)[k].state == Sending
      ensures ok ==> UnknownSends(model, k.job) == UnknownSends(old(model), k.job) + {k} && NeverClaimable(model, k.job)
      ensures !ok ==> model == old(model).(clock := now)
      ensures ok ==> attempts == old(attempts)[k := old(attempts)[k].(
        state := Unknown, kind := kind, mentionsFlood := mentionsFlood, retryable := false)]
    {
      ok := Mark(k, lease, Unknown, kind, mentionsFlood, now);
      if ok {
        UnknownBlocksClaims(model, k, lease, kind, mentionsFlood, now);
      }
      model := Call(model, OpMarkUnknown(k, lease, kind, mentionsFlood, now));
    }

    method MarkRetryable(k: AttemptKey, lease: Uuid, kind: ErrorKind, mentionsFlood: bool, now: int) returns (ok: bool)
      requires Valid() && model.clock <= now
      modifies this`attempts, this`model
      ensures Valid() && model == Apply(old(model), OpMarkRetryable(k, lease, kind, mentionsFlood, now))
      ensures ok <==>
        && k.job in old(jobs) && IsWorkedOnUnder(old(jobs)[k.job], lease)
        && k in old(attempts) && old(attempts)[k].state == Sending
      ensures ok ==> OpenSends(model, k.job) == OpenSends(old(model), k.job) - {k}
      ensures !ok ==> model == old(model).(clock := now)
      ensures ok ==> attempts == old(attempts)[k := old(attempts)[k].(
        state := Retryable, kind := kind, mentionsFlood := mentionsFlood, retryable := true)]
    {
      ok := Mark(k, lease, Retryable, kind, mentionsFlood, now);
      if ok {
        RetryableSettlesOne(model, k, lease, kind, mentionsFlood, now);
      }
      model := Call(model, OpMarkRetryable(k, lease, kind, mentionsFlood, now));
    }

    /** The statements of `transfer_failed`. */
    method GiveUp(id: Uuid, lease: Uuid, retryAfter: Option<nat>, now: int)
      modifies this`jobs
      ensures !HoldsLease(old(State()), id, lease) ==> State() == old(State())
      ensures State().(clock := now) == TransferModel.TransferFailed(old(State()), id, lease, retryAfter, now)
    {
      var ambiguous := HasUnsettled(attempts, id);
      var st := if ambiguous then RecoveryRequired else if retryAfter.Some? then RetryWait else RecoveryRequired;
      if IsHeld(id, lease) {
        var at := SaturatingAdd(now, AsI64(if retryAfter.Some? then retryAfter.value else 0));
        jobs := jobs[id := jobs[id].(state := st, nextRetry := at, lease := None, leaseUntil := 0)];
      }
    }

    method TransferFailed(id: Uuid, lease: Uuid, retryAfter: Option<nat>, now: int)
      requires Valid() && model.clock <= now
      modifies this`jobs, this`model
      ensures Valid() && model == Apply(old(model), OpFailed(id, lease, retryAfter, now))
      ensures HoldsLease(old(model), id, lease) ==>
        && !HoldsLease(model, id, lease)
        && if retryAfter.Some? && OpenSends(model, id) == {} then ClaimableWhenDue(model, id)
           else NeverClaimable(model, id)
      ensures !HoldsLease(old(model), id, lease) ==> model == old(model).(clock := now)
      ensures HoldsLease(old(model), id, lease) ==> jobs == old(jobs)[id := old(jobs)[id].(
        state := if retryAfter.Some? && OpenSends(old(model), id) == {} then RetryWait else RecoveryRequired,
        nextRetry := SaturatingAdd(now, if retryAfter.Some? then AsI64(retryAfter.value) else 0),
        lease := None, leaseUntil := 0)]
      ensures HoldsLease(old(model), id, lease) && retryAfter.Some? && 0 <= now && now + retryAfter.value <= I64_MAX ==>
        jobs[id].nextRetry == now + retryAfter.value
    {
      NoOpenSends(model, id);
      GiveUp(id, lease, retryAfter, now);
      if HoldsLease(model, id, lease) {
        FailedTransferWaits(model, id, lease, retryAfter, now);
      }
      model := Call(model, OpFailed(id, lease, retryAfter, now));
    }

    /** Completes the job and, when it is a multipart completion, its session. */
    method Publish(id: Uuid)
      requires id in jobs && (id in parts && parts[id].number == 0 ==> parts[id].upload in uploads)
      modifies this`jobs, this`uploads
      ensures State() == Published(old(State()), id)
      ensures jobs == old(jobs)[id := old(jobs)[id].(state := Completed, lease := None, leaseUntil := 0)]
      ensures id in parts && parts[id].number == 0 ==>
        uploads == old(uploads)[parts[id].upload := old(uploads)[parts[id].upload].(state := SessionCompleted)]
      ensures id !in parts || parts[id].number != 0 ==> uploads == old(uploads)
    {
      jobs := jobs[id := jobs[id].(state := Completed, lease := None, leaseUntil := 0)];
      if id in parts && parts[id].number == 0 {
        uploads := uploads[parts[id].upload := uploads[parts[id].upload].(state := SessionCompleted)];
      }
    }

    predicate IsCommittable(id: Uuid, lease: Uuid, operation: Uuid, others: bool, now: int)
      reads this
      ensures IsCommittable(id, lease, operation, others, now) <==>
        CanCommit(State(), id, lease, operation, others, now)
    {
      id in jobs && jobs[id].state == Committing && jobs[id].lease == Some(lease) && jobs[id].leaseUntil >= now
      && jobs[id].operation == Some(operation)
      && !HasOlderPending(jobs, id) && !LooksNewerCommitted(jobs, id)
      && others
      && (id in parts && parts[id].number == 0 ==> IsOpenForCompletion(parts[id].upload))
    }

    /** The statements of the fenced commit. */
    method Commit(id: Uuid, lease: Uuid, operation: Uuid, others: bool, now: int) returns (ok: bool)
      modifies this`jobs, this`uploads
      ensures ok <==> CanCommit(old(State()), id, lease, operation, others, now)
      ensures !ok ==> State() == old(State())
      ensures State().(clock := now) == TransferModel.CommitTransfer(old(State()), id, lease, operation, others, now)
      ensures ok ==> jobs == old(jobs)[id := old(jobs)[id].(state := Completed, lease := None, leaseUntil := 0)]
      ensures ok && id in parts && parts[id].number == 0 ==>
        uploads == old(uploads)[parts[id].upload := old(uploads)[parts[id].upload].(state := SessionCompleted)]
      ensures ok && (id !in parts || parts[id].number != 0) ==> uploads == old(uploads)
    {
      ok := IsCommittable(id, lease, operation, others, now);
      if ok {
        Publish(id);
      }
    }

    method CommitTransfer(id: Uuid, lease: Uuid, operation: Uuid, others: bool, now: int) returns (ok: bool)
      requires Valid() && model.clock <= now
      modifies this`jobs, this`uploads, this`model
      ensures Valid() && model == Apply(old(model), OpCommit(id, lease, operation, others, now))
      ensures ok <==>
        && id in old(jobs) && old(jobs)[id].state == Committing && old(jobs)[id].lease == Some(lease)
        && now <= old(jobs)[id].leaseUntil && old(jobs)[id].operation == Some(operation) && others
        && MayPublish(old(model), id)
      ensures ok ==> InState(model, id, Completed) && LatestWrite(model, id)
      ensures ok ==> StagedBytes(model.jobs) == StagedBytes(old(model).jobs) - old(model).jobs[id].bytes
      ensures !ok ==> model == old(model).(clock := now)
      ensures ok ==> jobs == old(jobs)[id := old(jobs)[id].(state := Completed, lease := None, leaseUntil := 0)]
      ensures ok && id in parts && parts[id].number == 0 ==>
        uploads == old(uploads)[parts[id].upload := old(uploads)[parts[id].upload].(state := SessionCompleted)]
      ensures ok && (id !in parts || parts[id].number != 0) ==> uploads == old(uploads)
    {
      ok := Commit(id, lease, operation, others, now);
      CommitIsChecked(model, id, lease, operation, others, now);
      if ok {
        CommittedIsLatest(model, id, lease, operation, others, now);
      }
      model := Call(model, OpCommit(id, lease, operation, others, now));
    }

    /** The staged manifest is published next; from here on only the lease decides. */
    method StartCommit(id: Uuid, lease: Uuid, now: int) returns (ok: bool)
      requires Valid() && model.clock <= now
      modifies this`jobs, this`model
      ensures Valid() && model == Apply(old(model), OpStartCommit(id, lease, now))
      ensures ok <==>
        && id in old(jobs) && old(jobs)[id].state == Uploading && old(jobs)[id].lease == Some(lease)
        && now <= old(jobs)[id].leaseUntil
      ensures ok ==> jobs == old(jobs)[id := old(jobs)[id].(state := Committing)]
      ensures ok ==> id in model.jobs && OlderSettled(model, id) && SoleSender(model, id, lease)
      ensures !ok ==> model == old(model).(clock := now)
    {
      HolderIsAlone(model, id, lease, now);
      model := Call(model, OpStartCommit(id, lease, now));
      ok := id in jobs && jobs[id].state == Uploading && jobs[id].lease == Some(lease) && jobs[id].leaseUntil >= now;
      if ok {
        jobs := jobs[id := jobs[id].(state := Committing)];
      }
    }

    method CleanStaging(id: Uuid) returns (ok: bool)
      requires Valid()
      modifies this`jobs, this`model
      ensures Valid() && model == Apply(old(model), OpClean(id))
      ensures ok <==> id in old(jobs) && old(jobs)[id].state in {Completed, Cancelled, ReceptionFailed, Superseded}
      ensures ok ==> jobs == old(jobs)[id := old(jobs)[id].(state := Cleaned, bytes := 0)]
      ensures ok ==> NeverClaimable(model, id)
      ensures ok && old(jobs)[id].state == Completed ==> StagedBytes(model.jobs) == StagedBytes(old(model).jobs)
      ensures ok && old(jobs)[id].state != Completed ==>
        StagedBytes(model.jobs) == StagedBytes(old(model).jobs) - old(jobs)[id].bytes
      ensures !ok ==> model == old(model)
    {
      CleaningReleases(model, id);
      model := Call(model, OpClean(id));
      ok := id in jobs && jobs[id].state in {Completed, Cancelled, ReceptionFailed, Superseded};
      if ok {
        jobs := jobs[id := jobs[id].(state := Cleaned, bytes := 0)];
      }
    }

    // ---- multipart ---------------------------------------------------------

    method CreateSession(upload: Uuid, connection: Uuid, bucket: string, key: string)
      requires Valid() && upload !in model.everUploads
      modifies this`uploads, this`model
      ensures Valid() && model == Apply(old(model), OpCreateSession(upload, connection, bucket, key))
      ensures uploads == old(uploads)[upload := Session(connection, bucket, key, Initiated)]
      ensures forall o :: o in parts ==> parts[o].upload != upload
    {
      NewSessionHasNoParts(model, upload);
      model := Call(model, OpCreateSession(upload, connection, bucket, key));
      uploads := uploads[upload := Session(connection, bucket, key, Initiated)];
    }

    predicate HasUnsafePrior(id: Uuid, upload: Uuid)
      reads this
      ensures HasUnsafePrior(id, upload) <==> UnsafePriorCompletion(State(), id, upload)
    {
      exists o :: o in jobs && o != id && o in parts && parts[o] == PartRef(upload, 0) && MayStillSend(o)
    }

    predicate MayStillSend(o: Uuid)
      requires o in jobs
      reads this
    {
      Active(jobs[o].state) || (jobs[o].state == RecoveryRequired && HasUnsettled(attempts, o))
    }

    predicate IsReplaced(o: Uuid, id: Uuid, upload: Uuid)
      requires o in jobs
      reads this
      ensures IsReplaced(o, id, upload) <==> ReplacedByCompletion(State(), o, id, upload)
    {
      o != id && o in parts && parts[o] == PartRef(upload, 0)
      && (jobs[o].state in {Receiving, Queued, RetryWait, ReceptionFailed, Cancelled}
          || (jobs[o].state == RecoveryRequired && !HasUnsettled(attempts, o)))
    }

    method SupersedeEarlier(id: Uuid, upload: Uuid)
      modifies this`jobs
      ensures jobs == map o | o in old(jobs) ::
        SupersedeRow(old(jobs)[o], ReplacedByCompletion(old(State()), o, id, upload))
    {
      jobs := map o | o in jobs :: SupersedeRow(jobs[o], IsReplaced(o, id, upload));
    }

    method EnterCompletion(id: Uuid, operation: Uuid, upload: Uuid)
      requires id in jobs && upload in uploads
      modifies this`jobs, this`parts, this`uploads
      ensures State() == CompletionQueued(old(State()), id, operation, upload)
    {
      SupersedeEarlier(id, upload);
      jobs := jobs[id := jobs[id].(operation := Some(operation), chunksTotal := 0, state := Queued, leaseUntil := 0)];
      parts := parts[id := PartRef(upload, 0)];
      uploads := uploads[upload := uploads[upload].(state := Completing)];
    }

    predicate IsCompletable(id: Uuid, upload: Uuid)
      reads this
      ensures IsCompletable(id, upload) <==> CanQueueCompletion(State(), id, upload)
      ensures IsCompletable(id, upload) ==> id in jobs && upload in uploads
    {
      IsOpenForCompletion(upload) && !HasUnsafePrior(id, upload)
      && id in jobs && jobs[id].state == Receiving && id !in parts
    }

    /** The statements of `queue_multipart_completion`. */
    method Complete(id: Uuid, operation: Uuid, upload: Uuid, ghost now: int) returns (ok: bool)
      modifies this`jobs, this`parts, this`uploads
      ensures ok <==> CanQueueCompletion(old(State()), id, upload)
      ensures !ok ==> State() == old(State())
      ensures State().(clock := now) == TransferModel.QueueCompletion(old(State()), id, operation, upload, now)
    {
      ok := IsCompletable(id, upload);
      if ok {
        EnterCompletion(id, operation, upload);
      }
    }

    method QueueCompletion(id: Uuid, operation: Uuid, upload: Uuid, now: int) returns (ok: bool)
      requires Valid() && model.clock <= now && PartFitsSession(model, id, upload)
      modifies this`jobs, this`parts, this`uploads, this`model
      ensures Valid() && model == Apply(old(model), OpQueueCompletion(id, operation, upload, now))
      ensures ok <==> MayComplete(old(model), id, upload)
      ensures ok ==> CompletionDecides(old(model), model, id, operation, upload)
      ensures !ok ==> model == old(model).(clock := now)
    {
      ok := Complete(id, operation, upload, now);
      CompletionIsDecided(model, id, operation, upload, now);
      model := Call(model, OpQueueCompletion(id, operation, upload, now));
    }

    predicate IsDiscardable(o: Uuid, id: Uuid, upload: Uuid, number: nat)
      requires o in jobs
      reads this
      ensures IsDiscardable(o, id, upload, number) <==> IsSafeDuplicate(State(), o, id, upload, number)
    {
      o != id && o in parts && parts[o] == PartRef(upload, number)
      && jobs[o].state in {Receiving, Queued, RetryWait, RecoveryRequired}
      && !exists k :: k in attempts && k.job == o && attempts[k].state in {Sending, Unknown, Checkpointed}
    }

    method DiscardDuplicates(id: Uuid, upload: Uuid, number: nat)
      modifies this`jobs
      ensures State() == old(State()).(jobs := map o | o in old(jobs) ::
        SupersedeRow(old(jobs)[o], IsSafeDuplicate(old(State()), o, id, upload, number)))
    {
      jobs := map o | o in jobs :: SupersedeRow(jobs[o], IsDiscardable(o, id, upload, number));
    }

    /** The statements of `finish_part`. */
    method StorePart(id: Uuid, lease: Uuid, upload: Uuid, number: nat, staged: bool, now: int) returns (ok: bool)
      modifies this`jobs
      ensures ok <==> CanFinishPart(old(State()), id, lease, upload, staged)
      ensures !ok ==> State() == old(State())
      ensures State().(clock := now) == TransferModel.FinishPart(old(State()), id, lease, upload, number, staged, now)
    {
      ok := staged && IsOpenForParts(upload)
            && id in jobs && jobs[id].state == Committing && jobs[id].lease == Some(lease);
      if ok {
        jobs := jobs[id := jobs[id].(state := Completed, lease := None)];
        DiscardDuplicates(id, upload, number);
      }
    }

    method FinishPart(id: Uuid, lease: Uuid, upload: Uuid, number: nat, staged: bool, now: int) returns (ok: bool)
      requires Valid() && model.clock <= now
      modifies this`jobs, this`model
      ensures Valid() && model == Apply(old(model), OpFinishPart(id, lease, upload, number, staged, now))
      ensures ok <==>
        && staged && upload in uploads && uploads[upload].state in {Initiated, SessionUploading}
        && id in old(jobs) && old(jobs)[id].state == Committing && old(jobs)[id].lease == Some(lease)
      ensures ok && IsPart(old(model), id, upload, number) ==> PartIsSettled(model, upload, number)
      ensures !ok ==> model == old(model).(clock := now)
      ensures ok ==> PublicationDecides(old(model), model, id, upload, number)
    {
      ok := StorePart(id, lease, upload, number, staged, now);
      if ok {
        PublicationIsDecided(model, id, lease, upload, number, staged, now);
      }
      if ok && IsPart(model, id, upload, number) {
        PublishedPartIsSettled(model, id, lease, upload, number, staged, now);
      }
      model := Call(model, OpFinishPart(id, lease, upload, number, staged, now));
    }

    method AbortParts(upload: Uuid) returns (ok: bool)
      requires Valid()
      modifies this`jobs, this`uploads, this`model
      ensures Valid() && model == Apply(old(model), OpAbortParts(upload))
      ensures ok <==>
        forall o :: o in old(jobs) && o in parts && parts[o].upload == upload ==>
          old(jobs)[o].state !in {Uploading, Committing}
      ensures ok ==> upload !in uploads && forall number :: PartIsSettled(model, upload, number)
      ensures !ok ==> model == old(model)
      ensures ok ==> uploads == old(uploads) - {upload}
      ensures ok ==> jobs.Keys == old(jobs).Keys && forall o :: o in old(jobs) ==>
        jobs[o] ==
          if o in parts && parts[o].upload == upload && old(jobs)[o].state !in {Completed, Cleaned}
          then old(jobs)[o].(state := Cancelled, lease := None)
          else old(jobs)[o]
    {
      model := Call(model, OpAbortParts(upload));
      ok := !exists o :: o in jobs && o in parts && parts[o].upload == upload && Active(jobs[o].state);
      if ok {
        jobs := map o | o in jobs :: AbortRow(jobs[o], o in parts && parts[o].upload == upload);
        uploads := uploads - {upload};
      }
    }

    // ---- recovery and operator actions -------------------------------------

    method ReclassifyAttempts()
      modifies this`attempts
      ensures State() == TransferModel.ReclassifyAttempts(old(State()))
    {
      attempts := map k | k in attempts ::
        if attempts[k].state == Unknown && attempts[k].mentionsFlood
        then attempts[k].(state := Retryable, kind := FloodWait, retryable := true)
        else attempts[k];
    }

    method RescheduleFlooded(retryAt: int)
      modifies this`jobs
      ensures State() == TransferModel.RescheduleFlooded(PauseFlooded(old(State()), retryAt), retryAt)
    {
      jobs := map id | id in jobs :: PauseRow(jobs[id], HasFloodWait(attempts, id), retryAt);
      jobs := map id | id in jobs ::
        RescheduleRow(jobs[id], HasUnsettled(attempts, id), HasFloodWait(attempts, id), retryAt);
    }

    /** The statements of `reclassify_flood_wait_attempts`. */
    method Reclassify(retryAfter: nat, now: int)
      modifies this`jobs, this`attempts
      ensures State().(clock := now) == TransferModel.ReclassifyFloodWaits(old(State()), retryAfter, now)
    {
      ReclassifyAttempts();
      RescheduleFlooded(SaturatingAdd(now, AsI64(if retryAfter >= 1 then retryAfter else 1)));
    }

    method ReclassifyFloodWaits(retryAfter: nat, now: int)
      requires Valid() && model.clock <= now
      modifies this`jobs, this`attempts, this`model
      ensures Valid() && model == Apply(old(model), OpReclassify(retryAfter, now))
      ensures ReclassifyDecides(old(model), model, RetryAt(retryAfter, now))
      ensures forall k :: FloodedInRecovery(old(model), k) ==> Paused(model, k.job, RetryAt(retryAfter, now))
    {
      Reclassify(retryAfter, now);
      ReclassifyPausesAll(model, retryAfter, now);
      ReclassifyIsDecided(model, retryAfter, now);
      model := Call(model, OpReclassify(retryAfter, now));
    }

    /** The statements of `resolve_send`. */
    method Settle(k: AttemptKey, location: Option<Location>, mentionsFlood: bool) returns (ok: bool)
      modifies this`jobs, this`attempts, this`chunks
      ensures ok <==> CanResolve(old(State()), k)
      ensures State() == if ok then Settled(old(State()), k, location, mentionsFlood) else old(State())
    {
      ok := k in attempts && attempts[k].state == Unknown && k.job in jobs;
      if ok && location.Some? {
        SettleAt(k, location.value, mentionsFlood);
      } else if ok {
        attempts := attempts[k := AbsentAttempt(attempts[k], mentionsFlood)];
        jobs := jobs[k.job := jobs[k.job].(chunksDone := |ChunkOrders(chunks, k.job)|)];
      }
    }

    method ResolveSend(k: AttemptKey, location: Option<Location>, mentionsFlood: bool, now: int) returns (ok: bool)
      requires Valid() && model.clock <= now
      modifies this`jobs, this`attempts, this`chunks, this`model
      ensures Valid() && model == Apply(old(model), OpResolve(k, location, mentionsFlood, now))
      ensures ok <==> k in old(attempts) && old(attempts)[k].state == Unknown && k.job in old(jobs)
      ensures ok ==> UnknownSends(model, k.job) == UnknownSends(old(model), k.job) - {k}
      ensures ok ==> InState(model, k.job, old(jobs)[k.job].state)
      ensures ok && location.Some? ==> StoredAt(model, k, location.value)
      ensures !ok ==> model == old(model).(clock := now)
      ensures ok ==> attempts == old(attempts)[k :=
        if location.Some?
        then old(attempts)[k].(state := Checkpointed, kind := NoKind, mentionsFlood := mentionsFlood,
                               retryable := false, location := location)
        else old(attempts)[k].(state := Retryable, kind := ReconciliationAbsent, mentionsFlood := mentionsFlood,
                               retryable := true)]
      ensures ok && location.Some? ==> chunks == old(chunks)[ChunkKey(k.job, k.order) := location.value]
      ensures ok && location.None? ==> chunks == old(chunks)
      ensures ok ==> jobs == old(jobs)[k.job := old(jobs)[k.job].(chunksDone := ChunkCount(chunks, k.job))]
    {
      ok := Settle(k, location, mentionsFlood);
      model := Call(model, OpResolve(k, location, mentionsFlood, now));
      if ok {
        ResolvedSendIsStored(old(model), k, location, mentionsFlood, now);
      }
    }

    /** The statement of `queue_after_reconciliation`. */
    method Requeue(id: Uuid, now: int) returns (ok: bool)
      modifies this`jobs
      ensures ok <==> CanQueueAfterReconciliation(old(State()), id)
      ensures !ok ==> State() == old(State())
      ensures State().(clock := now) == TransferModel.QueueAfterReconciliation(old(State()), id, now)
    {
      ok := id in jobs && jobs[id].state == RecoveryRequired && !HasUnsettled(attempts, id);
      if ok {
        var j := jobs[id];
        var waiting := HasFloodWait(attempts, id) && j.nextRetry > now;
        jobs := jobs[id := if waiting then j.(state := RetryWait) else j.(state := Queued, nextRetry := 0)];
      }
    }

    method QueueAfterReconciliation(id: Uuid, now: int) returns (ok: bool)
      requires Valid() && model.clock <= now
      modifies this`jobs, this`model
      ensures Valid() && model == Apply(old(model), OpQueueAfterReconciliation(id, now))
      ensures ok <==> id in old(jobs) && old(jobs)[id].state == RecoveryRequired && OpenSends(old(model), id) == {}
      ensures ok ==> ClaimableWhenDue(model, id)
      ensures !ok ==> model == old(model).(clock := now)
      ensures ok ==> jobs == old(jobs)[id :=
        if HasFloodWait(attempts, id) && old(jobs)[id].nextRetry > now
        then old(jobs)[id].(state := RetryWait)
        else old(jobs)[id].(state := Queued, nextRetry := 0)]
    {
      NoOpenSends(model, id);
      ok := Requeue(id, now);
      if ok {
        RequeuedIsClaimable(model, id, now);
      }
      model := Call(model, OpQueueAfterReconciliation(id, now));
    }

    method OperatorRetry(id: Uuid) returns (ok: bool)
      requires Valid()
      modifies this`jobs, this`model
      ensures Valid() && model == Apply(old(model), OpRetry(id))
      ensures ok <==>
        && id in old(jobs) && old(jobs)[id].state in {RetryWait, RecoveryRequired} && old(jobs)[id].operation.Some?
        && OpenSends(old(model), id) == {}
      ensures ok ==> ClaimableWhenDue(model, id) && model.jobs[id].nextRetry == 0
      ensures !ok ==> model == old(model)
      ensures ok ==> jobs == old(jobs)[id := old(jobs)[id].(state := Queued, nextRetry := 0)]
    {
      NoOpenSends(model, id);
      model := Call(model, OpRetry(id));
      ok := id in jobs && jobs[id].state in {RetryWait, RecoveryRequired} && jobs[id].operation.Some?
            && !HasUnsettled(attempts, id);
      if ok {
        jobs := jobs[id := jobs[id].(state := Queued, nextRetry := 0)];
        RetriedIsClaimable(old(model), id);
      }
    }

    method OperatorCancel(id: Uuid, now: int) returns (ok: bool)
      requires Valid() && model.clock <= now
      modifies this`jobs, this`model
      ensures Valid() && model == Apply(old(model), OpCancel(id, now))
      ensures ok <==> id in old(jobs) && old(jobs)[id].state in {Queued, RetryWait, RecoveryRequired}
      ensures ok ==> id in model.jobs && Terminal(model.jobs[id].state) && NeverClaimable(model, id)
      ensures !ok ==> model == old(model).(clock := now)
      ensures ok ==> jobs == old(jobs)[id := old(jobs)[id].(state := Cancelled, lease := None, leaseUntil := 0)]
    {
      model := Call(model, OpCancel(id, now));
      ok := id in jobs && jobs[id].state in {Queued, RetryWait, RecoveryRequired};
      if ok {
        jobs := jobs[id := jobs[id].(state := Cancelled, lease := None, leaseUntil := 0)];
        CancelledIsFinished(old(model), id, now);
      }
    }

    // ---- objects and connections -------------------------------------------

    /** The statements of a deletion. */
    method CancelWaiting(bucket: string, key: string, others: bool, ghost now: int) returns (ok: bool)
      modifies this`jobs
      ensures ok <==> others && NoneIsActive(old(State()), bucket, key)
      ensures !ok ==> State() == old(State())
      ensures State().(clock := now) == TransferModel.DeleteKey(old(State()), bucket, key, others, now)
    {
      ok := others && !exists o :: o in jobs && IsFor(jobs[o], bucket, key) && Active(jobs[o].state);
      if ok {
        jobs := map o | o in jobs :: CancelRow(jobs[o], IsFor(jobs[o], bucket, key)
          && jobs[o].state in {Receiving, Queued, RetryWait, RecoveryRequired});
      }
    }

    /** The transfer side of deleting an object; `others` stands for the conditional checks. */
    method DeleteKey(bucket: string, key: string, others: bool, now: int) returns (ok: bool)
      requires Valid() && model.clock <= now
      modifies this`jobs, this`model
      ensures Valid() && model == Apply(old(model), OpDeleteKey(bucket, key, others, now))
      ensures ok <==> others && NoneIsActive(old(model), bucket, key)
      ensures ok ==> DeletionDecides(old(model), model, bucket, key)
      ensures !ok ==> model == old(model).(clock := now)
    {
      ok := CancelWaiting(bucket, key, others, now);
      if ok {
        DeletionIsDecided(model, bucket, key, now);
      }
      model := Call(model, OpDeleteKey(bucket, key, others, now));
    }

    /** The two statements of a removal. */
    method EndWork(connection: Uuid, ghost now: int)
      modifies this`jobs, this`uploads
      ensures State().(clock := now) == TransferModel.RemoveConnection(old(State()), connection, now)
    {
      jobs := map o | o in jobs ::
        CancelRow(jobs[o], jobs[o].connection == connection && jobs[o].state !in {Completed, Cancelled, Cleaned});
      uploads := map u | u in uploads ::
        if uploads[u].connection == connection && uploads[u].state != SessionCompleted
        then uploads[u].(state := Aborted)
        else uploads[u];
    }

    method RemoveConnection(connection: Uuid, now: int)
      requires Valid() && model.clock <= now
      modifies this`jobs, this`uploads, this`model
      ensures Valid() && model == Apply(old(model), OpRemoveConnection(connection, now))
      ensures RemovalDecides(old(model), model, connection)
    {
      EndWork(connection, now);
      RemovalIsDecided(model, connection, now);
      model := Call(model, OpRemoveConnection(connection, now));
    }

    predicate IsOf(id: Uuid, connection: Uuid)
      reads this
      ensures IsOf(id, connection) <==> OfConnection(State(), id, connection)
    {
      id in jobs && jobs[id].connection == connection
    }

    method DeleteSends(connection: Uuid)
      modifies this`attempts, this`chunks
      ensures attempts ==
        map k | k in old(attempts) && !OfConnection(old(State()), k.job, connection) :: old(attempts)[k]
      ensures chunks == map c | c in old(chunks) && !OfConnection(old(State()), c.job, connection) :: old(chunks)[c]
    {
      attempts := map k | k in attempts && !IsOf(k.job, connection) :: attempts[k];
      chunks := map c | c in chunks && !IsOf(c.job, connection) :: chunks[c];
    }

    method DeleteJobs(connection: Uuid)
      modifies this`jobs, this`parts, this`uploads
      ensures parts == map id | id in old(parts) && !OfConnection(old(State()), id, connection) :: old(parts)[id]
      ensures jobs == map id | id in old(jobs) && !OfConnection(old(State()), id, connection) :: old(jobs)[id]
      ensures uploads == map u | u in old(uploads) && old(uploads)[u].connection != connection :: old(uploads)[u]
    {
      parts := map id | id in parts && !IsOf(id, connection) :: parts[id];
      jobs := map id | id in jobs && !IsOf(id, connection) :: jobs[id];
      uploads := map u | u in uploads && uploads[u].connection != connection :: uploads[u];
    }

    /** The deletes of a purge, jobs last. */
    method DeleteRows(connection: Uuid)
      modifies this`jobs, this`attempts, this`chunks, this`parts, this`uploads
      ensures State() == TransferModel.PurgeConnection(old(State()), connection)
    {
      DeleteSends(connection);
      DeleteJobs(connection);
    }

    method PurgeConnection(connection: Uuid)
      requires Valid()
      modifies this`jobs, this`attempts, this`chunks, this`parts, this`uploads, this`model
      ensures Valid() && model == Apply(old(model), OpPurgeConnection(connection))
      ensures PurgeDecides(old(model), model, connection)
    {
      DeleteRows(connection);
      PurgeIsDecided(model, connection);
      model := Call(model, OpPurgeConnection(connection));
    }
  }
}
