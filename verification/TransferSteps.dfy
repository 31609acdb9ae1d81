/** Every store call is a lawful change, and which side effects it has. */
module TransferSteps {
  import opened Basics
  import opened TransferModel
  import opened TransferRuns
  import opened TransferSafety

  // ---- shapes of change ----------------------------------------------------

  /** A change of one job row that grants no lease; `settled` says the job has no unsettled send. */
  predicate RowMove(j: Job, j': Job, settled: bool) {
    && j'.sequence == j.sequence && SameKey(j, j') && j'.attempts == j.attempts
    && (Terminal(j.state) ==> Terminal(j'.state))
    && RowOk(j')
    && (j'.lease.Some? ==> j'.lease == j.lease)
    && (Idle(j'.state) ==> Idle(j.state) || settled)
  }

  /** A row move with no side effect. */
  predicate QuietMove(j: Job, j': Job, settled: bool) {
    && RowMove(j, j', settled)
    && (j'.state == Cleaned ==> j.state == Cleaned)
    && PauseKept(j, j')
    && Weight(j') <= Weight(j)
    && j'.chunksDone == j.chunksDone
  }

  /** Only the jobs, sessions, parts and clock differ. */
  ghost predicate OnlyRows(s: Db, s': Db) {
    && s' == s.(jobs := s'.jobs, clock := s'.clock, parts := s'.parts, uploads := s'.uploads,
                everUploads := s'.everUploads)
    && s'.jobs.Keys == s.jobs.Keys
  }

  ghost predicate RowsMove(s: Db, s': Db) {
    OnlyRows(s, s') && forall id :: id in s.jobs ==> QuietMove(s.jobs[id], s'.jobs[id], !HasUnsettled(s.attempts, id))
  }

  lemma RowMovesAreLawful(s: Db, s': Db)
    requires References(s) && OnlyRows(s, s') && LegalSessions(s, s')
    requires forall id :: id in s.jobs ==> RowMove(s.jobs[id], s'.jobs[id], !HasUnsettled(s.attempts, id))
    ensures Lawful(s, s')
  {
    forall id | id in s'.jobs
      ensures LegalJob(s, s', id)
    {
      assert RowMove(s.jobs[id], s'.jobs[id], !HasUnsettled(s.attempts, id));
    }
    assert LegalJobs(s, s');
    assert LegalAttempts(s, s');
  }

  lemma RowsMoveIsLegal(s: Db, s': Db)
    requires References(s) && RowsMove(s, s') && LegalSessions(s, s')
    ensures Legal(s, s')
  {
    forall id | id in s.jobs
      ensures RowMove(s.jobs[id], s'.jobs[id], !HasUnsettled(s.attempts, id))
    {
      assert QuietMove(s.jobs[id], s'.jobs[id], !HasUnsettled(s.attempts, id));
    }
    RowMovesAreLawful(s, s');
  }

  lemma JobsMoveIsLegal(s: Db, s': Db)
    requires References(s) && RowsMove(s, s') && s'.parts == s.parts && s'.uploads == s.uploads
      && s'.everUploads == s.everUploads
    ensures Legal(s, s')
  {
    RowsMoveIsLegal(s, s');
  }

  lemma OneRowEffects(s: Db, id: Uuid, j': Job, clock: int)
    requires id in s.jobs
    ensures var s' := s.(jobs := s.jobs[id := j'], clock := clock);
            && (j'.state != Cleaned ==> CleansNothing(s, s'))
            && (PauseKept(s.jobs[id], j') ==> KeepsPauses(s, s'))
            && (Weight(j') <= Weight(s.jobs[id]) ==> StagesNothing(s, s'))
            && (j'.chunksDone == s.jobs[id].chunksDone ==> KeepsRecords(s, s'))
  {
  }

  lemma OneRowIsLawful(s: Db, id: Uuid, j': Job, clock: int)
    requires References(s) && Leased(s) && id in s.jobs && RowMove(s.jobs[id], j', !HasUnsettled(s.attempts, id))
    ensures Lawful(s, s.(jobs := s.jobs[id := j'], clock := clock))
  {
    var s' := s.(jobs := s.jobs[id := j'], clock := clock);
    assert s'.jobs.Keys == s.jobs.Keys;
    forall o | o in s.jobs
      ensures RowMove(s.jobs[o], s'.jobs[o], !HasUnsettled(s.attempts, o))
    {
      assert RowOk(s.jobs[o]);
    }
    RowMovesAreLawful(s, s');
  }

  /** One row changes: lawful, with exactly the side effects the row shows. */
  lemma OneRow(s: Db, id: Uuid, j': Job, s': Db)
    requires References(s) && Leased(s) && id in s.jobs && RowMove(s.jobs[id], j', !HasUnsettled(s.attempts, id))
    requires s' == s.(jobs := s.jobs[id := j'], clock := s'.clock)
    ensures Lawful(s, s')
    ensures j'.state != Cleaned ==> CleansNothing(s, s')
    ensures PauseKept(s.jobs[id], j') ==> KeepsPauses(s, s')
    ensures Weight(j') <= Weight(s.jobs[id]) ==> StagesNothing(s, s')
    ensures j'.chunksDone == s.jobs[id].chunksDone ==> KeepsRecords(s, s')
  {
    OneRowIsLawful(s, id, j', s'.clock);
    OneRowEffects(s, id, j', s'.clock);
  }

  lemma TickIsLegal(s: Db, clock: int)
    requires References(s) && Leased(s)
    ensures Legal(s, s.(clock := clock))
  {
  }

  lemma RowsStay(s: Db, s': Db)
    requires Leased(s) && OnlyRows(s, s') && s'.jobs == s.jobs
    ensures RowsMove(s, s')
  {
  }

  /** The job rows keep their place in the life cycle. */
  predicate SameRow(j: Job, j': Job) {
    j' == j.(chunksDone := j'.chunksDone)
  }

  ghost predicate SameLifecycle(s: Db, s': Db) {
    && s'.jobs.Keys == s.jobs.Keys
    && s'.nextSequence == s.nextSequence && s'.everJobs == s.everJobs && s'.leases == s.leases
    && forall id :: id in s.jobs ==> SameRow(s.jobs[id], s'.jobs[id])
  }

  lemma SameLifecycleIsLegal(s: Db, s': Db)
    requires References(s) && Leased(s) && SameLifecycle(s, s')
    ensures LegalJobs(s, s') && CleansNothing(s, s') && KeepsPauses(s, s') && StagesNothing(s, s')
  {
  }

  /** Only attempt rows change, only unsettled ones, and none to a checkpoint or a new send. */
  ghost predicate AttemptsMove(s: Db, s': Db) {
    && s' == s.(attempts := s'.attempts, clock := s'.clock)
    && s'.attempts.Keys == s.attempts.Keys
    && forall k :: k in s.attempts ==> AttemptMove(s.attempts[k], s'.attempts[k])
  }

  predicate AttemptMove(a: Attempt, a': Attempt) {
    a' == a || (Unsettled(a.state) && a'.beganUnder == a.beganUnder && (a'.state == Unknown || a'.state == Retryable))
  }

  lemma AttemptsMoveRows(s: Db, s': Db)
    requires References(s) && AttemptsMove(s, s')
    ensures LegalAttempts(s, s') && KeepsRecords(s, s')
  {
    forall k | k in s'.attempts
      ensures LegalAttempt(s, s', k)
    {
      assert AttemptMove(s.attempts[k], s'.attempts[k]);
    }
    assert KeepsRecords(s, s') by {
      forall k | k in s'.attempts && s'.attempts[k].state == Checkpointed
        ensures s'.attempts[k] == s.attempts[k]
      {
        assert AttemptMove(s.attempts[k], s'.attempts[k]);
      }
    }
  }

  lemma AttemptsMoveIsLegal(s: Db, s': Db)
    requires References(s) && Leased(s) && AttemptsMove(s, s')
    ensures Legal(s, s')
  {
    AttemptsMoveRows(s, s');
    SameLifecycleIsLegal(s, s');
    SessionsStay(s, s');
  }

  lemma OneAttemptMoves(s: Db, k: AttemptKey, a': Attempt, clock: int)
    requires References(s) && Leased(s) && k in s.attempts && AttemptMove(s.attempts[k], a')
    ensures Legal(s, s.(attempts := s.attempts[k := a'], clock := clock))
  {
    var s' := s.(attempts := s.attempts[k := a'], clock := clock);
    assert s'.attempts.Keys == s.attempts.Keys;
    AttemptsMoveIsLegal(s, s');
  }

  // ---- admission -----------------------------------------------------------

  lemma BeginMovesJobs(s: Db, id: Uuid, j: Job, s': Db)
    requires References(s) && Leased(s) && id !in s.everJobs
    requires j.sequence == s.nextSequence && j.state == Receiving && j.lease == None && j.attempts == 0 && j.bytes == 0
      && j.chunksDone == 0
    requires s' == s.(clock := s'.clock, jobs := s.jobs[id := j], nextSequence := s.nextSequence + 1,
                      everJobs := s.everJobs + {id})
    ensures LegalJobs(s, s') && CleansNothing(s, s') && KeepsPauses(s, s') && StagesNothing(s, s')
      && KeepsRecords(s, s')
  {
  }

  lemma BeginIsLegal(s: Db, id: Uuid, connection: Uuid, bucket: string, key: string, bucketExists: bool, now: int)
    requires References(s) && Leased(s) && (id in s.everJobs ==> id in s.jobs)
    ensures Legal(s, BeginTransfer(s, id, connection, bucket, key, bucketExists, now))
  {
    var s' := BeginTransfer(s, id, connection, bucket, key, bucketExists, now);
    if id in s.jobs || !bucketExists {
      TickIsLegal(s, now);
    } else {
      BeginMovesJobs(s, id, s'.jobs[id], s');
      assert LegalAttempts(s, s');
      assert LegalSessions(s, s');
    }
  }

  lemma RenewReceivingIsLegal(s: Db, id: Uuid, now: int)
    requires References(s) && Leased(s)
    ensures Legal(s, RenewReceiving(s, id, now))
  {
    if InState(s, id, Receiving) {
      assert RowOk(s.jobs[id]);
      OneRow(s, id, s.jobs[id].(leaseUntil := now + LEASE_SECS), RenewReceiving(s, id, now));
    } else {
      TickIsLegal(s, now);
    }
  }

  lemma ReserveIsLawful(s: Db, id: Uuid, bytes: nat, budget: nat, used: nat, now: int)
    requires References(s) && Leased(s)
    ensures var s' := ReserveStaging(s, id, bytes, budget, used, now);
            Lawful(s, s') && CleansNothing(s, s') && KeepsPauses(s, s') && KeepsRecords(s, s')
  {
    var s' := ReserveStaging(s, id, bytes, budget, used, now);
    if CanReserve(s, id, bytes, budget, used) {
      assert RowOk(s.jobs[id]);
      var j' := s.jobs[id].(bytes := s.jobs[id].bytes + bytes, leaseUntil := now + LEASE_SECS);
      assert s' == s.(jobs := s.jobs[id := j'], clock := now);
      OneRow(s, id, j', ReserveStaging(s, id, bytes, budget, used, now));
    } else {
      assert s' == s.(clock := now);
      TickIsLegal(s, now);
    }
  }

  lemma QueueIsLegal(s: Db, id: Uuid, operation: Uuid, chunks: nat, now: int)
    requires References(s) && Leased(s)
    ensures Legal(s, QueueTransfer(s, id, operation, chunks, now))
  {
    if InState(s, id, Receiving) {
      assert RowOk(s.jobs[id]);
      OneRow(s, id, s.jobs[id].(operation := Some(operation), chunksTotal := chunks, state := Queued, leaseUntil := 0),
             QueueTransfer(s, id, operation, chunks, now));
    } else {
      TickIsLegal(s, now);
    }
  }

  lemma FailReceptionIsLegal(s: Db, id: Uuid, filesRemoved: bool, now: int)
    requires References(s) && Leased(s)
    ensures Legal(s, FailReception(s, id, filesRemoved, now))
  {
    if InState(s, id, Receiving) {
      OneRow(s, id, FailReception(s, id, filesRemoved, now).jobs[id], FailReception(s, id, filesRemoved, now));
    } else {
      TickIsLegal(s, now);
    }
  }

  lemma RejectIsLegal(s: Db, id: Uuid, now: int)
    requires References(s) && Leased(s)
    ensures Legal(s, RejectForQuota(s, id, now))
  {
    if id in s.jobs && Active(s.jobs[id].state) {
      OneRow(s, id, s.jobs[id].(state := ReceptionFailed, bytes := 0, lease := None, leaseUntil := 0),
             RejectForQuota(s, id, now));
    } else {
      TickIsLegal(s, now);
    }
  }

  // ---- multipart sessions --------------------------------------------------

  /** Sessions that keep their object keep the part rows valid. */
  lemma SessionsStay(s: Db, s': Db)
    requires References(s) && s'.parts == s.parts && s'.jobs.Keys == s.jobs.Keys && s'.everUploads == s.everUploads
    requires s'.uploads.Keys <= s.uploads.Keys
    requires forall u :: u in s'.uploads ==>
      s'.uploads[u].bucket == s.uploads[u].bucket && s'.uploads[u].key == s.uploads[u].key
    ensures LegalSessions(s, s')
  {
  }

  lemma CreateSessionIsLegal(s: Db, upload: Uuid, connection: Uuid, bucket: string, key: string)
    requires References(s) && Leased(s) && upload !in s.everUploads
    ensures Legal(s, CreateSession(s, upload, connection, bucket, key))
  {
    RowsStay(s, CreateSession(s, upload, connection, bucket, key));
    RowsMoveIsLegal(s, CreateSession(s, upload, connection, bucket, key));
  }

  lemma ChangeSessionKeepsSessions(s: Db, upload: Uuid, state: SessionState)
    requires References(s)
    ensures LegalSessions(s, ChangeSession(s, upload, state))
  {
    SessionsStay(s, ChangeSession(s, upload, state));
  }

  lemma ChangeSessionIsLegal(s: Db, upload: Uuid, state: SessionState)
    requires References(s) && Leased(s)
    ensures Legal(s, ChangeSession(s, upload, state))
  {
    RowsStay(s, ChangeSession(s, upload, state));
    ChangeSessionKeepsSessions(s, upload, state);
    RowsMoveIsLegal(s, ChangeSession(s, upload, state));
  }

  lemma RegisterPartKeepsSessions(s: Db, id: Uuid, upload: Uuid, number: nat)
    requires References(s) && PartFitsSession(s, id, upload)
    ensures LegalSessions(s, RegisterPart(s, id, upload, number))
  {
  }

  lemma RegisterPartIsLegal(s: Db, id: Uuid, upload: Uuid, number: nat)
    requires References(s) && Leased(s) && PartFitsSession(s, id, upload)
    ensures Legal(s, RegisterPart(s, id, upload, number))
  {
    RowsStay(s, RegisterPart(s, id, upload, number));
    RegisterPartKeepsSessions(s, id, upload, number);
    RowsMoveIsLegal(s, RegisterPart(s, id, upload, number));
  }

  lemma CompletionMovesRows(s: Db, id: Uuid, operation: Uuid, upload: Uuid, now: int)
    requires Leased(s)
    ensures RowsMove(s, QueueCompletion(s, id, operation, upload, now))
  {
    var s' := QueueCompletion(s, id, operation, upload, now);
    assert s'.jobs.Keys == s.jobs.Keys;
    forall o | o in s.jobs
      ensures QuietMove(s.jobs[o], s'.jobs[o], !HasUnsettled(s.attempts, o))
    {
      CompletionMovesRow(s, id, operation, upload, now, o);
    }
  }

  lemma CompletionMovesRow(s: Db, id: Uuid, operation: Uuid, upload: Uuid, now: int, o: Uuid)
    requires Leased(s) && o in s.jobs
    ensures o in QueueCompletion(s, id, operation, upload, now).jobs
    ensures QuietMove(s.jobs[o], QueueCompletion(s, id, operation, upload, now).jobs[o], !HasUnsettled(s.attempts, o))
  {
    assert RowOk(s.jobs[o]);
    CompletionRow(s, id, operation, upload, now, o);
  }

  lemma CompletionRow(s: Db, id: Uuid, operation: Uuid, upload: Uuid, now: int, o: Uuid)
    requires o in s.jobs
    ensures var s' := QueueCompletion(s, id, operation, upload, now);
            && o in s'.jobs
            && (|| s'.jobs[o] == s.jobs[o]
                || (s'.jobs[o] == s.jobs[o].(state := Superseded, lease := None, leaseUntil := 0)
                    && s.jobs[o].state != Completed && s.jobs[o].state != Cleaned)
                || (s.jobs[o].state == Receiving
                    && s'.jobs[o] == s.jobs[o].(operation := Some(operation), chunksTotal := 0, state := Queued,
                                                leaseUntil := 0)))
  {
  }

  lemma NewPartIsLegal(s: Db, s': Db, id: Uuid, upload: Uuid)
    requires References(s) && s'.jobs.Keys == s.jobs.Keys && s'.everUploads == s.everUploads
    requires s'.uploads.Keys == s.uploads.Keys
    requires forall u :: u in s.uploads ==>
      s'.uploads[u].bucket == s.uploads[u].bucket && s'.uploads[u].key == s.uploads[u].key
    requires id in s.jobs && s'.parts == s.parts[id := PartRef(upload, 0)] && PartFitsSession(s', id, upload)
    ensures LegalSessions(s, s')
  {
  }

  lemma CompletionKeepsSessions(s: Db, id: Uuid, operation: Uuid, upload: Uuid, now: int)
    requires References(s) && PartFitsSession(s, id, upload)
    requires RowsMove(s, QueueCompletion(s, id, operation, upload, now))
    ensures LegalSessions(s, QueueCompletion(s, id, operation, upload, now))
  {
    var s' := QueueCompletion(s, id, operation, upload, now);
    if CanQueueCompletion(s.(clock := now), id, upload) {
      assert QuietMove(s.jobs[id], s'.jobs[id], !HasUnsettled(s.attempts, id));
      NewPartIsLegal(s, s', id, upload);
    } else {
      SessionsStay(s, s');
    }
  }

  lemma CompletionIsLegal(s: Db, id: Uuid, operation: Uuid, upload: Uuid, now: int)
    requires References(s) && Leased(s) && PartFitsSession(s, id, upload)
    ensures Legal(s, QueueCompletion(s, id, operation, upload, now))
  {
    CompletionMovesRows(s, id, operation, upload, now);
    CompletionKeepsSessions(s, id, operation, upload, now);
    RowsMoveIsLegal(s, QueueCompletion(s, id, operation, upload, now));
  }

  lemma AbortMovesRows(s: Db, upload: Uuid)
    requires Leased(s)
    ensures RowsMove(s, AbortParts(s, upload))
  {
    var s' := AbortParts(s, upload);
    assert s'.jobs.Keys == s.jobs.Keys;
    forall o | o in s.jobs
      ensures QuietMove(s.jobs[o], s'.jobs[o], !HasUnsettled(s.attempts, o))
    {
      assert RowOk(s.jobs[o]);
      assert s'.jobs[o] == s.jobs[o] || s'.jobs[o] == AbortRow(s.jobs[o], o in s.parts && s.parts[o].upload == upload);
    }
  }

  lemma AbortIsLegal(s: Db, upload: Uuid)
    requires References(s) && Leased(s)
    ensures Legal(s, AbortParts(s, upload))
  {
    AbortMovesRows(s, upload);
    SessionsStay(s, AbortParts(s, upload));
    RowsMoveIsLegal(s, AbortParts(s, upload));
  }

  // ---- the sending worker --------------------------------------------------

  lemma RenewTransferIsLegal(s: Db, id: Uuid, lease: Uuid, now: int)
    requires References(s) && Leased(s)
    ensures Legal(s, RenewTransfer(s, id, lease, now))
  {
    if HoldsLease(s, id, lease) {
      assert RowOk(s.jobs[id]);
      OneRow(s, id, s.jobs[id].(leaseUntil := now + LEASE_SECS), RenewTransfer(s, id, lease, now));
    } else {
      TickIsLegal(s, now);
    }
  }

  lemma StartCommitIsLegal(s: Db, id: Uuid, lease: Uuid, now: int)
    requires References(s) && Leased(s)
    ensures Legal(s, StartCommit(s, id, lease, now))
  {
    if InState(s, id, Uploading) && s.jobs[id].lease == Some(lease) && s.jobs[id].leaseUntil >= now {
      assert RowOk(s.jobs[id]);
      OneRow(s, id, s.jobs[id].(state := Committing), StartCommit(s, id, lease, now));
    } else {
      TickIsLegal(s, now);
    }
  }

  lemma FailedIsLegal(s: Db, id: Uuid, lease: Uuid, retryAfter: Option<nat>, now: int)
    requires References(s) && Leased(s)
    ensures Legal(s, TransferFailed(s, id, lease, retryAfter, now))
  {
    if HoldsLease(s, id, lease) {
      OneRow(s, id, FailedRow(s.jobs[id], HasUnsettled(s.attempts, id), retryAfter, now),
             TransferFailed(s, id, lease, retryAfter, now));
    } else {
      TickIsLegal(s, now);
    }
  }

  lemma MarkUnknownIsLegal(s: Db, k: AttemptKey, lease: Uuid, kind: ErrorKind, mentionsFlood: bool, now: int)
    requires References(s) && Leased(s)
    ensures Legal(s, MarkUnknown(s, k, lease, kind, mentionsFlood, now))
  {
    if CanMark(s, k, lease) {
      OneAttemptMoves(s, k, MarkedAttempt(s.attempts[k], Unknown, kind, mentionsFlood), now);
    } else {
      TickIsLegal(s, now);
    }
  }

  lemma MarkRetryableIsLegal(s: Db, k: AttemptKey, lease: Uuid, kind: ErrorKind, mentionsFlood: bool, now: int)
    requires References(s) && Leased(s)
    ensures Legal(s, MarkRetryable(s, k, lease, kind, mentionsFlood, now))
  {
    if CanMark(s, k, lease) {
      OneAttemptMoves(s, k, MarkedAttempt(s.attempts[k], Retryable, kind, mentionsFlood), now);
    } else {
      TickIsLegal(s, now);
    }
  }

  lemma BeginSendIsLegal(s: Db, k: AttemptKey, lease: Uuid, now: int)
    requires References(s) && Leased(s)
    ensures Legal(s, BeginSend(s, k, lease, now))
  {
    var s' := BeginSend(s, k, lease, now);
    if s' == s.(clock := now) {
      TickIsLegal(s, now);
    } else {
      BegunSendIsLegal(s, k, lease, s');
    }
  }

  lemma BegunSendRows(s: Db, k: AttemptKey, lease: Uuid, s': Db)
    requires References(s) && HoldsLease(s, k.job, lease) && k !in s.attempts
    requires s'.attempts == s.attempts[k := Attempt(Sending, NoKind, false, false, None, lease)]
    requires s' == s.(clock := s'.clock, attempts := s'.attempts)
    ensures LegalAttempts(s, s') && KeepsRecords(s, s')
  {
  }

  lemma BegunSendIsLegal(s: Db, k: AttemptKey, lease: Uuid, s': Db)
    requires References(s) && Leased(s) && HoldsLease(s, k.job, lease) && k !in s.attempts
    requires s'.attempts == s.attempts[k := Attempt(Sending, NoKind, false, false, None, lease)]
    requires s' == s.(clock := s'.clock, attempts := s'.attempts)
    ensures Legal(s, s')
  {
    BegunSendRows(s, k, lease, s');
    SameLifecycleIsLegal(s, s');
    SessionsStay(s, s');
  }

  lemma SettleMovesAttempts(s: Db, k: AttemptKey, a': Attempt, s': Db)
    requires forall k :: k in s.attempts ==> k.job in s.jobs
    requires forall c :: c in s.chunks ==> c.job in s.jobs
    requires k in s.attempts && Unsettled(s.attempts[k].state) && a'.beganUnder == s.attempts[k].beganUnder
      && a'.state != Sending
    requires s'.attempts == s.attempts[k := a'] && s'.jobs.Keys == s.jobs.Keys
    requires forall c :: c in s'.chunks ==> c in s.chunks || c.job == k.job
    ensures LegalAttempts(s, s')
  {
  }

  /** Settling one unsettled attempt, with or without a checkpoint. */
  lemma SettleIsLawful(s: Db, k: AttemptKey, a': Attempt, chunks: map<ChunkKey, Location>, done: nat, s': Db)
    requires References(s) && Leased(s)
    requires k in s.attempts && Unsettled(s.attempts[k].state) && a'.beganUnder == s.attempts[k].beganUnder
      && a'.state != Sending
    requires forall c :: c in chunks ==> c in s.chunks || c.job == k.job
    requires k.job in s.jobs
    requires s' == s.(attempts := s.attempts[k := a'], chunks := chunks, clock := s'.clock,
                      jobs := s.jobs[k.job := s.jobs[k.job].(chunksDone := done)])
    ensures Lawful(s, s') && CleansNothing(s, s') && KeepsPauses(s, s') && StagesNothing(s, s')
  {
    assert s'.jobs.Keys == s.jobs.Keys;
    SameLifecycleIsLegal(s, s');
    SettleMovesAttempts(s, k, a', s');
    SessionsStay(s, s');
  }

  lemma FinishSendIsLawful(s: Db, k: AttemptKey, lease: Uuid, location: Location, now: int)
    requires References(s) && Leased(s)
    ensures var s' := FinishSend(s, k, lease, location, now);
            Lawful(s, s') && CleansNothing(s, s') && KeepsPauses(s, s') && StagesNothing(s, s')
  {
    var s' := FinishSend(s, k, lease, location, now);
    if CanFinishSend(s.(clock := now), k, lease, now) {
      SettleIsLawful(s, k, s'.attempts[k], s'.chunks, s'.jobs[k.job].chunksDone, s');
    } else {
      TickIsLegal(s, now);
    }
  }

  lemma ResolveIsLawful(s: Db, k: AttemptKey, found: Option<Location>, mentionsFlood: bool, now: int)
    requires References(s) && Leased(s)
    ensures var s' := ResolveSend(s, k, found, mentionsFlood, now);
            Lawful(s, s') && CleansNothing(s, s') && KeepsPauses(s, s') && StagesNothing(s, s')
  {
    var s' := ResolveSend(s, k, found, mentionsFlood, now);
    if CanResolve(s.(clock := now), k) {
      SettleIsLawful(s, k, s'.attempts[k], s'.chunks, s'.jobs[k.job].chunksDone, s');
    } else {
      TickIsLegal(s, now);
    }
  }

  // ---- publication ---------------------------------------------------------

  lemma CommitMovesRows(s: Db, id: Uuid, lease: Uuid, operation: Uuid, others: bool, now: int)
    requires Leased(s)
    ensures RowsMove(s, CommitTransfer(s, id, lease, operation, others, now))
  {
    var s' := CommitTransfer(s, id, lease, operation, others, now);
    assert s'.jobs.Keys == s.jobs.Keys;
    forall o | o in s.jobs
      ensures QuietMove(s.jobs[o], s'.jobs[o], !HasUnsettled(s.attempts, o))
    {
      assert RowOk(s.jobs[o]);
      assert s'.jobs[o] == s.jobs[o]
        || (s.jobs[o].state == Committing
            && s'.jobs[o] == s.jobs[o].(state := Completed, lease := None, leaseUntil := 0));
    }
  }

  lemma CommitKeepsSessions(s: Db, id: Uuid, lease: Uuid, operation: Uuid, others: bool, now: int)
    requires References(s) && CommitTransfer(s, id, lease, operation, others, now).jobs.Keys == s.jobs.Keys
    ensures LegalSessions(s, CommitTransfer(s, id, lease, operation, others, now))
  {
  }

  lemma CommitIsLegal(s: Db, id: Uuid, lease: Uuid, operation: Uuid, others: bool, now: int)
    requires References(s) && Leased(s)
    ensures Legal(s, CommitTransfer(s, id, lease, operation, others, now))
  {
    CommitMovesRows(s, id, lease, operation, others, now);
    CommitKeepsSessions(s, id, lease, operation, others, now);
    RowsMoveIsLegal(s, CommitTransfer(s, id, lease, operation, others, now));
  }

  /** What a part publication does to each row. */
  lemma FinishPartRow(s: Db, id: Uuid, lease: Uuid, upload: Uuid, number: nat, staged: bool, now: int, o: Uuid)
    requires CanFinishPart(s, id, lease, upload, staged) && o in s.jobs
    ensures var s' := FinishPart(s, id, lease, upload, number, staged, now);
            && o in s'.jobs
            && (o == id ==> s'.jobs[o] == s.jobs[o].(state := Completed, lease := None))
            && (o != id ==> s'.jobs[o] == SupersedeRow(s.jobs[o], IsSafeDuplicate(s, o, id, upload, number)))
  {
  }

  lemma FinishPartMovesRows(s: Db, id: Uuid, lease: Uuid, upload: Uuid, number: nat, staged: bool, now: int)
    requires Leased(s) && CanFinishPart(s, id, lease, upload, staged)
    ensures RowsMove(s, FinishPart(s, id, lease, upload, number, staged, now))
  {
    var s' := FinishPart(s, id, lease, upload, number, staged, now);
    assert s'.jobs.Keys == s.jobs.Keys;
    forall o | o in s.jobs
      ensures QuietMove(s.jobs[o], s'.jobs[o], !HasUnsettled(s.attempts, o))
    {
      assert RowOk(s.jobs[o]);
      FinishPartRow(s, id, lease, upload, number, staged, now, o);
    }
  }

  lemma FinishPartIsLegal(s: Db, id: Uuid, lease: Uuid, upload: Uuid, number: nat, staged: bool, now: int)
    requires References(s) && Leased(s)
    ensures Legal(s, FinishPart(s, id, lease, upload, number, staged, now))
  {
    if CanFinishPart(s, id, lease, upload, staged) {
      FinishPartMovesRows(s, id, lease, upload, number, staged, now);
      JobsMoveIsLegal(s, FinishPart(s, id, lease, upload, number, staged, now));
    } else {
      TickIsLegal(s, now);
    }
  }

  lemma CleanIsLawful(s: Db, id: Uuid)
    requires References(s) && Leased(s)
    ensures var s' := CleanStaging(s, id);
            Lawful(s, s') && KeepsPauses(s, s') && StagesNothing(s, s') && KeepsRecords(s, s')
  {
    var s' := CleanStaging(s, id);
    if id in s.jobs && s.jobs[id].state in {Completed, Cancelled, ReceptionFailed, Superseded} {
      var j' := s.jobs[id].(state := Cleaned, bytes := 0);
      assert RowOk(s.jobs[id]);
      assert s' == s.(jobs := s.jobs[id := j'], clock := s.clock);
      OneRow(s, id, j', CleanStaging(s, id));
    } else {
      TickIsLegal(s, s.clock);
    }
  }

  // ---- recovery, operator, administration ----------------------------------

  lemma RetryIsLawful(s: Db, id: Uuid)
    requires References(s) && Leased(s)
    ensures var s' := OperatorRetry(s, id);
            Lawful(s, s') && CleansNothing(s, s') && StagesNothing(s, s') && KeepsRecords(s, s')
  {
    TickIsLegal(s, s.clock);
    if CanRetry(s, id) {
      assert RowOk(s.jobs[id]);
      OneRow(s, id, s.jobs[id].(state := Queued, nextRetry := 0), OperatorRetry(s, id));
    }
  }

  lemma QueueAfterIsLawful(s: Db, id: Uuid, now: int)
    requires References(s) && Leased(s)
    ensures var s' := QueueAfterReconciliation(s, id, now);
            Lawful(s, s') && CleansNothing(s, s') && StagesNothing(s, s') && KeepsRecords(s, s')
  {
    if CanQueueAfterReconciliation(s, id) {
      assert RowOk(s.jobs[id]);
      OneRow(s, id, RequeueRow(s.jobs[id], HasFloodWait(s.attempts, id), now), QueueAfterReconciliation(s, id, now));
    } else {
      TickIsLegal(s, now);
    }
  }

  lemma CancelIsLegal(s: Db, id: Uuid, now: int)
    requires References(s) && Leased(s)
    ensures Legal(s, OperatorCancel(s, id, now))
  {
    if id in s.jobs && s.jobs[id].state in {Queued, RetryWait, RecoveryRequired} {
      OneRow(s, id, s.jobs[id].(state := Cancelled, lease := None, leaseUntil := 0), OperatorCancel(s, id, now));
    } else {
      TickIsLegal(s, now);
    }
  }

  lemma DeleteMovesRows(s: Db, bucket: string, key: string, others: bool, now: int)
    requires Leased(s)
    ensures RowsMove(s, DeleteKey(s, bucket, key, others, now))
  {
    var s' := DeleteKey(s, bucket, key, others, now);
    assert s'.jobs.Keys == s.jobs.Keys;
    forall o | o in s.jobs
      ensures QuietMove(s.jobs[o], s'.jobs[o], !HasUnsettled(s.attempts, o))
    {
      assert RowOk(s.jobs[o]);
      assert s'.jobs[o] == s.jobs[o] || (!Terminal(s.jobs[o].state) && s'.jobs[o] == CancelRow(s.jobs[o], true));
    }
  }

  lemma DeleteIsLegal(s: Db, bucket: string, key: string, others: bool, now: int)
    requires References(s) && Leased(s)
    ensures Legal(s, DeleteKey(s, bucket, key, others, now))
  {
    DeleteMovesRows(s, bucket, key, others, now);
    JobsMoveIsLegal(s, DeleteKey(s, bucket, key, others, now));
  }

  lemma AdoptMovesRows(s: Db, legacy: Uuid, connection: Uuid)
    requires Leased(s)
    ensures RowsMove(s, AdoptConnection(s, legacy, connection))
  {
  }

  lemma AdoptIsLegal(s: Db, legacy: Uuid, connection: Uuid)
    requires References(s) && Leased(s)
    ensures Legal(s, AdoptConnection(s, legacy, connection))
  {
    AdoptMovesRows(s, legacy, connection);
    SessionsStay(s, AdoptConnection(s, legacy, connection));
    RowsMoveIsLegal(s, AdoptConnection(s, legacy, connection));
  }

  lemma RemoveMovesRows(s: Db, connection: Uuid, now: int)
    requires Leased(s)
    ensures RowsMove(s, RemoveConnection(s, connection, now))
  {
    var s' := RemoveConnection(s, connection, now);
    assert s'.jobs.Keys == s.jobs.Keys;
    forall o | o in s.jobs
      ensures QuietMove(s.jobs[o], s'.jobs[o], !HasUnsettled(s.attempts, o))
    {
      assert RowOk(s.jobs[o]);
      assert s'.jobs[o] == s.jobs[o]
        || (s.jobs[o].state != Completed && s.jobs[o].state != Cleaned && s'.jobs[o] == CancelRow(s.jobs[o], true));
    }
  }

  lemma RemoveIsLegal(s: Db, connection: Uuid, now: int)
    requires References(s) && Leased(s)
    ensures Legal(s, RemoveConnection(s, connection, now))
  {
    var s' := RemoveConnection(s, connection, now);
    RemoveMovesRows(s, connection, now);
    SessionsStay(s, s');
    RowsMoveIsLegal(s, s');
  }

  lemma PurgeMovesJobs(s: Db, connection: Uuid)
    requires s.jobs.Keys <= s.everJobs && Leased(s)
    ensures LegalJobs(s, PurgeConnection(s, connection))
  {
  }

  lemma PurgeKeepsSessions(s: Db, connection: Uuid)
    requires References(s)
    ensures LegalSessions(s, PurgeConnection(s, connection)) && LegalAttempts(s, PurgeConnection(s, connection))
  {
  }

  lemma PurgeIsLawful(s: Db, connection: Uuid)
    requires References(s) && Leased(s)
    ensures var s' := PurgeConnection(s, connection);
            Lawful(s, s') && CleansNothing(s, s') && KeepsPauses(s, s') && StagesNothing(s, s')
  {
    PurgeMovesJobs(s, connection);
    PurgeKeepsSessions(s, connection);
  }

  // ---- claiming and flood-wait reclassification ----------------------------

  lemma ExpireReceptionsMovesRows(s: Db, now: int)
    requires Leased(s)
    ensures RowsMove(s, ExpireReceptions(s, now))
  {
    var s' := ExpireReceptions(s, now);
    assert s'.jobs.Keys == s.jobs.Keys;
    forall o | o in s.jobs
      ensures QuietMove(s.jobs[o], s'.jobs[o], !HasUnsettled(s.attempts, o))
    {
      assert RowOk(s.jobs[o]);
      assert s'.jobs[o] == ExpireRow(s.jobs[o], now);
    }
  }

  lemma ExpireReceptionsIsLegal(s: Db, now: int)
    requires References(s) && Leased(s)
    ensures Legal(s, ExpireReceptions(s, now))
  {
    ExpireReceptionsMovesRows(s, now);
    JobsMoveIsLegal(s, ExpireReceptions(s, now));
  }

  lemma FenceLostSendsMovesRows(s: Db, now: int)
    requires Leased(s)
    ensures RowsMove(s, FenceLostSends(s, now))
  {
    var s' := FenceLostSends(s, now);
    assert s'.jobs.Keys == s.jobs.Keys;
    forall o | o in s.jobs
      ensures QuietMove(s.jobs[o], s'.jobs[o], !HasUnsettled(s.attempts, o))
    {
      assert RowOk(s.jobs[o]);
      assert s'.jobs[o] == FenceRow(s.jobs[o], now, HasUnsettled(s.attempts, o));
    }
  }

  lemma FenceLostSendsIsLegal(s: Db, now: int)
    requires References(s) && Leased(s)
    ensures Legal(s, FenceLostSends(s, now))
  {
    FenceLostSendsMovesRows(s, now);
    JobsMoveIsLegal(s, FenceLostSends(s, now));
  }

  lemma MarkLostSendsIsLegal(s: Db, now: int)
    requires References(s) && Leased(s)
    ensures Legal(s, MarkLostSendsUnknown(s, now))
  {
    assert MarkLostSendsUnknown(s, now).attempts.Keys == s.attempts.Keys;
    AttemptsMoveIsLegal(s, MarkLostSendsUnknown(s, now));
  }

  lemma CancelClosedMovesRows(s: Db)
    requires Leased(s)
    ensures RowsMove(s, CancelClosedSessions(s))
  {
    var s' := CancelClosedSessions(s);
    assert s'.jobs.Keys == s.jobs.Keys;
    forall o | o in s.jobs
      ensures QuietMove(s.jobs[o], s'.jobs[o], !HasUnsettled(s.attempts, o))
    {
      assert RowOk(s.jobs[o]);
      assert s'.jobs[o] == CancelRow(s.jobs[o], SessionClosedFor(s, o)
                                     && s.jobs[o].state in {Queued, RetryWait, RecoveryRequired});
    }
  }

  lemma CancelClosedIsLegal(s: Db)
    requires References(s) && Leased(s)
    ensures Legal(s, CancelClosedSessions(s))
  {
    CancelClosedMovesRows(s);
    JobsMoveIsLegal(s, CancelClosedSessions(s));
  }

  lemma SupersedeMovesRows(s: Db)
    requires Leased(s)
    ensures RowsMove(s, SupersedeOlder(s))
  {
    var s' := SupersedeOlder(s);
    assert s'.jobs.Keys == s.jobs.Keys;
    forall o | o in s.jobs
      ensures QuietMove(s.jobs[o], s'.jobs[o], !HasUnsettled(s.attempts, o))
    {
      assert RowOk(s.jobs[o]);
      assert s'.jobs[o] == SupersedeRow(s.jobs[o], IsSuperseded(s.jobs, o));
    }
  }

  lemma SupersedeIsLegal(s: Db)
    requires References(s) && Leased(s)
    ensures Legal(s, SupersedeOlder(s))
  {
    SupersedeMovesRows(s);
    JobsMoveIsLegal(s, SupersedeOlder(s));
  }

  lemma GrantMovesJobs(s: Db, id: Uuid, lease: Uuid, now: int, leaseNow: int)
    requires s.jobs.Keys <= s.everJobs && Leased(s) && IsCandidate(s, id, now) && lease !in s.leases
    ensures LegalJobs(s, Grant(s, id, lease, leaseNow)) && Grant(s, id, lease, leaseNow).jobs.Keys == s.jobs.Keys
  {
    var s' := Grant(s, id, lease, leaseNow);
    assert s'.jobs.Keys == s.jobs.Keys;
    assert OlderSettled(s', id) && AllSettled(s', id);
    forall o | o in s'.jobs
      ensures LegalJob(s, s', o)
    {
      assert RowOk(s.jobs[o]);
    }
  }

  lemma GrantIsLawful(s: Db, id: Uuid, lease: Uuid, now: int, leaseNow: int)
    requires References(s) && Leased(s) && IsCandidate(s, id, now) && lease !in s.leases
    ensures var s' := Grant(s, id, lease, leaseNow);
            Lawful(s, s') && CleansNothing(s, s') && StagesNothing(s, s') && KeepsRecords(s, s')
  {
    GrantMovesJobs(s, id, lease, now, leaseNow);
    SessionsStay(s, Grant(s, id, lease, leaseNow));
    AttemptsStay(s, Grant(s, id, lease, leaseNow));
  }

  lemma AttemptsStay(s: Db, s': Db)
    requires References(s) && s'.attempts == s.attempts && s'.chunks == s.chunks && s'.jobs.Keys == s.jobs.Keys
    ensures LegalAttempts(s, s')
  {
  }

  lemma ReclassifyAttemptsIsLegal(s: Db)
    requires References(s) && Leased(s)
    ensures Legal(s, ReclassifyAttempts(s))
  {
    assert ReclassifyAttempts(s).attempts.Keys == s.attempts.Keys;
    AttemptsMoveIsLegal(s, ReclassifyAttempts(s));
  }

  lemma PauseFloodedMovesRows(s: Db, retryAt: int)
    requires Leased(s)
    ensures RowsMove(s, PauseFlooded(s, retryAt))
  {
    var s' := PauseFlooded(s, retryAt);
    assert s'.jobs.Keys == s.jobs.Keys;
    forall o | o in s.jobs
      ensures QuietMove(s.jobs[o], s'.jobs[o], !HasUnsettled(s.attempts, o))
    {
      assert RowOk(s.jobs[o]);
      assert s'.jobs[o] == PauseRow(s.jobs[o], HasFloodWait(s.attempts, o), retryAt);
    }
  }

  lemma PauseFloodedIsLegal(s: Db, retryAt: int)
    requires References(s) && Leased(s)
    ensures Legal(s, PauseFlooded(s, retryAt))
  {
    PauseFloodedMovesRows(s, retryAt);
    JobsMoveIsLegal(s, PauseFlooded(s, retryAt));
  }

  lemma RescheduleFloodedMovesRows(s: Db, retryAt: int)
    requires Leased(s)
    ensures RowsMove(s, RescheduleFlooded(s, retryAt))
  {
    var s' := RescheduleFlooded(s, retryAt);
    assert s'.jobs.Keys == s.jobs.Keys;
    forall o | o in s.jobs
      ensures QuietMove(s.jobs[o], s'.jobs[o], !HasUnsettled(s.attempts, o))
    {
      assert RowOk(s.jobs[o]);
      assert s'.jobs[o] == RescheduleRow(s.jobs[o], HasUnsettled(s.attempts, o), HasFloodWait(s.attempts, o), retryAt);
    }
  }

  lemma RescheduleFloodedIsLegal(s: Db, retryAt: int)
    requires References(s) && Leased(s)
    ensures Legal(s, RescheduleFlooded(s, retryAt))
  {
    RescheduleFloodedMovesRows(s, retryAt);
    JobsMoveIsLegal(s, RescheduleFlooded(s, retryAt));
  }
}
