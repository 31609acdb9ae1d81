/** The invariant after every run, and what never goes back along one. */
module TransferInvariant {
  import opened Basics
  import opened TransferModel
  import opened TransferRuns
  import opened TransferSafety
  import opened TransferSteps

  /**
   What never goes back: identity and order of rows, finished jobs, grant counts, settled
   attempts, the clock and the identifiers handed out; no send is restarted, and a lease a job
   did not hold before is a new one.
   */
  ghost predicate Onward(s: Db, s': Db) {
    JobsOnward(s, s') && AttemptsOnward(s, s')
  }

  ghost predicate JobsOnward(s: Db, s': Db) {
    && s.clock <= s'.clock && s.nextSequence <= s'.nextSequence && s.everJobs <= s'.everJobs && s.leases <= s'.leases
    && (forall id :: id in s'.jobs && id in s.everJobs ==> id in s.jobs)
    && (forall id :: id in s'.jobs && id !in s.jobs ==> s.nextSequence <= s'.jobs[id].sequence)
    && (forall id :: id in s'.jobs && id in s.jobs ==> JobOnward(s.jobs[id], s'.jobs[id], s.leases))
  }

  predicate JobOnward(j: Job, j': Job, leases: set<Uuid>) {
    && j'.sequence == j.sequence && SameKey(j, j')
    && (Terminal(j.state) ==> Terminal(j'.state))
    && j.attempts <= j'.attempts
    && (j'.lease.Some? ==> j'.lease == j.lease || j'.lease.value !in leases)
  }

  ghost predicate AttemptsOnward(s: Db, s': Db) {
    && (forall k :: k in s.attempts && k.job in s'.jobs ==> k in s'.attempts)
    && (forall k :: k in s.attempts && k in s'.attempts && !Unsettled(s.attempts[k].state) ==>
        s'.attempts[k] == s.attempts[k])
    && (forall k :: k in s.attempts && k in s'.attempts && s'.attempts[k].state == Sending ==>
        s.attempts[k].state == Sending)
  }

  ghost predicate Step(s: Db, s': Db) {
    Inv(s') && Onward(s, s')
  }

  lemma LawIsStep(s: Db, s': Db)
    requires Inv(s) && Lawful(s, s') && s.clock <= s'.clock
    ensures Step(s, s')
  {
    LawKeepsInv(s, s');
    forall id | id in s'.jobs && id in s.jobs
      ensures JobOnward(s.jobs[id], s'.jobs[id], s.leases)
    {
      assert LegalJob(s, s', id);
    }
    forall k | k in s.attempts && k in s'.attempts
      ensures !Unsettled(s.attempts[k].state) ==> s'.attempts[k] == s.attempts[k]
      ensures s'.attempts[k].state == Sending ==> s.attempts[k].state == Sending
    {
      assert LegalAttempt(s, s', k);
    }
  }

  lemma LawHoldsSends(s: Db, s': Db)
    requires LegalAttempts(s, s')
    ensures SendsAreHeld(s, s')
  {
  }

  lemma JobsOnwardIsTransitive(a: Db, b: Db, c: Db)
    requires a.jobs.Keys <= a.everJobs && b.jobs.Keys <= b.everJobs
    requires JobsOnward(a, b) && JobsOnward(b, c)
    ensures JobsOnward(a, c)
  {
  }

  lemma AttemptsOnwardIsTransitive(a: Db, b: Db, c: Db)
    requires References(a) && References(c)
    requires JobsOnward(a, b) && JobsOnward(b, c) && AttemptsOnward(a, b) && AttemptsOnward(b, c)
    ensures AttemptsOnward(a, c)
  {
  }

  lemma OnwardIsTransitive(a: Db, b: Db, c: Db)
    requires Inv(a) && Step(a, b) && Step(b, c)
    ensures Step(a, c)
  {
    JobsOnwardIsTransitive(a, b, c);
    AttemptsOnwardIsTransitive(a, b, c);
  }

  /** None of the three effects a claim never has. */
  ghost predicate Quiet(s: Db, s': Db) {
    CleansNothing(s, s') && StagesNothing(s, s') && KeepsRecords(s, s')
  }

  lemma QuietIsTransitive(a: Db, b: Db, c: Db)
    requires a.jobs.Keys <= a.everJobs && JobsOnward(a, b) && JobsOnward(b, c) && Quiet(a, b) && Quiet(b, c)
    ensures Quiet(a, c)
  {
  }

  lemma NextStep(s: Db, s1: Db, s2: Db)
    requires Inv(s) && Step(s, s1) && Quiet(s, s1) && Legal(s1, s2) && s1.clock <= s2.clock
    ensures Step(s, s2) && Quiet(s, s2)
  {
    LawIsStep(s1, s2);
    OnwardIsTransitive(s, s1, s2);
    QuietIsTransitive(s, s1, s2);
  }

  lemma PrepareIsStep(s: Db, t1: int, t2: int, t3: int)
    requires Inv(s)
    ensures Step(s, PrepareClaim(s, t1, t2, t3)) && Quiet(s, PrepareClaim(s, t1, t2, t3))
  {
    var s1 := ExpireReceptions(s, t1);
    ExpireReceptionsIsLegal(s, t1);
    LawIsStep(s, s1);
    var s2 := FenceLostSends(s1, t2);
    FenceLostSendsIsLegal(s1, t2);
    NextStep(s, s1, s2);
    var s3 := MarkLostSendsUnknown(s2, t3);
    MarkLostSendsIsLegal(s2, t3);
    NextStep(s, s2, s3);
    var s4 := CancelClosedSessions(s3);
    CancelClosedIsLegal(s3);
    NextStep(s, s3, s4);
    SupersedeIsLegal(s4);
    NextStep(s, s4, SupersedeOlder(s4));
  }

  lemma TickIsStep(s: Db, clock: int)
    requires Inv(s) && s.clock <= clock
    ensures Step(s, s.(clock := clock))
  {
    TickIsLegal(s, clock);
    LawIsStep(s, s.(clock := clock));
  }

  lemma ClaimIsStep(s: Db, t: ClaimTimes, pick: Option<Uuid>, lease: Uuid)
    requires Inv(s) && Ordered(s.clock, t) && lease !in s.leases && IsPick(Prepared(s, t), pick, t.t4)
    requires pick.Some? ==> pick.value in s.jobs
    ensures Step(s, Claim(s, t, pick, lease)) && Quiet(s, Claim(s, t, pick, lease))
  {
    var p := Prepared(s, t);
    PrepareIsStep(s, t.t1, t.t2, t.t3);
    if pick.None? {
      TickIsLegal(p, t.t5);
      NextStep(s, p, p.(clock := t.t5));
    } else {
      var g := Grant(p, pick.value, lease, t.t5);
      GrantIsLawful(p, pick.value, lease, t.t4, t.t5);
      LawIsStep(p, g);
      OnwardIsTransitive(s, p, g);
      QuietIsTransitive(s, p, g);
      TickIsLegal(g, t.t5);
      NextStep(s, g, g.(clock := t.t5));
    }
  }

  lemma ReclassifyIsStep(s: Db, delay: nat, now: int)
    requires Inv(s) && s.clock <= now
    ensures Step(s, ReclassifyFloodWaits(s, delay, now)) && Quiet(s, ReclassifyFloodWaits(s, delay, now))
  {
    var at := RetryAt(delay, now);
    var s0 := s.(clock := now);
    TickIsLegal(s, now);
    LawIsStep(s, s0);
    var s1 := ReclassifyAttempts(s0);
    ReclassifyAttemptsIsLegal(s0);
    NextStep(s, s0, s1);
    var s2 := PauseFlooded(s1, at);
    PauseFloodedIsLegal(s1, at);
    NextStep(s, s1, s2);
    RescheduleFloodedIsLegal(s2, at);
    NextStep(s, s2, RescheduleFlooded(s2, at));
  }

  // ---- all calls -----------------------------------------------------------

  predicate IsAdmission(op: Op) {
    op.OpBegin? || op.OpRenewReceiving? || op.OpQueue? || op.OpFailReception? || op.OpRejectForQuota?
  }

  predicate IsSessionCall(op: Op) {
    op.OpCreateSession? || op.OpChangeSession? || op.OpRegisterPart? || op.OpQueueCompletion? || op.OpAbortParts?
  }

  predicate IsWorkerCall(op: Op) {
    op.OpRenewTransfer? || op.OpBeginSend? || op.OpMarkUnknown? || op.OpMarkRetryable? || op.OpStartCommit?
    || op.OpFailed? || op.OpCommit? || op.OpFinishPart?
  }

  predicate IsAdministration(op: Op) {
    op.OpCancel? || op.OpDeleteKey? || op.OpAdoptConnection? || op.OpRemoveConnection?
  }

  lemma AdmissionIsLegal(s: Db, op: Op)
    requires References(s) && Leased(s) && Enabled(s, op) && IsAdmission(op)
    ensures Legal(s, Apply(s, op))
  {
    match op
    case OpBegin(id, connection, bucket, key, bucketExists, now) =>
      BeginIsLegal(s, id, connection, bucket, key, bucketExists, now);
    case OpRenewReceiving(id, now) => RenewReceivingIsLegal(s, id, now);
    case OpQueue(id, operation, chunks, now) => QueueIsLegal(s, id, operation, chunks, now);
    case OpFailReception(id, filesRemoved, now) => FailReceptionIsLegal(s, id, filesRemoved, now);
    case OpRejectForQuota(id, now) => RejectIsLegal(s, id, now);
  }

  lemma SessionCallIsLegal(s: Db, op: Op)
    requires References(s) && Leased(s) && Enabled(s, op) && IsSessionCall(op)
    ensures Legal(s, Apply(s, op))
  {
    match op
    case OpCreateSession(upload, connection, bucket, key) => CreateSessionIsLegal(s, upload, connection, bucket, key);
    case OpChangeSession(upload, state) => ChangeSessionIsLegal(s, upload, state);
    case OpRegisterPart(id, upload, number) => RegisterPartIsLegal(s, id, upload, number);
    case OpQueueCompletion(id, operation, upload, now) => CompletionIsLegal(s, id, operation, upload, now);
    case OpAbortParts(upload) => AbortIsLegal(s, upload);
  }

  lemma SendCallIsLegal(s: Db, op: Op)
    requires References(s) && Leased(s) && Enabled(s, op)
      && (op.OpBeginSend? || op.OpMarkUnknown? || op.OpMarkRetryable?)
    ensures Legal(s, Apply(s, op))
  {
    match op
    case OpBeginSend(k, lease, now) => BeginSendIsLegal(s, k, lease, now);
    case OpMarkUnknown(k, lease, kind, mentionsFlood, now) => MarkUnknownIsLegal(s, k, lease, kind, mentionsFlood, now);
    case OpMarkRetryable(k, lease, kind, mentionsFlood, now) =>
      MarkRetryableIsLegal(s, k, lease, kind, mentionsFlood, now);
  }

  lemma LeaseCallIsLegal(s: Db, op: Op)
    requires References(s) && Leased(s) && Enabled(s, op) && (op.OpRenewTransfer? || op.OpStartCommit? || op.OpFailed?)
    ensures Legal(s, Apply(s, op))
  {
    match op
    case OpRenewTransfer(id, lease, now) => RenewTransferIsLegal(s, id, lease, now);
    case OpStartCommit(id, lease, now) => StartCommitIsLegal(s, id, lease, now);
    case OpFailed(id, lease, retryAfter, now) => FailedIsLegal(s, id, lease, retryAfter, now);
  }

  lemma WorkerCallIsLegal(s: Db, op: Op)
    requires References(s) && Leased(s) && Enabled(s, op) && IsWorkerCall(op)
    ensures Legal(s, Apply(s, op))
  {
    if op.OpBeginSend? || op.OpMarkUnknown? || op.OpMarkRetryable? {
      SendCallIsLegal(s, op);
    } else if op.OpCommit? {
      CommitIsLegal(s, op.id, op.lease, op.operation, op.others, op.now);
    } else if op.OpFinishPart? {
      FinishPartIsLegal(s, op.id, op.lease, op.upload, op.number, op.staged, op.now);
    } else {
      LeaseCallIsLegal(s, op);
    }
  }

  lemma CancellationIsLegal(s: Db, op: Op)
    requires References(s) && Leased(s) && Enabled(s, op) && (op.OpCancel? || op.OpDeleteKey?)
    ensures Legal(s, Apply(s, op))
  {
    if op.OpCancel? {
      CancelIsLegal(s, op.id, op.now);
    } else {
      DeleteIsLegal(s, op.bucket, op.key, op.others, op.now);
    }
  }

  lemma AdministrationIsLegal(s: Db, op: Op)
    requires References(s) && Leased(s) && Enabled(s, op) && IsAdministration(op)
    ensures Legal(s, Apply(s, op))
  {
    if op.OpAdoptConnection? {
      AdoptIsLegal(s, op.legacy, op.connection);
    } else if op.OpRemoveConnection? {
      RemoveIsLegal(s, op.connection, op.now);
    } else {
      CancellationIsLegal(s, op);
    }
  }

  predicate IsComposite(op: Op) {
    op.OpClaim? || op.OpReclassify?
  }

  /** Which call can end a pause, clean a job, stage bytes or write a checkpoint. */
  predicate MayEndPause(op: Op) { op.OpClaim? || op.OpRetry? || op.OpQueueAfterReconciliation? }
  predicate MayClean(op: Op) { op.OpClean? }
  predicate MayStage(op: Op) { op.OpReserve? }
  predicate MayRecord(op: Op) { op.OpFinishSend? || op.OpResolve? || op.OpPurgeConnection? }

  lemma RecordCallIsLawful(s: Db, op: Op)
    requires References(s) && Leased(s) && Enabled(s, op) && MayRecord(op)
    ensures Lawful(s, Apply(s, op)) && KeepsPauses(s, Apply(s, op)) && CleansNothing(s, Apply(s, op))
      && StagesNothing(s, Apply(s, op))
  {
    if op.OpFinishSend? {
      FinishSendIsLawful(s, op.k, op.lease, op.location, op.now);
    } else if op.OpResolve? {
      ResolveIsLawful(s, op.k, op.found, op.mentionsFlood, op.now);
    } else {
      PurgeIsLawful(s, op.connection);
    }
  }

  lemma EffectCallIsLawful(s: Db, op: Op)
    requires References(s) && Leased(s) && Enabled(s, op) && !IsComposite(op)
    requires MayEndPause(op) || MayClean(op) || MayStage(op)
    ensures Lawful(s, Apply(s, op)) && KeepsRecords(s, Apply(s, op))
    ensures !MayEndPause(op) ==> KeepsPauses(s, Apply(s, op))
    ensures !MayClean(op) ==> CleansNothing(s, Apply(s, op))
    ensures !MayStage(op) ==> StagesNothing(s, Apply(s, op))
  {
    if op.OpReserve? {
      ReserveIsLawful(s, op.id, op.bytes, op.budget, op.used, op.now);
    } else if op.OpClean? {
      CleanIsLawful(s, op.id);
    } else if op.OpRetry? {
      RetryIsLawful(s, op.id);
    } else {
      QueueAfterIsLawful(s, op.id, op.now);
    }
  }

  /** Every call but the two composite ones is one lawful change, with at most its own effect. */
  lemma SimpleCallIsLawful(s: Db, op: Op)
    requires References(s) && Leased(s) && Enabled(s, op) && !IsComposite(op)
    ensures Lawful(s, Apply(s, op))
    ensures !MayEndPause(op) ==> KeepsPauses(s, Apply(s, op))
    ensures !MayClean(op) ==> CleansNothing(s, Apply(s, op))
    ensures !MayStage(op) ==> StagesNothing(s, Apply(s, op))
    ensures !MayRecord(op) ==> KeepsRecords(s, Apply(s, op))
  {
    if IsAdmission(op) {
      AdmissionIsLegal(s, op);
    } else if IsSessionCall(op) {
      SessionCallIsLegal(s, op);
    } else if IsWorkerCall(op) {
      WorkerCallIsLegal(s, op);
    } else if IsAdministration(op) {
      AdministrationIsLegal(s, op);
    } else if MayRecord(op) {
      RecordCallIsLawful(s, op);
    } else {
      EffectCallIsLawful(s, op);
    }
  }

  lemma StoreCallKeepsClock(s: Db, op: Op)
    requires Enabled(s, op) && (IsAdmission(op) || IsSessionCall(op) || IsAdministration(op))
    ensures s.clock <= Apply(s, op).clock
  {
  }

  lemma WorkerCallKeepsClock(s: Db, op: Op)
    requires Enabled(s, op) && !IsAdmission(op) && !IsSessionCall(op) && !IsAdministration(op) && !IsComposite(op)
    ensures s.clock <= Apply(s, op).clock
  {
  }

  lemma ReclassifyKeepsAttempts(s: Db, delay: nat, now: int)
    ensures ReclassifyFloodWaits(s, delay, now).attempts.Keys == s.attempts.Keys
  {
  }

  /** One call keeps the invariant, moves onward, and has at most its own effect. */
  lemma ApplyIsStep(s: Db, op: Op)
    requires Inv(s) && Enabled(s, op)
    ensures Step(s, Apply(s, op)) && SendsAreHeld(s, Apply(s, op))
    ensures !MayClean(op) ==> CleansNothing(s, Apply(s, op))
    ensures !MayStage(op) ==> StagesNothing(s, Apply(s, op))
    ensures !MayRecord(op) ==> KeepsRecords(s, Apply(s, op))
  {
    if op.OpClaim? {
      PreparedKeepsRows(s, op.times);
      ClaimIsStep(s, op.times, op.pick, op.lease);
    } else if op.OpReclassify? {
      ReclassifyIsStep(s, op.delay, op.now);
      ReclassifyKeepsAttempts(s, op.delay, op.now);
    } else {
      SimpleCallIsLawful(s, op);
      if IsAdmission(op) || IsSessionCall(op) || IsAdministration(op) {
        StoreCallKeepsClock(s, op);
      } else {
        WorkerCallKeepsClock(s, op);
      }
      LawIsStep(s, Apply(s, op));
      LawHoldsSends(s, Apply(s, op));
    }
  }

  lemma {:induction false} RunIsStep(s: Db, ops: seq<Op>)
    requires Inv(s) && IsRun(s, ops)
    ensures Step(s, After(s, ops))
    decreases |ops|
  {
    if ops != [] {
      var s1 := Apply(s, ops[0]);
      ApplyIsStep(s, ops[0]);
      RunIsStep(s1, ops[1..]);
      OnwardIsTransitive(s, s1, After(s, ops));
    } else {
      TickIsStep(s, s.clock);
    }
  }

  /** The invariant holds in every state any run from the empty database reaches. */
  lemma ReachableIsSafe(s: Db)
    requires Reachable(s)
    ensures Inv(s)
  {
    var ops :| IsRun(EMPTY, ops) && After(EMPTY, ops) == s;
    RunIsStep(EMPTY, ops);
  }
}
