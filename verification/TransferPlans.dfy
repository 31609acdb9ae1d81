/**
 A half-received upload is never sent: only a job that was queued, and so has an operation with
 a staged plan, is granted to a worker.  `queue_after_reconciliation` does not check this itself;
 its only caller calls it for jobs with send attempts, which is what it takes.
 */
module TransferPlans {
  import opened Basics
  import opened TransferModel
  import opened TransferRuns
  import opened TransferSafety
  import opened TransferInvariant
  import opened TransferTheorems
  import opened TransferRecovery
  import opened TransferClaim

  /** Without an operation the job is being received, broke off, or is finished, and was never granted. */
  predicate PlanOk(j: Job) {
    j.operation.None? ==> j.attempts == 0 && (j.state == Receiving || j.state == RecoveryRequired || Terminal(j.state))
  }

  ghost predicate Planned(s: Db) {
    forall id :: id in s.jobs ==> PlanOk(s.jobs[id])
  }

  /** The one call that breaks it. */
  predicate QueuesUnplanned(s: Db, op: Op) {
    op.OpQueueAfterReconciliation? && CanQueueAfterReconciliation(s, op.id) && s.jobs[op.id].operation.None?
  }

  // ---- every call ----------------------------------------------------------

  lemma AdmissionKeepsPlans(s: Db, op: Op)
    requires Planned(s) && Enabled(s, op)
    requires
      || op.OpBegin? || op.OpRenewReceiving? || op.OpReserve?
      || op.OpQueue? || op.OpFailReception? || op.OpRejectForQuota?
    ensures Planned(Apply(s, op))
  {
  }

  lemma SessionCallKeepsPlans(s: Db, op: Op)
    requires Planned(s) && Enabled(s, op)
    requires
      || op.OpCreateSession? || op.OpChangeSession? || op.OpRegisterPart?
      || op.OpQueueCompletion? || op.OpAbortParts?
    ensures Planned(Apply(s, op))
  {
  }

  lemma SendCallKeepsPlans(s: Db, op: Op)
    requires Planned(s) && Enabled(s, op)
    requires
      || op.OpRenewTransfer? || op.OpBeginSend? || op.OpFinishSend?
      || op.OpMarkUnknown? || op.OpMarkRetryable? || op.OpResolve?
    ensures Planned(Apply(s, op))
  {
  }

  lemma EndCallKeepsPlans(s: Db, op: Op)
    requires Planned(s) && Enabled(s, op)
    requires
      || op.OpStartCommit? || op.OpFailed? || op.OpCommit? || op.OpFinishPart?
      || op.OpClean? || op.OpRetry? || op.OpCancel?
    ensures Planned(Apply(s, op))
  {
  }

  lemma AdminCallKeepsPlans(s: Db, op: Op)
    requires Planned(s) && Enabled(s, op)
    requires op.OpDeleteKey? || op.OpAdoptConnection? || op.OpRemoveConnection? || op.OpPurgeConnection?
    ensures Planned(Apply(s, op))
  {
  }

  lemma DecisionKeepsPlan(s: Db, t: ClaimTimes, id: Uuid)
    requires id in s.jobs && PlanOk(s.jobs[id])
    ensures PlanOk(Decision(s, t, id)) && Decision(s, t, id).operation == s.jobs[id].operation
  {
  }

  lemma ClaimKeepsPlans(s: Db, t: ClaimTimes, pick: Option<Uuid>, lease: Uuid)
    requires Inv(s) && Planned(s) && Enabled(s, OpClaim(t, pick, lease))
    ensures Planned(Apply(s, OpClaim(t, pick, lease)))
    ensures pick.Some? ==> pick.value in s.jobs && s.jobs[pick.value].operation.Some?
  {
    ClaimIsDecided(s, t, pick, lease);
    DecidedKeepsPlans(s, Apply(s, OpClaim(t, pick, lease)), t, pick, lease);
  }

  lemma RunnableIsPlanned(s: Db, t: ClaimTimes, id: Uuid)
    requires Runnable(s, t, id) && PlanOk(s.jobs[id])
    ensures s.jobs[id].operation.Some?
  {
    DecisionKeepsPlan(s, t, id);
  }

  lemma DecidedKeepsPlans(s: Db, s': Db, t: ClaimTimes, pick: Option<Uuid>, lease: Uuid)
    requires Planned(s) && (pick.Some? ==> Runnable(s, t, pick.value)) && ClaimDecides(s, s', t, pick, lease)
    ensures Planned(s')
    ensures pick.Some? ==> pick.value in s.jobs && s.jobs[pick.value].operation.Some?
  {
    if pick.Some? {
      RunnableIsPlanned(s, t, pick.value);
    }
    forall id | id in s'.jobs
      ensures PlanOk(s'.jobs[id])
    {
      DecisionKeepsPlan(s, t, id);
    }
  }

  lemma FloodedIsPlanned(s: Db, id: Uuid)
    requires Leased(s) && Planned(s) && id in s.jobs && exists k :: k in s.attempts && k.job == id
    ensures s.jobs[id].operation.Some?
  {
  }

  lemma ReclassifyKeepsPlans(s: Db, delay: nat, now: int)
    requires Leased(s) && Planned(s)
    ensures Planned(ReclassifyFloodWaits(s, delay, now))
  {
    var at := RetryAt(delay, now);
    var s1 := ReclassifyAttempts(s.(clock := now));
    var s2 := PauseFlooded(s1, at);
    forall id | id in s.jobs
      ensures PlanOk(RescheduleFlooded(s2, at).jobs[id])
    {
      if HasFloodWait(s1.attempts, id) {
        FloodedIsPlanned(s, id);
      }
    }
  }

  lemma QueueAfterKeepsPlans(s: Db, id: Uuid, now: int)
    requires Planned(s)
    ensures Planned(QueueAfterReconciliation(s, id, now)) <==>
      !(CanQueueAfterReconciliation(s, id) && s.jobs[id].operation.None?)
  {
    var s' := QueueAfterReconciliation(s, id, now);
    if CanQueueAfterReconciliation(s, id) && s.jobs[id].operation.None? {
      assert !PlanOk(s'.jobs[id]);
    }
  }

  /** Every call keeps the plans, except the queueing of a job that has none. */
  lemma CallKeepsPlans(s: Db, op: Op)
    requires Inv(s) && Planned(s) && Enabled(s, op)
    ensures Planned(Apply(s, op)) <==> !QueuesUnplanned(s, op)
  {
    if op.OpClaim? {
      ClaimKeepsPlans(s, op.times, op.pick, op.lease);
    } else if op.OpReclassify? {
      ReclassifyKeepsPlans(s, op.delay, op.now);
    } else if op.OpQueueAfterReconciliation? {
      QueueAfterKeepsPlans(s, op.id, op.now);
    } else {
      OtherCallKeepsPlans(s, op);
    }
  }

  lemma OtherCallKeepsPlans(s: Db, op: Op)
    requires Planned(s) && Enabled(s, op) && !op.OpClaim? && !op.OpReclassify? && !op.OpQueueAfterReconciliation?
    ensures Planned(Apply(s, op))
  {
    match op
    case OpBegin(_, _, _, _, _, _) => AdmissionKeepsPlans(s, op);
    case OpRenewReceiving(_, _) => AdmissionKeepsPlans(s, op);
    case OpReserve(_, _, _, _, _) => AdmissionKeepsPlans(s, op);
    case OpQueue(_, _, _, _) => AdmissionKeepsPlans(s, op);
    case OpFailReception(_, _, _) => AdmissionKeepsPlans(s, op);
    case OpRejectForQuota(_, _) => AdmissionKeepsPlans(s, op);
    case OpCreateSession(_, _, _, _) => SessionCallKeepsPlans(s, op);
    case OpChangeSession(_, _) => SessionCallKeepsPlans(s, op);
    case OpRegisterPart(_, _, _) => SessionCallKeepsPlans(s, op);
    case OpQueueCompletion(_, _, _, _) => SessionCallKeepsPlans(s, op);
    case OpAbortParts(_) => SessionCallKeepsPlans(s, op);
    case OpRenewTransfer(_, _, _) => SendCallKeepsPlans(s, op);
    case OpBeginSend(_, _, _) => SendCallKeepsPlans(s, op);
    case OpFinishSend(_, _, _, _) => SendCallKeepsPlans(s, op);
    case OpMarkUnknown(_, _, _, _, _) => SendCallKeepsPlans(s, op);
    case OpMarkRetryable(_, _, _, _, _) => SendCallKeepsPlans(s, op);
    case OpResolve(_, _, _, _) => SendCallKeepsPlans(s, op);
    case OpDeleteKey(_, _, _, _) => AdminCallKeepsPlans(s, op);
    case OpAdoptConnection(_, _) => AdminCallKeepsPlans(s, op);
    case OpRemoveConnection(_, _) => AdminCallKeepsPlans(s, op);
    case OpPurgeConnection(_) => AdminCallKeepsPlans(s, op);
    case _ => EndCallKeepsPlans(s, op);
  }

  // ---- every run -----------------------------------------------------------

  predicate WasSent(s: Db, id: Uuid) {
    exists k :: k in s.attempts && k.job == id
  }

  /** Jobs are queued after reconciliation only when they have send attempts, as `reconcile_unknown_transfers` does. */
  ghost predicate IsReconcilingRun(s: Db, ops: seq<Op>)
    requires IsRun(s, ops)
    decreases |ops|
  {
    ops == []
    || ((ops[0].OpQueueAfterReconciliation? ==> WasSent(s, ops[0].id)) && IsReconcilingRun(Apply(s, ops[0]), ops[1..]))
  }

  lemma {:induction false} RunKeepsPlans(s: Db, ops: seq<Op>)
    requires Inv(s) && Planned(s) && IsRun(s, ops) && IsReconcilingRun(s, ops)
    ensures Inv(After(s, ops)) && Planned(After(s, ops))
    decreases |ops|
  {
    if ops != [] {
      if ops[0].OpQueueAfterReconciliation? && ops[0].id in s.jobs {
        FloodedIsPlanned(s, ops[0].id);
      }
      ApplyIsStep(s, ops[0]);
      CallKeepsPlans(s, ops[0]);
      RunKeepsPlans(Apply(s, ops[0]), ops[1..]);
    }
  }

  /** In every such run, no job is ever granted before its upload was received and queued. */
  lemma NothingUnplannedIsGranted(ops: seq<Op>, t: ClaimTimes, id: Uuid, lease: Uuid)
    requires IsRun(EMPTY, ops) && IsReconcilingRun(EMPTY, ops)
    requires Enabled(After(EMPTY, ops), OpClaim(t, Some(id), lease))
    ensures var s := After(EMPTY, ops); id in s.jobs && s.jobs[id].operation.Some?
  {
    RunKeepsPlans(EMPTY, ops);
    ClaimKeepsPlans(After(EMPTY, ops), t, Some(id), lease);
  }

  // ---- the condition is needed ---------------------------------------------

  /** An upload breaks off with its files still there, and it is queued although nothing was ever sent. */
  ghost function BrokenOffRun(id: Uuid, bucket: string, key: string): seq<Op> {
    [OpBegin(id, 0, bucket, key, true, 0), OpFailReception(id, false, 0), OpQueueAfterReconciliation(id, 0)]
  }

  lemma BrokenOffArrives(id: Uuid, bucket: string, key: string)
    ensures var ops := BrokenOffRun(id, bucket, key);
            && IsRun(EMPTY, ops)
            && var s := After(EMPTY, ops);
               && s.jobs.Keys == {id} && s.attempts == map[] && s.parts == map[] && s.leases == {} && s.clock == 0
               && s.jobs[id].state == Queued && s.jobs[id].nextRetry == 0 && s.jobs[id].operation == None
  {
    var ops := BrokenOffRun(id, bucket, key);
    var s1 := Apply(EMPTY, ops[0]);
    var s2 := Apply(s1, ops[1]);
    var s3 := Apply(s2, ops[2]);
    PrependRun(s2, ops[2], []);
    PrependRun(s1, ops[1], [ops[2]]);
    PrependRun(EMPTY, ops[0], [ops[1], ops[2]]);
    assert [ops[2]] + [] == [ops[2]] && [ops[1]] + [ops[2]] == [ops[1], ops[2]];
    assert [ops[0]] + [ops[1], ops[2]] == ops;
  }

  /** Called for any other job, `queue_after_reconciliation` lets a half-received upload be granted. */
  lemma UnplannedCouldBeGranted(id: Uuid, bucket: string, key: string, lease: Uuid)
    ensures var ops := BrokenOffRun(id, bucket, key);
            && IsRun(EMPTY, ops)
            && var s := After(EMPTY, ops);
               && Enabled(s, OpClaim(ClaimTimes(0, 0, 0, 0, 0), Some(id), lease))
               && id in s.jobs && s.jobs[id].operation == None
  {
    BrokenOffArrives(id, bucket, key);
    LoneJobIsPicked(After(EMPTY, BrokenOffRun(id, bucket, key)), ClaimTimes(0, 0, 0, 0, 0), id);
  }
}
