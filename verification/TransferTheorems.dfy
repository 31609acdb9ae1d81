/** What the transfer queue promises over whole runs: fencing, key order and part publication. */
module TransferTheorems {
  import opened Basics
  import opened TransferModel
  import opened TransferRuns
  import opened TransferSafety
  import opened TransferSteps
  import opened TransferInvariant

  // ---- no resend before reconciliation -------------------------------------

  /**
   In every reachable state a job that waits for a worker has no unsettled send, and every
   unsettled send of a job a worker holds began under the lease the job carries now.
   */
  lemma NoResendBeforeReconciliation(s: Db, k: AttemptKey)
    requires Reachable(s) && k in s.attempts && Unsettled(s.attempts[k].state)
    ensures k.job in s.jobs
    ensures !Idle(s.jobs[k.job].state)
    ensures Active(s.jobs[k.job].state) ==> s.jobs[k.job].lease == Some(s.attempts[k].beganUnder)
  {
    ReachableIsSafe(s);
    assert Idle(s.jobs[k.job].state) ==> AllSettled(s, k.job);
  }

  /** A claim hands out a lease no send ever ran under, to a job whose sends are all settled. */
  lemma FreshLeaseMeansSettledSends(s: Db, t: ClaimTimes, id: Uuid, lease: Uuid, k: AttemptKey)
    requires Reachable(s) && Enabled(s, OpClaim(t, Some(id), lease))
    ensures var s' := Apply(s, OpClaim(t, Some(id), lease));
            && id in s'.jobs && s'.jobs[id].state == Uploading && s'.jobs[id].lease == Some(lease)
            && (k in s'.attempts && k.job == id ==>
                !Unsettled(s'.attempts[k].state) && s'.attempts[k].beganUnder != lease)
  {
    ReachableIsSafe(s);
    var p := Prepared(s, t);
    PrepareIsStep(s, t.t1, t.t2, t.t3);
    PreparedKeepsRows(s, t);
    assert p.leases == s.leases;
  }

  /** Claims do grant: an upload that was received and queued is the next claim's pick. */
  lemma QueuedUploadIsGranted(id: Uuid, connection: Uuid, bucket: string, key: string, operation: Uuid, lease: Uuid,
                              now: int)
    requires 0 <= now
    ensures var ops := [OpBegin(id, connection, bucket, key, true, now), OpQueue(id, operation, 1, now)];
            && IsRun(EMPTY, ops)
            && Enabled(After(EMPTY, ops), OpClaim(ClaimTimes(now, now, now, now, now), Some(id), lease))
  {
    var ops := [OpBegin(id, connection, bucket, key, true, now), OpQueue(id, operation, 1, now)];
    var s1 := BeginTransfer(EMPTY, id, connection, bucket, key, true, now);
    var s2 := QueueTransfer(s1, id, operation, 1, now);
    assert ops[1..] == [OpQueue(id, operation, 1, now)] && ops[1..][1..] == [];
    assert IsRun(s2, []) && After(s2, []) == s2;
    assert IsRun(s1, ops[1..]) && After(s1, ops[1..]) == s2;
    assert IsRun(EMPTY, ops) && After(EMPTY, ops) == s2;
    LoneJobIsPicked(s2, ClaimTimes(now, now, now, now, now), id);
  }

  lemma LoneJobIsPicked(s: Db, t: ClaimTimes, id: Uuid)
    requires s.jobs.Keys == {id} && s.attempts == map[] && s.parts == map[]
    requires s.jobs[id].state == Queued && s.jobs[id].nextRetry <= t.t4
    ensures IsPick(Prepared(s, t), Some(id), t.t4)
  {
    assert ExpireReceptions(s, t.t1).jobs == s.jobs;
    assert FenceLostSends(s, t.t2).jobs == s.jobs;
    assert MarkLostSendsUnknown(s, t.t3).attempts == s.attempts;
    assert CancelClosedSessions(s).jobs == s.jobs;
    assert SupersedeOlder(s).jobs == s.jobs;
    assert Prepared(s, t) == s;
  }

  /** When a send begins, every other send of that job still open runs under the same lease. */
  lemma OverlappingSendsShareTheLease(s: Db, k: AttemptKey, lease: Uuid, now: int, other: AttemptKey)
    requires Reachable(s) && s.clock <= now && BeginSend(s, k, lease, now).attempts != s.attempts
    requires other in s.attempts && other.job == k.job && Unsettled(s.attempts[other].state)
    ensures s.attempts[other].beganUnder == lease
  {
    ReachableIsSafe(s);
  }

  /** The call is fenced by the lease of the job. */
  predicate FencedBy(op: Op, id: Uuid, lease: Uuid) {
    || (op.OpRenewTransfer? && op.id == id && op.lease == lease)
    || (op.OpStartCommit? && op.id == id && op.lease == lease)
    || (op.OpFailed? && op.id == id && op.lease == lease)
    || (op.OpCommit? && op.id == id && op.lease == lease)
    || (op.OpFinishPart? && op.id == id && op.lease == lease)
    || (op.OpBeginSend? && op.k.job == id && op.lease == lease)
    || (op.OpFinishSend? && op.k.job == id && op.lease == lease)
    || (op.OpMarkUnknown? && op.k.job == id && op.lease == lease)
    || (op.OpMarkRetryable? && op.k.job == id && op.lease == lease)
  }

  lemma StaleLeaseChangesNothing(s: Db, op: Op, id: Uuid, lease: Uuid)
    requires Enabled(s, op) && FencedBy(op, id, lease) && (id in s.jobs ==> s.jobs[id].lease != Some(lease))
    ensures Apply(s, op) == s.(clock := op.now)
  {
  }

  lemma LostLeaseStaysLost(s: Db, ops: seq<Op>, id: Uuid, lease: Uuid)
    requires Reachable(s) && IsRun(s, ops)
    requires id in s.jobs && lease in s.leases && s.jobs[id].lease != Some(lease)
    ensures var s' := After(s, ops); id in s'.jobs ==> s'.jobs[id].lease != Some(lease)
  {
    ReachableIsSafe(s);
    RunIsStep(s, ops);
    var s' := After(s, ops);
    if id in s'.jobs {
      assert JobOnward(s.jobs[id], s'.jobs[id], s.leases);
    }
  }

  /**
   A worker that has lost its lease is powerless from then on: after any run the lease is still
   not the job's, and no call under it changes a row.
   */
  lemma LostLeaseIsPowerless(s: Db, ops: seq<Op>, id: Uuid, lease: Uuid, op: Op)
    requires Reachable(s) && IsRun(s, ops)
    requires id in s.jobs && lease in s.leases && s.jobs[id].lease != Some(lease)
    requires Enabled(After(s, ops), op) && FencedBy(op, id, lease)
    ensures var s' := After(s, ops);
            && (id in s'.jobs ==> s'.jobs[id].lease != Some(lease))
            && Apply(s', op) == s'.(clock := op.now)
  {
    LostLeaseStaysLost(s, ops, id, lease);
    StaleLeaseChangesNothing(After(s, ops), op, id, lease);
  }

  // ---- per-key write order -------------------------------------------------

  /** At most one job per object is uploading or committing. */
  lemma OneActivePerKey(s: Db, a: Uuid, b: Uuid)
    requires Reachable(s) && a in s.jobs && b in s.jobs
    requires Active(s.jobs[a].state) && Active(s.jobs[b].state) && SameKey(s.jobs[a], s.jobs[b])
    ensures a == b
  {
    ReachableIsSafe(s);
    assert OlderSettled(s, a) && OlderSettled(s, b);
    assert s.jobs[a].sequence == s.jobs[b].sequence;
  }

  lemma GrantedMeansOlderSettled(s: Db, t: ClaimTimes, id: Uuid, lease: Uuid)
    requires Inv(s) && Enabled(s, OpClaim(t, Some(id), lease))
    ensures var s' := Apply(s, OpClaim(t, Some(id), lease)); id in s'.jobs && OlderSettled(s', id) && Inv(s')
  {
    PreparedKeepsRows(s, t);
    ApplyIsStep(s, OpClaim(t, Some(id), lease));
    assert Apply(s, OpClaim(t, Some(id), lease)).jobs[id].attempts > 0;
  }

  /** Once an object's older jobs are settled, none of them is ever a candidate again. */
  lemma SettledIsNeverCandidate(s: Db, id: Uuid, p: Db, later: Uuid, now: int)
    requires id in s.jobs && OlderSettled(s, id) && JobsOnward(s, p) && Sequenced(s)
    requires later in p.jobs && SameKey(s.jobs[id], p.jobs[later]) && IsCandidate(p, later, now)
    ensures s.jobs[id].sequence <= p.jobs[later].sequence
  {
  }

  lemma LaterCandidate(s1: Db, s2: Db, t: ClaimTimes, first: Uuid, later: Uuid)
    requires Inv(s1) && Step(s1, s2)
    requires first in s1.jobs && OlderSettled(s1, first) && IsCandidate(Prepared(s2, t), later, t.t4)
    ensures later in s2.jobs
    ensures SameKey(s1.jobs[first], s2.jobs[later]) ==> s1.jobs[first].sequence <= s2.jobs[later].sequence
  {
    var p := Prepared(s2, t);
    PreparedKeepsRows(s2, t);
    PrepareIsStep(s2, t.t1, t.t2, t.t3);
    OnwardIsTransitive(s1, s2, p);
    assert JobOnward(s2.jobs[later], p.jobs[later], s2.leases);
    if SameKey(s1.jobs[first], s2.jobs[later]) {
      SettledIsNeverCandidate(s1, first, p, later, t.t4);
    }
  }

  /** Leases for one object are granted in the order its jobs were created. */
  lemma GrantsFollowKeyOrder(s: Db, t: ClaimTimes, first: Uuid, lease: Uuid, ops: seq<Op>, t': ClaimTimes, later: Uuid,
                             lease': Uuid)
    requires Reachable(s) && Enabled(s, OpClaim(t, Some(first), lease))
    requires IsRun(Apply(s, OpClaim(t, Some(first), lease)), ops)
    requires Enabled(After(Apply(s, OpClaim(t, Some(first), lease)), ops), OpClaim(t', Some(later), lease'))
    ensures var s1 := Apply(s, OpClaim(t, Some(first), lease));
            var s2 := After(s1, ops);
            && first in s1.jobs && later in s2.jobs
            && (SameKey(s1.jobs[first], s2.jobs[later]) ==> s1.jobs[first].sequence <= s2.jobs[later].sequence)
  {
    ReachableIsSafe(s);
    var s1 := Apply(s, OpClaim(t, Some(first), lease));
    GrantedMeansOlderSettled(s, t, first, lease);
    RunIsStep(s1, ops);
    LaterCandidate(s1, After(s1, ops), t', first, later);
  }

  // ---- part publication ----------------------------------------------------

  /** A duplicate created after the publishing job never had a send, so the publication ends it. */
  lemma DuplicateIsSafe(s: Db, id: Uuid, upload: Uuid, number: nat, o: Uuid)
    requires Inv(s) && OpenForParts(s, upload) && InState(s, id, Committing) && IsPart(s, id, upload, number)
    requires o in s.jobs && o != id && IsPart(s, o, upload, number) && !Terminal(s.jobs[o].state)
    ensures !Active(s.jobs[o].state) && forall k :: k in s.attempts ==> k.job != o
  {
  }

  /** When a part is published, every other job then existing for that part is finished. */
  lemma PublicationEndsDuplicates(s: Db, id: Uuid, lease: Uuid, upload: Uuid, number: nat, staged: bool, now: int,
                                  o: Uuid)
    requires Reachable(s) && s.clock <= now && IsPart(s, id, upload, number)
    requires CanFinishPart(s, id, lease, upload, staged)
    requires o in s.jobs && IsPart(s, o, upload, number)
    ensures var s' := FinishPart(s, id, lease, upload, number, staged, now);
            && id in s'.jobs && s'.jobs[id].state == Completed
            && o in s'.jobs && Terminal(s'.jobs[o].state)
  {
    ReachableIsSafe(s);
    FinishPartRow(s, id, lease, upload, number, staged, now, id);
    FinishPartRow(s, id, lease, upload, number, staged, now, o);
    if o != id && !Terminal(s.jobs[o].state) {
      DuplicateIsSafe(s, id, upload, number, o);
    }
  }
}
