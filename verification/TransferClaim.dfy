/**
 What one claim does to every row, as a single decision.

 `claim_transfer` makes five updates in sequence, each reading what the one before it wrote,
 and then grants a lease.  `DecidedRow` and `DecidedAttempt` say what becomes of a row in one
 look at the state before the call; the two readings are proved equal.
 */
module TransferClaim {
  import opened Basics
  import opened TransferModel
  import opened TransferRuns
  import opened TransferSafety
  import opened TransferInvariant
  import opened TransferSupersede

  // ---- the decision --------------------------------------------------------

  /** The job's session exists and no longer takes parts or, for part 0, a completion. */
  predicate SessionRefuses(s: Db, id: Uuid) {
    id in s.parts && s.parts[id].upload in s.uploads
    && match s.uploads[s.parts[id].upload].state
       case Initiated => false
       case SessionUploading => false
       case Completing => s.parts[id].number != 0
       case _ => true
  }

  /** A newer job of the object is completed or cleaned. */
  predicate NewerIsDone(s: Db, j: Job) {
    exists n :: n in s.jobs && s.jobs[n].bucket == j.bucket && s.jobs[n].key == j.key && s.jobs[n].sequence > j.sequence
      && s.jobs[n].state in {Completed, Cleaned}
  }

  /** Some send of the job has no recorded outcome. */
  predicate SendIsOpen(s: Db, id: Uuid) {
    exists k :: k in s.attempts && k.job == id && s.attempts[k].state in {Sending, Unknown}
  }

  /** The reception broke off: nobody renewed it in time. */
  predicate ReceptionExpired(j: Job, t: ClaimTimes) {
    j.state == Receiving && j.leaseUntil < t.t1
  }

  /** The worker is gone and left a send without an outcome. */
  predicate WorkerLost(j: Job, open: bool, t: ClaimTimes) {
    j.state in {Uploading, Committing} && j.leaseUntil < t.t2 && open
  }

  /** The row of a job the claim does not pick. */
  function DecidedRow(j: Job, t: ClaimTimes, open: bool, refused: bool, done: bool): Job {
    var held := j.state in {Uploading, Committing} && !WorkerLost(j, open, t);
    var waits := j.state in {Queued, RetryWait, RecoveryRequired} || ReceptionExpired(j, t) || WorkerLost(j, open, t);
    if waits && refused then j.(state := Cancelled, lease := None, leaseUntil := 0)
    else if (waits || held) && done then j.(state := Superseded, lease := None, leaseUntil := 0)
    else if ReceptionExpired(j, t) then j.(state := RecoveryRequired)
    else if WorkerLost(j, open, t) then j.(state := RecoveryRequired, lease := None, leaseUntil := 0)
    else j
  }

  /** A running send whose worker is gone becomes unknown. */
  function DecidedAttempt(a: Attempt, j: Job, t: ClaimTimes): Attempt {
    if a.state == Sending
       && (j.state == RecoveryRequired || (j.state in {Uploading, Committing} && j.leaseUntil < t.t3))
    then a.(state := Unknown, kind := LeaseExpired, mentionsFlood := false)
    else a
  }

  ghost function Decision(s: Db, t: ClaimTimes, id: Uuid): Job
    requires id in s.jobs
  {
    DecidedRow(s.jobs[id], t, SendIsOpen(s, id), SessionRefuses(s, id), NewerIsDone(s, s.jobs[id]))
  }

  /** An earlier job of the same object. */
  predicate IsOlder(s: Db, o: Uuid, j: Job) {
    o in s.jobs && s.jobs[o].bucket == j.bucket && s.jobs[o].key == j.key && s.jobs[o].sequence < j.sequence
  }

  /** With the rows as decided, the job may be granted: it is due, settled, and the first of its object. */
  ghost predicate Runnable(s: Db, t: ClaimTimes, id: Uuid) {
    && id in s.jobs
    && var j := Decision(s, t, id);
       && (match j.state
           case Queued => j.nextRetry <= t.t4
           case RetryWait => j.nextRetry <= t.t4
           case Uploading => j.leaseUntil < t.t4
           case Committing => j.leaseUntil < t.t4
           case _ => false)
       && !SendIsOpen(s, id)
       && forall o :: IsOlder(s, o, j) ==>
            Decision(s, t, o).state in {Completed, Cleaned, Cancelled, ReceptionFailed, Superseded}
  }

  /** The oldest runnable job, or none exactly when there is none. */
  ghost predicate PickIsFirst(s: Db, t: ClaimTimes, pick: Option<Uuid>) {
    match pick
    case None => forall id :: !Runnable(s, t, id)
    case Some(id) => Runnable(s, t, id) && forall o :: Runnable(s, t, o) ==> s.jobs[id].sequence <= s.jobs[o].sequence
  }

  /** Every row after the claim. */
  ghost predicate ClaimDecides(s: Db, s': Db, t: ClaimTimes, pick: Option<Uuid>, lease: Uuid) {
    && s'.chunks == s.chunks && s'.parts == s.parts && s'.uploads == s.uploads && s'.nextSequence == s.nextSequence
    && s'.jobs.Keys == s.jobs.Keys && s'.attempts.Keys == s.attempts.Keys
    && (forall k :: k in s.attempts ==>
          s'.attempts[k] == if k.job in s.jobs then DecidedAttempt(s.attempts[k], s.jobs[k.job], t) else s.attempts[k])
    && (forall id :: id in s.jobs && pick != Some(id) ==> s'.jobs[id] == Decision(s, t, id))
    && (forall id :: id in s.jobs && pick == Some(id) ==>
          s'.jobs[id] == Decision(s, t, id).(state := Uploading, lease := Some(lease), leaseUntil := t.t5 + 120,
                                             attempts := s.jobs[id].attempts + 1))
  }

  // ---- the five updates make it --------------------------------------------

  lemma SameQueries(s: Db, id: Uuid)
    ensures SendIsOpen(s, id) <==> HasUnsettled(s.attempts, id)
    ensures SessionRefuses(s, id) <==> SessionClosedFor(s, id)
  {
    if SendIsOpen(s, id) {
      var k :| k in s.attempts && k.job == id && s.attempts[k].state in {Sending, Unknown};
      assert Unsettled(s.attempts[k].state);
    }
    if HasUnsettled(s.attempts, id) {
      var k :| k in s.attempts && k.job == id && Unsettled(s.attempts[k].state);
      assert s.attempts[k].state in {Sending, Unknown};
    }
  }

  lemma BeforeKeepsDone(s: Db, t: ClaimTimes, o: Uuid)
    requires o in s.jobs
    ensures var m := BeforeSupersede(s, t);
            && m.jobs.Keys == s.jobs.Keys
            && SameKey(m.jobs[o], s.jobs[o]) && m.jobs[o].sequence == s.jobs[o].sequence
            && (m.jobs[o].state in {Completed, Cleaned} <==> s.jobs[o].state in {Completed, Cleaned})
  {
    BeforeIsRowByRow(s, t, o);
  }

  lemma DoneIsKept(s: Db, m: Db, id: Uuid)
    requires id in s.jobs && m.jobs.Keys == s.jobs.Keys
    requires forall o :: o in s.jobs ==> SameKey(m.jobs[o], s.jobs[o]) && m.jobs[o].sequence == s.jobs[o].sequence
    requires forall o :: o in s.jobs ==>
      (m.jobs[o].state in {Completed, Cleaned} <==> s.jobs[o].state in {Completed, Cleaned})
    ensures LooksNewerCommitted(m.jobs, id) <==> NewerIsDone(s, s.jobs[id])
  {
    if NewerIsDone(s, s.jobs[id]) {
      var n :| n in s.jobs && s.jobs[n].bucket == s.jobs[id].bucket && s.jobs[n].key == s.jobs[id].key
        && s.jobs[n].sequence > s.jobs[id].sequence && s.jobs[n].state in {Completed, Cleaned};
      assert SameKey(m.jobs[n], m.jobs[id]);
    }
  }

  lemma SameDone(s: Db, t: ClaimTimes, id: Uuid)
    requires id in s.jobs
    ensures id in BeforeSupersede(s, t).jobs
    ensures LooksNewerCommitted(BeforeSupersede(s, t).jobs, id) <==> NewerIsDone(s, s.jobs[id])
  {
    var m := BeforeSupersede(s, t);
    BeforeKeepsDone(s, t, id);
    forall o | o in s.jobs
      ensures SameKey(m.jobs[o], s.jobs[o]) && m.jobs[o].sequence == s.jobs[o].sequence
      ensures m.jobs[o].state in {Completed, Cleaned} <==> s.jobs[o].state in {Completed, Cleaned}
    {
      BeforeKeepsDone(s, t, o);
    }
    DoneIsKept(s, m, id);
  }

  lemma RowIsDecided(j: Job, t: ClaimTimes, open: bool, refused: bool, done: bool)
    ensures var m := RowBefore(j, t, open, refused);
            SupersedeRow(m, m.state in {Queued, RetryWait, Uploading, Committing, RecoveryRequired} && done)
            == DecidedRow(j, t, open, refused, done)
  {
  }

  /** The five updates make exactly the decision of every row. */
  lemma PreparedIsDecided(s: Db, t: ClaimTimes, id: Uuid)
    requires id in s.jobs
    ensures id in Prepared(s, t).jobs && Prepared(s, t).jobs[id] == Decision(s, t, id)
  {
    SameQueries(s, id);
    SameDone(s, t, id);
    BeforeIsRowByRow(s, t, id);
    SupersededRow(BeforeSupersede(s, t), id);
    RowIsDecided(s.jobs[id], t, SendIsOpen(s, id), SessionRefuses(s, id), NewerIsDone(s, s.jobs[id]));
  }

  lemma AttemptIsDecided(a: Attempt, j: Job, t: ClaimTimes, open: bool)
    requires RowOk(j) && t.t2 <= t.t3 && (a.state == Sending ==> open && j.state != Receiving)
    ensures var m := FenceRow(ExpireRow(j, t.t1), t.t2, open);
            a.state == Sending ==>
              ((m.state == RecoveryRequired && m.lease == None) || (Active(m.state) && m.leaseUntil < t.t3)
               <==> DecidedAttempt(a, j, t) == a.(state := Unknown, kind := LeaseExpired, mentionsFlood := false))
  {
  }

  /** And exactly the decision of every attempt. */
  lemma PreparedAttemptIsDecided(s: Db, t: ClaimTimes, k: AttemptKey)
    requires Inv(s) && t.t2 <= t.t3 && k in s.attempts
    ensures k.job in s.jobs
    ensures k in Prepared(s, t).attempts
    ensures Prepared(s, t).attempts[k] == DecidedAttempt(s.attempts[k], s.jobs[k.job], t)
  {
    var j := s.jobs[k.job];
    var s1 := ExpireReceptions(s, t.t1);
    var s2 := FenceLostSends(s1, t.t2);
    assert RowOk(j);
    assert s1.jobs[k.job] == ExpireRow(j, t.t1);
    assert s2.jobs[k.job] == FenceRow(s1.jobs[k.job], t.t2, HasUnsettled(s.attempts, k.job));
    assert j.state == Receiving ==> AllSettled(s, k.job);
    AttemptIsDecided(s.attempts[k], j, t, HasUnsettled(s.attempts, k.job));
  }

  lemma OpenIsKept(s: Db, p: Db, t: ClaimTimes, id: Uuid)
    requires p.attempts.Keys == s.attempts.Keys
    requires forall k :: k in s.attempts ==>
      k.job in s.jobs && p.attempts[k] == DecidedAttempt(s.attempts[k], s.jobs[k.job], t)
    ensures HasUnsettled(p.attempts, id) <==> SendIsOpen(s, id)
  {
    forall k | k in s.attempts
      ensures Unsettled(p.attempts[k].state) <==> s.attempts[k].state in {Sending, Unknown}
    {
    }
  }

  lemma DecisionKeepsIdentity(s: Db, t: ClaimTimes, id: Uuid)
    requires id in s.jobs
    ensures var j := Decision(s, t, id);
            j.bucket == s.jobs[id].bucket && j.key == s.jobs[id].key && j.sequence == s.jobs[id].sequence
  {
  }

  lemma OlderIsDecided(s: Db, t: ClaimTimes, p: Db, id: Uuid)
    requires id in s.jobs && p.jobs.Keys == s.jobs.Keys
    requires forall o :: o in s.jobs ==> p.jobs[o] == Decision(s, t, o)
    ensures HasOlderPending(p.jobs, id) <==>
      !forall o :: IsOlder(s, o, p.jobs[id]) ==>
         Decision(s, t, o).state in {Completed, Cleaned, Cancelled, ReceptionFailed, Superseded}
  {
    forall o | o in s.jobs
      ensures p.jobs[o].bucket == s.jobs[o].bucket && p.jobs[o].key == s.jobs[o].key
      ensures p.jobs[o].sequence == s.jobs[o].sequence
    {
      DecisionKeepsIdentity(s, t, o);
    }
  }

  lemma CandidateIsRunnable(s: Db, p: Db, t: ClaimTimes, id: Uuid)
    requires p.jobs.Keys == s.jobs.Keys && p.attempts.Keys == s.attempts.Keys
    requires forall o :: o in s.jobs ==> p.jobs[o] == Decision(s, t, o)
    requires forall k :: k in s.attempts ==>
      k.job in s.jobs && p.attempts[k] == DecidedAttempt(s.attempts[k], s.jobs[k.job], t)
    ensures IsCandidate(p, id, t.t4) <==> Runnable(s, t, id)
  {
    if id in s.jobs {
      OpenIsKept(s, p, t, id);
      OlderIsDecided(s, t, p, id);
    }
  }

  /** The job the SQL orders first among the candidates is the oldest runnable one. */
  lemma PickIsDecided(s: Db, p: Db, t: ClaimTimes, pick: Option<Uuid>)
    requires p.jobs.Keys == s.jobs.Keys && p.attempts.Keys == s.attempts.Keys
    requires forall o :: o in s.jobs ==> p.jobs[o] == Decision(s, t, o)
    requires forall k :: k in s.attempts ==>
      k.job in s.jobs && p.attempts[k] == DecidedAttempt(s.attempts[k], s.jobs[k.job], t)
    requires IsPick(p, pick, t.t4)
    ensures PickIsFirst(s, t, pick)
  {
    forall id
      ensures IsCandidate(p, id, t.t4) <==> Runnable(s, t, id)
    {
      CandidateIsRunnable(s, p, t, id);
    }
    forall id | id in s.jobs
      ensures p.jobs[id].sequence == s.jobs[id].sequence
    {
      DecisionKeepsIdentity(s, t, id);
    }
  }

  lemma PreparedKeepsTheRest(s: Db, t: ClaimTimes)
    ensures var p := Prepared(s, t);
            && p.chunks == s.chunks && p.parts == s.parts && p.uploads == s.uploads && p.nextSequence == s.nextSequence
            && p.jobs.Keys == s.jobs.Keys && p.attempts.Keys == s.attempts.Keys
  {
  }

  /** A whole claim, row by row, from the state before it. */
  lemma ClaimIsDecided(s: Db, t: ClaimTimes, pick: Option<Uuid>, lease: Uuid)
    requires Inv(s) && Enabled(s, OpClaim(t, pick, lease))
    ensures PickIsFirst(s, t, pick)
    ensures ClaimDecides(s, Apply(s, OpClaim(t, pick, lease)), t, pick, lease)
  {
    PreparedKeepsTheRest(s, t);
    forall id | id in s.jobs
      ensures Prepared(s, t).jobs[id] == Decision(s, t, id)
    {
      PreparedIsDecided(s, t, id);
    }
    forall k | k in s.attempts
      ensures k.job in s.jobs && Prepared(s, t).attempts[k] == DecidedAttempt(s.attempts[k], s.jobs[k.job], t)
    {
      PreparedAttemptIsDecided(s, t, k);
    }
    PickIsDecided(s, Prepared(s, t), t, pick);
    GrantIsDecided(s, Prepared(s, t), t, pick, lease);
  }

  lemma GrantIsDecided(s: Db, p: Db, t: ClaimTimes, pick: Option<Uuid>, lease: Uuid)
    requires p.chunks == s.chunks && p.parts == s.parts && p.uploads == s.uploads && p.nextSequence == s.nextSequence
    requires p.jobs.Keys == s.jobs.Keys && p.attempts.Keys == s.attempts.Keys
    requires forall id :: id in s.jobs ==> p.jobs[id] == Decision(s, t, id)
    requires forall k :: k in s.attempts ==>
      k.job in s.jobs && p.attempts[k] == DecidedAttempt(s.attempts[k], s.jobs[k.job], t)
    requires pick.Some? ==> pick.value in p.jobs
    ensures var s' := (if pick.None? then p else Grant(p, pick.value, lease, t.t5)).(clock := t.t5);
            ClaimDecides(s, s', t, pick, lease)
  {
  }

  lemma ReceptionIsDecided(s: Db, t: ClaimTimes, id: Uuid)
    requires InState(s, id, Receiving)
    ensures !Runnable(s, t, id)
    ensures t.t1 <= s.jobs[id].leaseUntil ==> Decision(s, t, id) == s.jobs[id]
    ensures s.jobs[id].leaseUntil < t.t1 ==>
      Decision(s, t, id).state ==
        if SessionRefuses(s, id) then Cancelled
        else if NewerIsDone(s, s.jobs[id]) then Superseded
        else RecoveryRequired
  {
  }

  /**
   A claim never takes up an upload that is still being received.  A reception that is renewed in
   time keeps its row.  One that broke off goes to recovery, unless its session refuses it or a
   newer write of the object is done.
   */
  lemma ReceptionsAreNotClaimed(s: Db, t: ClaimTimes, pick: Option<Uuid>, lease: Uuid, id: Uuid)
    requires Reachable(s) && Enabled(s, OpClaim(t, pick, lease)) && InState(s, id, Receiving)
    ensures pick != Some(id)
    ensures var s' := Apply(s, OpClaim(t, pick, lease));
            && id in s'.jobs
            && (t.t1 <= s.jobs[id].leaseUntil ==> s'.jobs[id] == s.jobs[id])
            && (s.jobs[id].leaseUntil < t.t1 ==>
                  s'.jobs[id].state ==
                    if SessionRefuses(s, id) then Cancelled
                    else if NewerIsDone(s, s.jobs[id]) then Superseded
                    else RecoveryRequired)
  {
    ReachableIsSafe(s);
    ClaimIsDecided(s, t, pick, lease);
    ReceptionIsDecided(s, t, id);
  }
}
