/**
 What every store call may do to a row, and the invariant that follows.

 `Lawful` says, row by row, which changes a transaction may make.  Each call is shown to be
 lawful on its own; the invariant is then proved once, for every lawful change.
 */
module TransferSafety {
  import opened Basics
  import opened TransferModel
  import opened TransferRuns

  // ---- the invariant -------------------------------------------------------

  /** All older jobs for the same object are finished. */
  ghost predicate OlderSettled(s: Db, id: Uuid)
    requires id in s.jobs
  {
    forall o :: o in s.jobs && SameKey(s.jobs[o], s.jobs[id]) && s.jobs[o].sequence < s.jobs[id].sequence ==>
      Terminal(s.jobs[o].state)
  }

  ghost predicate AllSettled(s: Db, id: Uuid) {
    forall k :: k in s.attempts && k.job == id ==> !Unsettled(s.attempts[k].state)
  }

  /** Every row refers to a job, and every identifier was issued. */
  ghost predicate References(s: Db) {
    && (forall k :: k in s.attempts ==> k.job in s.jobs)
    && (forall c :: c in s.chunks ==> c.job in s.jobs)
    && (forall id :: id in s.parts ==> id in s.jobs)
    && s.jobs.Keys <= s.everJobs
    && s.uploads.Keys <= s.everUploads
    && (forall k :: k in s.attempts ==> s.attempts[k].beganUnder in s.leases)
    && (forall id :: id in s.jobs && s.jobs[id].lease.Some? ==> s.jobs[id].lease.value in s.leases)
  }

  /** `sequence` is an autoincrement primary key. */
  ghost predicate Sequenced(s: Db) {
    && (forall id :: id in s.jobs ==> s.jobs[id].sequence < s.nextSequence)
    && (forall a, b :: a in s.jobs && b in s.jobs && s.jobs[a].sequence == s.jobs[b].sequence ==> a == b)
  }

  /** An active job, and no other, carries a lease; only a granted job is ever active or completed. */
  predicate RowOk(j: Job) {
    && (Active(j.state) <==> j.lease.Some?)
    && (Active(j.state) || j.state == Completed ==> j.attempts > 0)
  }

  /** Every row is in order, and only a granted job ever sends. */
  ghost predicate Leased(s: Db) {
    && (forall id :: id in s.jobs ==> RowOk(s.jobs[id]))
    && (forall k :: k in s.attempts && k.job in s.jobs ==> s.jobs[k.job].attempts > 0)
  }

  /** No resend before reconciliation. */
  ghost predicate Fenced(s: Db) {
    && (forall id :: id in s.jobs && Idle(s.jobs[id].state) ==> AllSettled(s, id))
    && (forall k :: k in s.attempts && k.job in s.jobs && Active(s.jobs[k.job].state) && Unsettled(s.attempts[k].state)
          ==> s.jobs[k.job].lease == Some(s.attempts[k].beganUnder))
  }

  /** A job that was ever granted has only finished predecessors for its object. */
  ghost predicate InKeyOrder(s: Db) {
    forall id :: id in s.jobs && s.jobs[id].attempts > 0 ==> OlderSettled(s, id)
  }

  /** Part jobs belong to the object of their session. */
  ghost predicate PartsFit(s: Db) {
    forall id :: id in s.parts ==> PartFitsSession(s, id, s.parts[id].upload)
  }

  ghost predicate Inv(s: Db) {
    References(s) && Sequenced(s) && Leased(s) && Fenced(s) && InKeyOrder(s) && PartsFit(s)
  }

  // ---- legal changes -------------------------------------------------------

  ghost predicate LegalJob(s: Db, s': Db, id: Uuid)
    requires id in s.jobs && id in s'.jobs
  {
    var j, j' := s.jobs[id], s'.jobs[id];
    && j'.sequence == j.sequence && SameKey(j, j')
    && (Terminal(j.state) ==> Terminal(j'.state))
    && j.attempts <= j'.attempts
    && (j.attempts < j'.attempts ==> OlderSettled(s', id))
    && RowOk(j')
    && (j'.lease.Some? ==>
          j'.lease == j.lease || (j'.lease.value !in s.leases && j'.lease.value in s'.leases && AllSettled(s', id)))
    && (Idle(j'.state) ==> Idle(j.state) || AllSettled(s', id))
  }

  ghost predicate LegalNewJob(s: Db, s': Db, id: Uuid)
    requires id in s'.jobs
  {
    var j' := s'.jobs[id];
    && id !in s.everJobs
    && j'.sequence == s.nextSequence < s'.nextSequence
    && j'.state == Receiving && j'.lease == None && j'.attempts == 0
  }

  ghost predicate LegalJobs(s: Db, s': Db) {
    && s.nextSequence <= s'.nextSequence
    && s.everJobs <= s'.everJobs && s.leases <= s'.leases
    && s'.jobs.Keys <= s'.everJobs
    && (forall id :: id in s'.jobs ==> if id in s.jobs then LegalJob(s, s', id) else LegalNewJob(s, s', id))
    && (forall a, b :: a in s'.jobs && b in s'.jobs && a !in s.jobs && b !in s.jobs ==> a == b)
  }

  ghost predicate LegalAttempt(s: Db, s': Db, k: AttemptKey)
    requires k in s'.attempts
  {
    var a' := s'.attempts[k];
    && k.job in s'.jobs
    && (if k in s.attempts
        then
          && a'.beganUnder == s.attempts[k].beganUnder
          && (!Unsettled(s.attempts[k].state) ==> a' == s.attempts[k])
          && (a'.state == Sending ==> s.attempts[k].state == Sending)
        else
          && k.job in s.jobs && s'.jobs[k.job] == s.jobs[k.job]
          && Active(s.jobs[k.job].state) && s.jobs[k.job].lease == Some(a'.beganUnder)
          && a'.state == Sending)
  }

  ghost predicate LegalAttempts(s: Db, s': Db) {
    && (forall k :: k in s'.attempts ==> LegalAttempt(s, s', k))
    && (forall k :: k in s.attempts && k.job in s'.jobs ==> k in s'.attempts)
    && (forall c :: c in s'.chunks ==> c.job in s'.jobs)
  }

  ghost predicate LegalSessions(s: Db, s': Db) {
    && s.everUploads <= s'.everUploads && s'.uploads.Keys <= s'.everUploads
    && (forall u :: u in s'.uploads && u in s.everUploads ==>
          u in s.uploads && s'.uploads[u].bucket == s.uploads[u].bucket && s'.uploads[u].key == s.uploads[u].key)
    && (forall id :: id in s'.parts ==> id in s'.jobs)
    && (forall id :: id in s'.parts ==>
        (id in s.parts && s'.parts[id] == s.parts[id]) || PartFitsSession(s', id, s'.parts[id].upload))
  }

  ghost predicate Lawful(s: Db, s': Db) {
    LegalJobs(s, s') && LegalAttempts(s, s') && LegalSessions(s, s')
  }

  // ---- what most calls leave alone -----------------------------------------

  /** No job becomes `cleaned`. */
  ghost predicate CleansNothing(s: Db, s': Db) {
    forall id :: id in s'.jobs && s'.jobs[id].state == Cleaned ==>
      id in s.jobs && s.jobs[id].state == Cleaned && s.jobs[id].attempts == s'.jobs[id].attempts
  }

  /** A paused job is finished or stays paused, and its retry time does not come forward. */
  predicate PauseKept(j: Job, j': Job) {
    j.state == RecoveryRequired || j.state == RetryWait ==>
      Terminal(j'.state) || ((j'.state == RecoveryRequired || j'.state == RetryWait) && j'.nextRetry >= j.nextRetry)
  }

  ghost predicate KeepsPauses(s: Db, s': Db) {
    forall id :: id in s.jobs && id in s'.jobs ==> PauseKept(s.jobs[id], s'.jobs[id])
  }

  /** No job comes to stage more bytes. */
  ghost predicate StagesNothing(s: Db, s': Db) {
    forall id :: id in s'.jobs ==> Weight(s'.jobs[id]) <= if id in s.jobs then Weight(s.jobs[id]) else 0
  }

  /** No checkpoint is written or lost. */
  ghost predicate KeepsRecords(s: Db, s': Db) {
    && s'.chunks == s.chunks
    && (forall id :: id in s'.jobs ==> s'.jobs[id].chunksDone == if id in s.jobs then s.jobs[id].chunksDone else 0)
    && (forall k :: k in s'.attempts && s'.attempts[k].state == Checkpointed ==>
        k in s.attempts && s'.attempts[k] == s.attempts[k])
  }

  /** A lawful change with none of these effects. */
  ghost predicate Legal(s: Db, s': Db) {
    Lawful(s, s') && CleansNothing(s, s') && KeepsPauses(s, s') && StagesNothing(s, s') && KeepsRecords(s, s')
  }

  /** Only a job that a worker holds gets new attempt rows. */
  ghost predicate SendsAreHeld(s: Db, s': Db) {
    forall k :: k in s'.attempts && k !in s.attempts ==> k.job in s.jobs && Active(s.jobs[k.job].state)
  }

  // ---- lawful changes keep the invariant ------------------------------------

  lemma LawKeepsReferences(s: Db, s': Db)
    requires Inv(s) && Lawful(s, s')
    ensures References(s') && Sequenced(s') && PartsFit(s')
  {
    forall k | k in s'.attempts
      ensures s'.attempts[k].beganUnder in s'.leases
    {
      assert LegalAttempt(s, s', k);
    }
    forall id | id in s'.jobs
      ensures s'.jobs[id].lease.Some? ==> s'.jobs[id].lease.value in s'.leases
      ensures s'.jobs[id].sequence < s'.nextSequence
    {
      assert id in s.jobs ==> LegalJob(s, s', id);
    }
    forall a, b | a in s'.jobs && b in s'.jobs && s'.jobs[a].sequence == s'.jobs[b].sequence
      ensures a == b
    {
      assert a in s.jobs ==> LegalJob(s, s', a);
      assert b in s.jobs ==> LegalJob(s, s', b);
    }
    forall id | id in s'.parts
      ensures PartFitsSession(s', id, s'.parts[id].upload)
    {
      assert id in s.jobs ==> LegalJob(s, s', id);
    }
  }

  lemma LawKeepsLeased(s: Db, s': Db)
    requires Inv(s) && Lawful(s, s')
    ensures Leased(s')
  {
    forall id | id in s'.jobs
      ensures RowOk(s'.jobs[id])
    {
      assert id in s.jobs ==> LegalJob(s, s', id);
    }
    forall k | k in s'.attempts && k.job in s'.jobs
      ensures s'.jobs[k.job].attempts > 0
    {
      assert LegalAttempt(s, s', k);
      assert k.job in s.jobs && LegalJob(s, s', k.job);
    }
  }

  lemma LawKeepsIdleSettled(s: Db, s': Db, id: Uuid, k: AttemptKey)
    requires References(s) && Leased(s) && Fenced(s) && LegalJobs(s, s') && LegalAttempts(s, s')
    requires id in s'.jobs && Idle(s'.jobs[id].state) && k in s'.attempts && k.job == id
    ensures !Unsettled(s'.attempts[k].state)
  {
    assert LegalAttempt(s, s', k);
    if id in s.jobs {
      assert LegalJob(s, s', id);
      if !AllSettled(s', id) {
        assert AllSettled(s, id);
      }
    }
  }

  lemma LawKeepsFenced(s: Db, s': Db)
    requires References(s) && Leased(s) && Fenced(s) && LegalJobs(s, s') && LegalAttempts(s, s')
    ensures Fenced(s')
  {
    forall id, k | id in s'.jobs && Idle(s'.jobs[id].state) && k in s'.attempts && k.job == id
      ensures !Unsettled(s'.attempts[k].state)
    {
      LawKeepsIdleSettled(s, s', id, k);
    }
    forall k | k in s'.attempts && k.job in s'.jobs && Active(s'.jobs[k.job].state) && Unsettled(s'.attempts[k].state)
      ensures s'.jobs[k.job].lease == Some(s'.attempts[k].beganUnder)
    {
      assert LegalAttempt(s, s', k);
      assert k.job in s.jobs && LegalJob(s, s', k.job);
    }
  }

  lemma LawKeepsOrder(s: Db, s': Db)
    requires Inv(s) && Lawful(s, s')
    ensures InKeyOrder(s')
  {
  }

  lemma LawKeepsInv(s: Db, s': Db)
    requires Inv(s) && Lawful(s, s')
    ensures Inv(s')
  {
    LawKeepsReferences(s, s');
    LawKeepsLeased(s, s');
    LawKeepsFenced(s, s');
    LawKeepsOrder(s, s');
  }
}
