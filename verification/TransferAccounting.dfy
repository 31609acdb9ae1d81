/** Staged bytes never exceed the budget, and checkpoint counts and locations are exact. */
module TransferAccounting {
  import opened Basics
  import opened TransferModel
  import opened TransferRuns
  import opened TransferSafety
  import opened TransferSteps
  import opened TransferInvariant

  // ---- the staging budget --------------------------------------------------

  lemma {:induction false} StagedBytesWithout(jobs: map<Uuid, Job>, id: Uuid)
    requires id in jobs
    ensures StagedBytes(jobs) == Weight(jobs[id]) + StagedBytes(jobs - {id})
    decreases |jobs|
  {
    var o := SomeJob(jobs);
    if o != id {
      StagedBytesWithout(jobs - {o}, id);
      StagedBytesWithout(jobs - {id}, o);
      assert jobs - {o} - {id} == jobs - {id} - {o};
    }
  }

  lemma {:induction false} StagedBytesMonotone(jobs: map<Uuid, Job>, jobs': map<Uuid, Job>)
    requires forall id :: id in jobs' ==> Weight(jobs'[id]) <= if id in jobs then Weight(jobs[id]) else 0
    ensures StagedBytes(jobs') <= StagedBytes(jobs)
    decreases |jobs'|
  {
    if |jobs'| != 0 {
      var id := SomeJob(jobs');
      if id in jobs {
        StagedBytesWithout(jobs, id);
        StagedBytesMonotone(jobs - {id}, jobs' - {id});
      } else {
        StagedBytesMonotone(jobs, jobs' - {id});
      }
    }
  }

  lemma StagedBytesUpdate(jobs: map<Uuid, Job>, id: Uuid, j: Job)
    requires id in jobs
    ensures StagedBytes(jobs[id := j]) == StagedBytes(jobs) - Weight(jobs[id]) + Weight(j)
  {
    StagedBytesWithout(jobs, id);
    StagedBytesWithout(jobs[id := j], id);
    assert jobs[id := j] - {id} == jobs - {id};
  }

  lemma ReserveStaysWithinBudget(s: Db, id: Uuid, bytes: nat, budget: nat, now: int)
    requires StagedBytes(s.jobs) <= budget <= U64_MAX
    ensures StagedBytes(ReserveStaging(s, id, bytes, budget, StagedBytes(s.jobs), now).jobs) <= budget
  {
    var used := StagedBytes(s.jobs);
    if CanReserve(s.(clock := now), id, bytes, budget, used) {
      StagedBytesUpdate(s.jobs, id, s.jobs[id].(bytes := s.jobs[id].bytes + bytes, leaseUntil := now + LEASE_SECS));
    }
  }

  ghost predicate BudgetIs(ops: seq<Op>, budget: nat) {
    forall i :: 0 <= i < |ops| && ops[i].OpReserve? ==> ops[i].budget == budget
  }

  lemma {:induction false} RunStaysWithinBudget(s: Db, ops: seq<Op>, budget: nat)
    requires Inv(s) && IsRun(s, ops) && BudgetIs(ops, budget) && StagedBytes(s.jobs) <= budget <= U64_MAX
    ensures StagedBytes(After(s, ops).jobs) <= budget
    decreases |ops|
  {
    if ops != [] {
      var s' := Apply(s, ops[0]);
      ApplyIsStep(s, ops[0]);
      if ops[0].OpReserve? {
        ReserveStaysWithinBudget(s, ops[0].id, ops[0].bytes, budget, ops[0].now);
      } else {
        StagedBytesMonotone(s.jobs, s'.jobs);
      }
      RunStaysWithinBudget(s', ops[1..], budget);
    }
  }

  /** With one fixed budget, the bytes of all jobs not completed or cleaned never exceed it. */
  lemma StagingNeverExceedsBudget(ops: seq<Op>, budget: nat)
    requires IsRun(EMPTY, ops) && BudgetIs(ops, budget) && budget <= U64_MAX
    ensures StagedBytes(After(EMPTY, ops).jobs) <= budget
  {
    RunStaysWithinBudget(EMPTY, ops, budget);
  }

  // ---- checkpoints ---------------------------------------------------------

  predicate Checkpoints(s: Db, k: AttemptKey, c: ChunkKey) {
    k in s.attempts && k.job == c.job && k.order == c.order && s.attempts[k].state == Checkpointed
  }

  /** Counts are exact, and a location is stored for an order exactly when an attempt for it was checkpointed there. */
  ghost predicate Recorded(s: Db) {
    && (forall id :: id in s.jobs ==> s.jobs[id].chunksDone == |ChunkOrders(s.chunks, id)|)
    && (forall c :: c in s.chunks ==> exists k :: Checkpoints(s, k, c) && s.attempts[k].location == Some(s.chunks[c]))
    && (forall k :: k in s.attempts && s.attempts[k].state == Checkpointed ==> ChunkKey(k.job, k.order) in s.chunks)
  }

  lemma NoChunksBeforeJob(s: Db, id: Uuid)
    requires References(s) && id !in s.jobs
    ensures ChunkOrders(s.chunks, id) == {}
  {
  }

  lemma KeptRecordsStay(s: Db, s': Db)
    requires References(s) && Recorded(s) && KeepsRecords(s, s') && AttemptsOnward(s, s')
    requires forall c :: c in s'.chunks ==> c.job in s'.jobs
    ensures Recorded(s')
  {
    forall id | id in s'.jobs
      ensures s'.jobs[id].chunksDone == |ChunkOrders(s'.chunks, id)|
    {
      if id !in s.jobs {
        NoChunksBeforeJob(s, id);
      }
    }
    forall c | c in s'.chunks
      ensures exists k :: Checkpoints(s', k, c) && s'.attempts[k].location == Some(s'.chunks[c])
    {
      var k :| Checkpoints(s, k, c) && s.attempts[k].location == Some(s.chunks[c]);
      assert Checkpoints(s', k, c);
    }
  }

  lemma OtherOrders(chunks: map<ChunkKey, Location>, c: ChunkKey, location: Location, id: Uuid)
    requires id != c.job
    ensures ChunkOrders(chunks[c := location], id) == ChunkOrders(chunks, id)
  {
  }

  /** Checkpointing one attempt keeps the records exact. */
  lemma CheckpointRecords(s: Db, k: AttemptKey, a': Attempt, location: Location, s': Db)
    requires References(s) && Recorded(s) && k in s.attempts && Unsettled(s.attempts[k].state)
    requires a'.state == Checkpointed && a'.location == Some(location)
    requires s'.attempts == s.attempts[k := a'] && s'.chunks == s.chunks[ChunkKey(k.job, k.order) := location]
    requires s'.jobs == s.jobs[k.job := s.jobs[k.job].(chunksDone := |ChunkOrders(s'.chunks, k.job)|)]
    ensures Recorded(s')
  {
    forall id | id in s'.jobs
      ensures s'.jobs[id].chunksDone == |ChunkOrders(s'.chunks, id)|
    {
      if id != k.job {
        OtherOrders(s.chunks, ChunkKey(k.job, k.order), location, id);
      }
    }
    forall c | c in s'.chunks
      ensures exists k' :: Checkpoints(s', k', c) && s'.attempts[k'].location == Some(s'.chunks[c])
    {
      if c == ChunkKey(k.job, k.order) {
        assert Checkpoints(s', k, c);
      } else {
        var k' :| Checkpoints(s, k', c) && s.attempts[k'].location == Some(s.chunks[c]);
        assert Checkpoints(s', k', c);
      }
    }
  }

  lemma FinishSendRecords(s: Db, k: AttemptKey, lease: Uuid, location: Location, now: int)
    requires References(s) && Recorded(s)
    ensures Recorded(FinishSend(s, k, lease, location, now))
  {
    var s' := FinishSend(s, k, lease, location, now);
    if CanFinishSend(s, k, lease, now) {
      CheckpointRecords(s, k, s'.attempts[k], location, s');
    } else {
      SameRecords(s, s');
    }
  }

  lemma SameRecords(s: Db, s': Db)
    requires Recorded(s) && s'.jobs == s.jobs && s'.attempts == s.attempts && s'.chunks == s.chunks
    ensures Recorded(s')
  {
  }

  /** Finding nothing remotely leaves the records as they were. */
  lemma AbsentRecords(s: Db, k: AttemptKey, a': Attempt, s': Db)
    requires References(s) && Recorded(s) && k in s.attempts && s.attempts[k].state == Unknown && a'.state == Retryable
    requires s'.attempts == s.attempts[k := a'] && s'.chunks == s.chunks
    requires s'.jobs == s.jobs[k.job := s.jobs[k.job].(chunksDone := |ChunkOrders(s.chunks, k.job)|)]
    ensures Recorded(s')
  {
    assert s.jobs[k.job] == s'.jobs[k.job];
    assert s'.jobs == s.jobs;
    forall c | c in s'.chunks
      ensures exists k' :: Checkpoints(s', k', c) && s'.attempts[k'].location == Some(s'.chunks[c])
    {
      var k' :| Checkpoints(s, k', c) && s.attempts[k'].location == Some(s.chunks[c]);
      assert Checkpoints(s', k', c);
    }
  }

  lemma ResolveRecords(s: Db, k: AttemptKey, found: Option<Location>, mentionsFlood: bool, now: int)
    requires References(s) && Recorded(s)
    ensures Recorded(ResolveSend(s, k, found, mentionsFlood, now))
  {
    var s' := ResolveSend(s, k, found, mentionsFlood, now);
    if !CanResolve(s, k) {
      SameRecords(s, s');
    } else if found.Some? {
      CheckpointRecords(s, k, s'.attempts[k], found.value, s');
    } else {
      AbsentRecords(s, k, s'.attempts[k], s');
    }
  }

  lemma PurgeRecords(s: Db, connection: Uuid)
    requires References(s) && Recorded(s)
    ensures Recorded(PurgeConnection(s, connection))
  {
    var s' := PurgeConnection(s, connection);
    forall id | id in s'.jobs
      ensures s'.jobs[id].chunksDone == |ChunkOrders(s'.chunks, id)|
    {
      assert ChunkOrders(s'.chunks, id) == ChunkOrders(s.chunks, id);
    }
    forall c | c in s'.chunks
      ensures exists k :: Checkpoints(s', k, c) && s'.attempts[k].location == Some(s'.chunks[c])
    {
      var k :| Checkpoints(s, k, c) && s.attempts[k].location == Some(s.chunks[c]);
      assert Checkpoints(s', k, c);
    }
  }

  lemma CallKeepsRecords(s: Db, op: Op)
    requires Inv(s) && Recorded(s) && Enabled(s, op)
    ensures Recorded(Apply(s, op))
  {
    if op.OpFinishSend? {
      FinishSendRecords(s, op.k, op.lease, op.location, op.now);
    } else if op.OpResolve? {
      ResolveRecords(s, op.k, op.found, op.mentionsFlood, op.now);
    } else if op.OpPurgeConnection? {
      PurgeRecords(s, op.connection);
    } else {
      ApplyIsStep(s, op);
      KeptRecordsStay(s, Apply(s, op));
    }
  }

  lemma {:induction false} RunKeepsRecords(s: Db, ops: seq<Op>)
    requires Inv(s) && Recorded(s) && IsRun(s, ops)
    ensures Recorded(After(s, ops))
    decreases |ops|
  {
    if ops != [] {
      ApplyIsStep(s, ops[0]);
      CallKeepsRecords(s, ops[0]);
      RunKeepsRecords(Apply(s, ops[0]), ops[1..]);
    }
  }

  /**
   In every reachable state `chunks_done` counts the checkpointed orders below the manifest's
   own, and each stored location is that of a checkpointed attempt of the same job and order.
   */
  lemma CheckpointsAreExact(s: Db)
    requires Reachable(s)
    ensures Recorded(s)
  {
    var ops :| IsRun(EMPTY, ops) && After(EMPTY, ops) == s;
    RunKeepsRecords(EMPTY, ops);
  }
}
