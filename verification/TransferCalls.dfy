/**
 What each store call promises the caller who makes it in a state some run has reached.

 `Reached` is the type of such states and `Call` one call in them; the lemmas read the run
 invariants for one call and the job it is about.
 */
module TransferCalls {
  import opened Basics
  import opened TransferModel
  import opened TransferRuns
  import opened TransferSafety
  import opened TransferSteps
  import opened TransferInvariant
  import opened TransferTheorems
  import opened TransferRecovery
  import opened TransferAccounting
  import opened TransferClaim

  // ---- reached states ------------------------------------------------------

  lemma {:induction false} ExtendRun(s: Db, ops: seq<Op>, op: Op)
    requires IsRun(s, ops) && Enabled(After(s, ops), op)
    ensures IsRun(s, ops + [op]) && After(s, ops + [op]) == Apply(After(s, ops), op)
    decreases |ops|
  {
    if ops == [] {
      assert ops + [op] == [op] && [op][1..] == [];
      assert IsRun(Apply(s, op), []) && After(Apply(s, op), []) == Apply(s, op);
    } else {
      ExtendRun(Apply(s, ops[0]), ops[1..], op);
      assert (ops + [op])[0] == ops[0] && (ops + [op])[1..] == ops[1..] + [op];
    }
  }

  /** Holds the empty store and is closed under every call the environment may make. */
  ghost predicate Closed(states: iset<Db>) {
    EMPTY in states && forall s, op :: s in states && Enabled(s, op) ==> Apply(s, op) in states
  }

  /** In every closed set of states, so in the least one. */
  ghost predicate InEveryClosed(s: Db) {
    forall states: iset<Db> :: Closed(states) ==> s in states
  }

  type Reached = s: Db | InEveryClosed(s) ghost witness EMPTY

  ghost function Call(s: Reached, op: Op): (s': Reached)
    requires Enabled(s, op)
    ensures s' == Apply(s, op)
  {
    Apply(s, op)
  }

  lemma RunsAreClosed()
    ensures Closed(iset s | Reachable(s))
  {
    assert IsRun(EMPTY, []) && After(EMPTY, []) == EMPTY;
    forall s, op | Reachable(s) && Enabled(s, op)
      ensures Reachable(Apply(s, op))
    {
      var ops :| IsRun(EMPTY, ops) && After(EMPTY, ops) == s;
      ExtendRun(EMPTY, ops, op);
    }
  }

  lemma {:induction false} RunStaysClosed(states: iset<Db>, s: Db, ops: seq<Op>)
    requires Closed(states) && s in states && IsRun(s, ops)
    ensures After(s, ops) in states
    decreases |ops|
  {
    if ops != [] {
      RunStaysClosed(states, Apply(s, ops[0]), ops[1..]);
    }
  }

  /** The two readings of "some run reaches it" agree. */
  lemma ReachedMeansReachable(s: Db)
    ensures InEveryClosed(s) <==> Reachable(s)
  {
    if InEveryClosed(s) {
      RunsAreClosed();
      assert s in iset s | Reachable(s);
    }
    if Reachable(s) {
      var ops :| IsRun(EMPTY, ops) && After(EMPTY, ops) == s;
      forall states: iset<Db> | Closed(states)
        ensures s in states
      {
        RunStaysClosed(states, EMPTY, ops);
      }
    }
  }

  // ---- what a caller can rely on -------------------------------------------

  /** The sends of the job whose outcome is not known. */
  function OpenSends(s: Db, id: Uuid): set<AttemptKey> {
    set k | k in s.attempts.Keys && k.job == id && Unsettled(s.attempts[k].state)
  }

  predicate IsWorkedOnUnder(j: Job, lease: Uuid) {
    j.lease == Some(lease) && j.state in {Uploading, Committing}
  }

  /** The job is the newest of all, and nothing was ever sent for it. */
  ghost predicate Newest(s: Db, id: Uuid) {
    && id in s.jobs
    && (forall o :: o in s.jobs && o != id ==> s.jobs[o].sequence < s.jobs[id].sequence)
    && (forall k :: k in s.attempts ==> k.job != id)
  }

  /** A claim can pick the job from its retry time on, unless an older job of its object is pending. */
  ghost predicate ClaimableWhenDue(s: Db, id: Uuid) {
    && id in s.jobs && AllSettled(s, id)
    && forall t :: IsCandidate(s, id, t) <==> s.jobs[id].nextRetry <= t && !HasOlderPending(s.jobs, id)
  }

  ghost predicate NeverClaimable(s: Db, id: Uuid) {
    forall t :: !IsCandidate(s, id, t)
  }

  /**
   Up to and including `until` no claim picks the job or takes its lease away; later claims do,
   unless a send is open or an older job of its object is pending.
   */
  ghost predicate HeldUntil(s: Db, id: Uuid, until: int) {
    && id in s.jobs
    && (forall t :: IsCandidate(s, id, t) <==>
          until < t && !HasUnsettled(s.attempts, id) && !HasOlderPending(s.jobs, id))
    && (forall t :: FenceRow(s.jobs[id], t, true) == s.jobs[id] <==> t <= until)
  }

  /** A claim's promise: older jobs of the object are finished, and every send of this one is settled and not ours. */
  ghost predicate CleanStart(s: Db, id: Uuid, lease: Uuid) {
    && id in s.jobs && s.jobs[id].state == Uploading && s.jobs[id].lease == Some(lease) && OlderSettled(s, id)
    && forall k :: k in s.attempts && k.job == id ==>
         !Unsettled(s.attempts[k].state) && s.attempts[k].beganUnder != lease
  }

  /** The pick starts clean and is held, and no job in recovery has a send still marked as running. */
  ghost predicate ClaimPromise(s: Db, t: ClaimTimes, pick: Option<Uuid>, lease: Uuid) {
    && (pick.Some? ==> CleanStart(s, pick.value, lease) && HeldUntil(s, pick.value, t.t5 + 120))
    && (forall id :: InState(s, id, RecoveryRequired) ==> NothingSending(s, id))
  }

  /** Every send of the job without an outcome runs under this lease. */
  ghost predicate SoleSender(s: Db, id: Uuid, lease: Uuid) {
    forall k :: k in s.attempts && k.job == id && Unsettled(s.attempts[k].state) ==> s.attempts[k].beganUnder == lease
  }

  /** Every job of the part is finished. */
  ghost predicate PartIsSettled(s: Db, upload: Uuid, number: nat) {
    forall o :: o in s.jobs && IsPart(s, o, upload, number) ==> Terminal(s.jobs[o].state)
  }

  predicate LooksCommitted(j: Job) {
    j.state == Completed || j.state == Cleaned
  }

  /** Nothing of the object is older and unfinished or newer and done, and a completed session is still open. */
  ghost predicate MayPublish(s: Db, id: Uuid)
    requires id in s.jobs
  {
    && (forall o :: o in s.jobs && SameKey(s.jobs[o], s.jobs[id]) ==>
          && (s.jobs[o].sequence < s.jobs[id].sequence ==> Terminal(s.jobs[o].state))
          && (s.jobs[o].sequence > s.jobs[id].sequence ==> !LooksCommitted(s.jobs[o])))
    && (id in s.parts && s.parts[id].number == 0 ==>
          && s.parts[id].upload in s.uploads
          && s.uploads[s.parts[id].upload].state in {Initiated, SessionUploading, Completing})
  }

  lemma MayPublishIsChecked(s: Db, id: Uuid)
    requires id in s.jobs
    ensures MayPublish(s, id) <==>
      && !HasOlderPending(s.jobs, id) && !LooksNewerCommitted(s.jobs, id)
      && (id in s.parts && s.parts[id].number == 0 ==> OpenForCompletion(s, s.parts[id].upload))
  {
  }

  lemma CommitIsChecked(s: Db, id: Uuid, lease: Uuid, operation: Uuid, others: bool, now: int)
    ensures CanCommit(s, id, lease, operation, others, now) <==>
      && id in s.jobs && s.jobs[id].state == Committing && s.jobs[id].lease == Some(lease)
      && now <= s.jobs[id].leaseUntil && s.jobs[id].operation == Some(operation) && others
      && MayPublish(s, id)
  {
    if id in s.jobs {
      MayPublishIsChecked(s, id);
    }
  }

  /** Another waiting job of the part, for which nothing may have reached Telegram. */
  predicate IsUnsentDuplicate(s: Db, o: Uuid, upload: Uuid, number: nat) {
    && o in s.jobs && o in s.parts && s.parts[o].upload == upload && s.parts[o].number == number
    && s.jobs[o].state in {Receiving, Queued, RetryWait, RecoveryRequired}
    && forall k :: k in s.attempts && k.job == o ==> s.attempts[k].state == Retryable
  }

  /** The publishing job is completed, unsent duplicates are superseded, and no other job changes. */
  ghost predicate PublicationDecides(s: Db, s': Db, id: Uuid, upload: Uuid, number: nat) {
    && s'.jobs.Keys == s.jobs.Keys
    && forall o :: o in s.jobs ==>
         s'.jobs[o] ==
           if o == id then s.jobs[o].(state := Completed, lease := None)
           else if IsUnsentDuplicate(s, o, upload, number)
           then s.jobs[o].(state := Superseded, lease := None, leaseUntil := 0)
           else s.jobs[o]
  }

  /** The orders below the manifest's own that have a stored location. */
  function ChunkCount(chunks: map<ChunkKey, Location>, id: Uuid): nat {
    |set c | c in chunks.Keys && c.job == id && c.order < 4294967295|
  }

  /**
   Reclassification in one look: flood waits among the unknown sends become retryable, and a job
   in recovery with one is held back until `at`, or rescheduled for then if nothing else is open.
   */
  ghost predicate ReclassifyDecides(s: Db, s': Db, at: int) {
    && s'.jobs.Keys == s.jobs.Keys && s'.attempts.Keys == s.attempts.Keys
    && (forall k :: k in s.attempts ==>
          s'.attempts[k] ==
            if s.attempts[k].state == Unknown && s.attempts[k].mentionsFlood
            then s.attempts[k].(state := Retryable, kind := FloodWait, retryable := true)
            else s.attempts[k])
    && (forall id :: id in s.jobs ==>
          s'.jobs[id] ==
            if s.jobs[id].state != RecoveryRequired || !Flooded(s, id) then s.jobs[id]
            else if StaysOpen(s, id) then s.jobs[id].(nextRetry := Max(s.jobs[id].nextRetry, at))
            else s.jobs[id].(state := RetryWait, nextRetry := Max(s.jobs[id].nextRetry, at),
                             lease := None, leaseUntil := 0))
  }

  predicate Flooded(s: Db, id: Uuid) {
    exists k :: k in s.attempts && k.job == id && RecordsFlood(s.attempts[k])
  }

  predicate StaysOpen(s: Db, id: Uuid) {
    exists k :: k in s.attempts && k.job == id
      && (s.attempts[k].state == Sending || (s.attempts[k].state == Unknown && !s.attempts[k].mentionsFlood))
  }

  /** The job is the object's newest write, and every older one is finished. */
  ghost predicate LatestWrite(s: Db, id: Uuid) {
    && id in s.jobs && OlderSettled(s, id)
    && forall o :: o in s.jobs && SameKey(s.jobs[o], s.jobs[id]) && LooksCommitted(s.jobs[o]) ==>
         s.jobs[o].sequence <= s.jobs[id].sequence
  }

  lemma BegunIsNewest(s: Reached, id: Uuid, connection: Uuid, bucket: string, key: string, now: int)
    requires id !in s.jobs
    ensures Newest(BeginTransfer(s, id, connection, bucket, key, true, now), id)
  {
    ReachedMeansReachable(s);
    ReachableIsSafe(s);
  }

  lemma QueuedIsClaimable(s: Reached, id: Uuid, operation: Uuid, chunks: nat, now: int)
    requires InState(s, id, Receiving)
    ensures ClaimableWhenDue(QueueTransfer(s, id, operation, chunks, now), id)
  {
    ReachedMeansReachable(s);
    ReachableIsSafe(s);
  }

  lemma StagedAfterUpdate(s: Db, id: Uuid, j': Job)
    requires id in s.jobs && s.jobs[id].state != Completed && s.jobs[id].state != Cleaned
    requires j'.state != Completed && j'.state != Cleaned
    ensures StagedBytes(s.jobs[id := j']) == StagedBytes(s.jobs) - s.jobs[id].bytes + j'.bytes
  {
    StagedBytesUpdate(s.jobs, id, j');
  }

  /** A reservation adds its bytes and stays within the budget; a refused one adds nothing. */
  lemma ReservationIsCounted(s: Db, id: Uuid, bytes: nat, budget: nat, now: int)
    ensures var s' := ReserveStaging(s, id, bytes, budget, StagedBytes(s.jobs), now);
            if CanReserve(s, id, bytes, budget, StagedBytes(s.jobs))
            then StagedBytes(s'.jobs) == StagedBytes(s.jobs) + bytes <= budget
            else StagedBytes(s'.jobs) == StagedBytes(s.jobs)
  {
    if CanReserve(s, id, bytes, budget, StagedBytes(s.jobs)) {
      StagedAfterUpdate(s, id, ReserveStaging(s, id, bytes, budget, StagedBytes(s.jobs), now).jobs[id]);
    }
  }

  /** Cleaning releases the bytes of a job that was not published, and no claim ever picks it. */
  lemma CleaningReleases(s: Db, id: Uuid)
    ensures id in s.jobs && s.jobs[id].state in {Completed, Cancelled, ReceptionFailed, Superseded} ==>
      && NeverClaimable(CleanStaging(s, id), id)
      && StagedBytes(CleanStaging(s, id).jobs)
         == StagedBytes(s.jobs) - if s.jobs[id].state == Completed then 0 else s.jobs[id].bytes
  {
    if id in s.jobs && s.jobs[id].state in {Completed, Cancelled, ReceptionFailed, Superseded} {
      StagedBytesUpdate(s.jobs, id, s.jobs[id].(state := Cleaned, bytes := 0));
    }
  }

  /** A session just created has no parts: its identifier is new. */
  lemma NewSessionHasNoParts(s: Reached, upload: Uuid)
    requires upload !in s.everUploads
    ensures forall o :: o in s.parts ==> s.parts[o].upload != upload
  {
    ReachedMeansReachable(s);
    ReachableIsSafe(s);
  }

  /** A failed reception is never claimed; it gives its bytes back once the files are gone. */
  lemma FailedReceptionReleases(s: Db, id: Uuid, filesRemoved: bool, now: int)
    requires InState(s, id, Receiving)
    ensures var s' := FailReception(s, id, filesRemoved, now);
            && NeverClaimable(s', id)
            && StagedBytes(s'.jobs) == StagedBytes(s.jobs) - if filesRemoved then s.jobs[id].bytes else 0
  {
    StagedAfterUpdate(s, id, FailReception(s, id, filesRemoved, now).jobs[id]);
  }

  lemma RejectionReleases(s: Db, id: Uuid, now: int)
    requires id in s.jobs && Active(s.jobs[id].state)
    ensures var s' := RejectForQuota(s, id, now);
            && NeverClaimable(s', id)
            && StagedBytes(s'.jobs) == StagedBytes(s.jobs) - s.jobs[id].bytes
  {
    StagedAfterUpdate(s, id, RejectForQuota(s, id, now).jobs[id]);
  }

  lemma GrantIsCleanStart(s: Db, t: ClaimTimes, id: Uuid, lease: Uuid)
    requires Reachable(s) && Enabled(s, OpClaim(t, Some(id), lease))
    ensures CleanStart(Apply(s, OpClaim(t, Some(id), lease)), id, lease)
  {
    var s' := Apply(s, OpClaim(t, Some(id), lease));
    ReachableIsSafe(s);
    GrantedMeansOlderSettled(s, t, id, lease);
    forall k | k in s'.attempts && k.job == id
      ensures !Unsettled(s'.attempts[k].state) && s'.attempts[k].beganUnder != lease
    {
      FreshLeaseMeansSettledSends(s, t, id, lease, k);
    }
    FreshLeaseMeansSettledSends(s, t, id, lease, AttemptKey(id, 0, 0));
  }

  lemma GrantIsHeld(p: Db, t: ClaimTimes, id: Uuid, lease: Uuid)
    requires id in p.jobs
    ensures HeldUntil(Grant(p, id, lease, t.t5).(clock := t.t5), id, t.t5 + 120)
  {
  }

  lemma ClaimKeepsPromise(s: Reached, t: ClaimTimes, pick: Option<Uuid>, lease: Uuid)
    requires Enabled(s, OpClaim(t, pick, lease))
    ensures ClaimPromise(Apply(s, OpClaim(t, pick, lease)), t, pick, lease)
    ensures PickIsFirst(s, t, pick) && ClaimDecides(s, Apply(s, OpClaim(t, pick, lease)), t, pick, lease)
  {
    ReachedMeansReachable(s);
    ReachableIsSafe(s);
    ClaimIsDecided(s, t, pick, lease);
    var s' := Apply(s, OpClaim(t, pick, lease));
    if pick.Some? {
      GrantIsCleanStart(s, t, pick.value, lease);
      PreparedKeepsRows(s, t);
      GrantIsHeld(Prepared(s, t), t, pick.value, lease);
    }
    forall id | InState(s', id, RecoveryRequired)
      ensures NothingSending(s', id)
    {
      ClaimNormalizesRecovery(s, t, pick, lease, id);
    }
  }

  lemma BegunSendIsAlone(s: Db, k: AttemptKey, lease: Uuid, now: int)
    requires Fenced(s) && HoldsLiveLease(s, k.job, lease, now) && k !in s.attempts
    ensures var s' := BeginSend(s, k, lease, now); SoleSender(s', k.job, lease) && NeverClaimable(s', k.job)
  {
    var s' := BeginSend(s, k, lease, now);
    assert k in s'.attempts && Unsettled(s'.attempts[k].state);
  }

  lemma SenderIsAlone(s: Reached, k: AttemptKey, lease: Uuid, now: int)
    requires HoldsLiveLease(s, k.job, lease, now) && k !in s.attempts
    ensures var s' := BeginSend(s, k, lease, now); SoleSender(s', k.job, lease) && NeverClaimable(s', k.job)
  {
    ReachedMeansReachable(s);
    ReachableIsSafe(s);
    BegunSendIsAlone(s, k, lease, now);
  }

  lemma CommitterIsAlone(s: Db, id: Uuid, lease: Uuid, now: int)
    requires Leased(s) && Fenced(s) && InKeyOrder(s) && InState(s, id, Uploading) && s.jobs[id].lease == Some(lease)
    ensures var s' := StartCommit(s, id, lease, now); id in s'.jobs && OlderSettled(s', id) && SoleSender(s', id, lease)
  {
    var s' := StartCommit(s, id, lease, now);
    assert RowOk(s.jobs[id]) && OlderSettled(s, id);
    assert s'.jobs == s.jobs || s'.jobs == s.jobs[id := s.jobs[id].(state := Committing)];
  }

  /** A worker that starts to commit is alone with the object: older writes are finished, open sends are its own. */
  lemma HolderIsAlone(s: Reached, id: Uuid, lease: Uuid, now: int)
    ensures var s' := StartCommit(s, id, lease, now);
            InState(s, id, Uploading) && s.jobs[id].lease == Some(lease) ==>
              id in s'.jobs && OlderSettled(s', id) && SoleSender(s', id, lease)
  {
    ReachedMeansReachable(s);
    ReachableIsSafe(s);
    if InState(s, id, Uploading) && s.jobs[id].lease == Some(lease) {
      CommitterIsAlone(s, id, lease, now);
    }
  }

  predicate StoredAt(s: Db, k: AttemptKey, location: Location) {
    ChunkKey(k.job, k.order) in s.chunks && s.chunks[ChunkKey(k.job, k.order)] == location
  }

  predicate CountIsExact(s: Db, id: Uuid) {
    id in s.jobs && s.jobs[id].chunksDone == |ChunkOrders(s.chunks, id)|
  }

  lemma FinishedSendIsStored(s: Db, k: AttemptKey, lease: Uuid, location: Location, now: int)
    requires CanFinishSend(s, k, lease, now)
    ensures var s' := FinishSend(s, k, lease, location, now); StoredAt(s', k, location) && CountIsExact(s', k.job)
  {
  }

  lemma ResolvedSendIsStored(s: Db, k: AttemptKey, found: Option<Location>, mentionsFlood: bool, now: int)
    requires CanResolve(s, k)
    ensures var s' := ResolveSend(s, k, found, mentionsFlood, now);
            && UnknownSends(s', k.job) == UnknownSends(s, k.job) - {k}
            && InState(s', k.job, s.jobs[k.job].state) && CountIsExact(s', k.job)
            && (found.Some? ==> StoredAt(s', k, found.value))
  {
    ResolveSettlesOne(s, k, found, mentionsFlood, now);
  }

  lemma UnknownBlocksClaims(s: Db, k: AttemptKey, lease: Uuid, kind: ErrorKind, mentionsFlood: bool, now: int)
    requires CanMark(s, k, lease)
    ensures var s' := MarkUnknown(s, k, lease, kind, mentionsFlood, now);
            UnknownSends(s', k.job) == UnknownSends(s, k.job) + {k} && NeverClaimable(s', k.job)
  {
    var s' := MarkUnknown(s, k, lease, kind, mentionsFlood, now);
    assert k in s'.attempts && Unsettled(s'.attempts[k].state);
  }

  lemma RetryableSettlesOne(s: Db, k: AttemptKey, lease: Uuid, kind: ErrorKind, mentionsFlood: bool, now: int)
    requires CanMark(s, k, lease)
    ensures OpenSends(MarkRetryable(s, k, lease, kind, mentionsFlood, now), k.job) == OpenSends(s, k.job) - {k}
  {
  }

  lemma NoOpenSends(s: Db, id: Uuid)
    ensures HasUnsettled(s.attempts, id) <==> OpenSends(s, id) != {}
  {
    if HasUnsettled(s.attempts, id) {
      var k :| k in s.attempts && k.job == id && Unsettled(s.attempts[k].state);
      assert k in OpenSends(s, id);
    }
  }

  /** A failed transfer gives up its lease; it waits for a retry only when every send has an outcome. */
  lemma FailedTransferWaits(s: Db, id: Uuid, lease: Uuid, retryAfter: Option<nat>, now: int)
    requires HoldsLease(s, id, lease)
    ensures var s' := TransferFailed(s, id, lease, retryAfter, now);
            && !HoldsLease(s', id, lease)
            && (if retryAfter.Some? && OpenSends(s', id) == {} then ClaimableWhenDue(s', id)
                else NeverClaimable(s', id))
  {
    NoOpenSends(s, id);
  }

  lemma PublishedPartIsSettled(s: Reached, id: Uuid, lease: Uuid, upload: Uuid, number: nat, staged: bool, now: int)
    requires s.clock <= now && IsPart(s, id, upload, number) && CanFinishPart(s, id, lease, upload, staged)
    ensures PartIsSettled(FinishPart(s, id, lease, upload, number, staged, now), upload, number)
  {
    ReachedMeansReachable(s);
    var s' := FinishPart(s, id, lease, upload, number, staged, now);
    forall o | o in s'.jobs && IsPart(s', o, upload, number)
      ensures Terminal(s'.jobs[o].state)
    {
      PublicationEndsDuplicates(s, id, lease, upload, number, staged, now, o);
    }
  }

  lemma DuplicateIsUnsent(s: Db, o: Uuid, id: Uuid, upload: Uuid, number: nat)
    requires o in s.jobs
    ensures IsSafeDuplicate(s, o, id, upload, number) <==> o != id && IsUnsentDuplicate(s, o, upload, number)
  {
  }

  lemma PublicationIsDecided(s: Db, id: Uuid, lease: Uuid, upload: Uuid, number: nat, staged: bool, now: int)
    requires CanFinishPart(s, id, lease, upload, staged)
    ensures PublicationDecides(s, FinishPart(s, id, lease, upload, number, staged, now), id, upload, number)
  {
    var s' := FinishPart(s, id, lease, upload, number, staged, now);
    forall o | o in s.jobs
      ensures o in s'.jobs
      ensures s'.jobs[o] ==
        if o == id then s.jobs[o].(state := Completed, lease := None)
        else if IsUnsentDuplicate(s, o, upload, number)
        then s.jobs[o].(state := Superseded, lease := None, leaseUntil := 0)
        else s.jobs[o]
    {
      DuplicateIsUnsent(s, o, id, upload, number);
      FinishPartRow(s, id, lease, upload, number, staged, now, o);
    }
  }

  lemma PublishedReleases(s: Db, id: Uuid)
    requires InState(s, id, Committing)
    requires id in s.parts && s.parts[id].number == 0 ==> s.parts[id].upload in s.uploads
    ensures StagedBytes(Published(s, id).jobs) == StagedBytes(s.jobs) - s.jobs[id].bytes
  {
    StagedBytesUpdate(s.jobs, id, s.jobs[id].(state := Completed, lease := None, leaseUntil := 0));
  }

  lemma CommittedIsLatest(s: Db, id: Uuid, lease: Uuid, operation: Uuid, others: bool, now: int)
    requires CanCommit(s, id, lease, operation, others, now)
    ensures var s' := CommitTransfer(s, id, lease, operation, others, now);
            InState(s', id, Completed) && LatestWrite(s', id)
    ensures StagedBytes(CommitTransfer(s, id, lease, operation, others, now).jobs)
            == StagedBytes(s.jobs) - s.jobs[id].bytes
  {
    PublishedReleases(s.(clock := now), id);
  }

  /** Queueing after reconciliation lets a claim pick the job, a running flood pause excepted. */
  lemma RequeuedIsClaimable(s: Db, id: Uuid, now: int)
    requires CanQueueAfterReconciliation(s, id)
    ensures var s' := QueueAfterReconciliation(s, id, now);
            && ClaimableWhenDue(s', id)
            && s'.jobs[id].nextRetry
               == if HasFloodWait(s.attempts, id) && s.jobs[id].nextRetry > now then s.jobs[id].nextRetry else 0
  {
  }

  lemma RetriedIsClaimable(s: Db, id: Uuid)
    requires CanRetry(s, id)
    ensures ClaimableWhenDue(OperatorRetry(s, id), id) && OperatorRetry(s, id).jobs[id].nextRetry == 0
  {
  }

  lemma CancelledIsFinished(s: Db, id: Uuid, now: int)
    requires id in s.jobs && s.jobs[id].state in {Queued, RetryWait, RecoveryRequired}
    ensures var s' := OperatorCancel(s, id, now); id in s'.jobs && Terminal(s'.jobs[id].state) && NeverClaimable(s', id)
  {
  }

  predicate FloodedInRecovery(s: Db, k: AttemptKey) {
    k in s.attempts && RecordsFlood(s.attempts[k]) && InState(s, k.job, RecoveryRequired)
  }

  /** Every job in recovery with a recorded flood wait is held back until the new retry time. */
  lemma ReclassifyPausesAll(s: Reached, delay: nat, now: int)
    ensures forall k :: FloodedInRecovery(s, k) ==>
      Paused(ReclassifyFloodWaits(s, delay, now), k.job, RetryAt(delay, now))
  {
    ReachedMeansReachable(s);
    ReachableIsSafe(s);
    forall k | FloodedInRecovery(s, k)
      ensures Paused(ReclassifyFloodWaits(s, delay, now), k.job, RetryAt(delay, now))
    {
      ReclassifyPauses(s, delay, now, k.job, k);
    }
  }

  lemma FloodedIsRecorded(s: Db, id: Uuid)
    ensures Flooded(s, id) <==> HasFloodWait(ReclassifyAttempts(s).attempts, id)
    ensures StaysOpen(s, id) <==> HasUnsettled(ReclassifyAttempts(s).attempts, id)
  {
    var s1 := ReclassifyAttempts(s);
    if Flooded(s, id) {
      var k :| k in s.attempts && k.job == id && RecordsFlood(s.attempts[k]);
      assert k in s1.attempts && s1.attempts[k].kind == FloodWait;
    }
    if StaysOpen(s, id) {
      var k :| k in s.attempts && k.job == id
        && (s.attempts[k].state == Sending || (s.attempts[k].state == Unknown && !s.attempts[k].mentionsFlood));
      assert s1.attempts[k] == s.attempts[k];
    }
  }

  /** The three updates of the reclassification make one decision per row. */
  lemma ReclassifyIsDecided(s: Db, delay: nat, now: int)
    ensures ReclassifyDecides(s, ReclassifyFloodWaits(s, delay, now), RetryAt(delay, now))
  {
    forall id | id in s.jobs
      ensures Flooded(s, id) <==> HasFloodWait(ReclassifyAttempts(s.(clock := now)).attempts, id)
      ensures StaysOpen(s, id) <==> HasUnsettled(ReclassifyAttempts(s.(clock := now)).attempts, id)
    {
      FloodedIsRecorded(s, id);
    }
  }

  // ---- completions, deletions and connections ------------------------------

  predicate IsCompletionOf(s: Db, o: Uuid, upload: Uuid) {
    o in s.jobs && o in s.parts && s.parts[o].upload == upload && s.parts[o].number == 0
  }

  /** The session is open, no earlier completion of it may still reach Telegram, and the job was just received. */
  ghost predicate MayComplete(s: Db, id: Uuid, upload: Uuid) {
    && upload in s.uploads && s.uploads[upload].state in {Initiated, SessionUploading, Completing}
    && id in s.jobs && s.jobs[id].state == Receiving && id !in s.parts
    && forall o :: IsCompletionOf(s, o, upload) ==>
         && s.jobs[o].state !in {Uploading, Committing}
         && (s.jobs[o].state == RecoveryRequired ==> OpenSends(s, o) == {})
  }

  /** The job is queued as the session's completion, every earlier one is finished, and nothing else changes. */
  ghost predicate CompletionDecides(s: Db, s': Db, id: Uuid, operation: Uuid, upload: Uuid)
    requires id in s.jobs && upload in s.uploads
  {
    && s'.attempts == s.attempts && s'.chunks == s.chunks && s'.nextSequence == s.nextSequence
    && s'.parts == s.parts[id := PartRef(upload, 0)]
    && s'.uploads == s.uploads[upload := s.uploads[upload].(state := Completing)]
    && s'.jobs.Keys == s.jobs.Keys
    && s'.jobs[id] == s.jobs[id].(operation := Some(operation), chunksTotal := 0, state := Queued, leaseUntil := 0)
    && forall o :: o in s.jobs && o != id ==>
         s'.jobs[o] ==
           if IsCompletionOf(s, o, upload) && s.jobs[o].state !in {Completed, Cleaned, Superseded}
           then s.jobs[o].(state := Superseded, lease := None, leaseUntil := 0)
           else s.jobs[o]
  }

  lemma CompletionIsChecked(s: Db, id: Uuid, upload: Uuid)
    ensures CanQueueCompletion(s, id, upload) <==> MayComplete(s, id, upload)
  {
    forall o | IsCompletionOf(s, o, upload)
      ensures HasUnsettled(s.attempts, o) <==> OpenSends(s, o) != {}
    {
      NoOpenSends(s, o);
    }
  }

  lemma CompletionIsDecided(s: Db, id: Uuid, operation: Uuid, upload: Uuid, now: int)
    ensures CanQueueCompletion(s, id, upload) <==> MayComplete(s, id, upload)
    ensures MayComplete(s, id, upload) ==>
      CompletionDecides(s, QueueCompletion(s, id, operation, upload, now), id, operation, upload)
  {
    CompletionIsChecked(s, id, upload);
  }

  /** Every waiting job of the object is cancelled, and no other job changes. */
  ghost predicate DeletionDecides(s: Db, s': Db, bucket: string, key: string) {
    && s'.jobs.Keys == s.jobs.Keys
    && forall o :: o in s.jobs ==>
         s'.jobs[o] ==
           if s.jobs[o].bucket == bucket && s.jobs[o].key == key
              && s.jobs[o].state in {Receiving, Queued, RetryWait, RecoveryRequired}
           then s.jobs[o].(state := Cancelled, lease := None, leaseUntil := 0)
           else s.jobs[o]
  }

  /** No worker holds a job of the object. */
  ghost predicate NoneIsActive(s: Db, bucket: string, key: string) {
    forall o :: o in s.jobs && s.jobs[o].bucket == bucket && s.jobs[o].key == key ==>
      s.jobs[o].state !in {Uploading, Committing}
  }

  lemma DeletionIsDecided(s: Db, bucket: string, key: string, now: int)
    requires NoneIsActive(s, bucket, key)
    ensures DeletionDecides(s, DeleteKey(s, bucket, key, true, now), bucket, key)
  {
  }

  /** Unfinished work of the connection ends, with its open sessions; other connections keep theirs. */
  ghost predicate RemovalDecides(s: Db, s': Db, connection: Uuid) {
    && s'.jobs.Keys == s.jobs.Keys && s'.uploads.Keys == s.uploads.Keys
    && (forall o :: o in s.jobs ==>
          s'.jobs[o] ==
            if s.jobs[o].connection == connection && s.jobs[o].state !in {Completed, Cancelled, Cleaned}
            then s.jobs[o].(state := Cancelled, lease := None, leaseUntil := 0)
            else s.jobs[o])
    && (forall u :: u in s.uploads ==>
          s'.uploads[u] ==
            if s.uploads[u].connection == connection && s.uploads[u].state != SessionCompleted
            then s.uploads[u].(state := Aborted)
            else s.uploads[u])
  }

  lemma RemovalIsDecided(s: Db, connection: Uuid, now: int)
    ensures RemovalDecides(s, RemoveConnection(s, connection, now), connection)
  {
  }

  predicate BelongsTo(s: Db, id: Uuid, connection: Uuid) {
    id in s.jobs && s.jobs[id].connection == connection
  }

  /** No row of the connection is left, and every other row is as it was. */
  ghost predicate PurgeDecides(s: Db, s': Db, connection: Uuid) {
    && (forall id :: id in s'.jobs <==> id in s.jobs && !BelongsTo(s, id, connection))
    && (forall id :: id in s'.jobs ==> s'.jobs[id] == s.jobs[id])
    && (forall k :: k in s'.attempts <==> k in s.attempts && !BelongsTo(s, k.job, connection))
    && (forall k :: k in s'.attempts ==> s'.attempts[k] == s.attempts[k])
    && (forall c :: c in s'.chunks <==> c in s.chunks && !BelongsTo(s, c.job, connection))
    && (forall c :: c in s'.chunks ==> s'.chunks[c] == s.chunks[c])
    && (forall id :: id in s'.parts <==> id in s.parts && !BelongsTo(s, id, connection))
    && (forall id :: id in s'.parts ==> s'.parts[id] == s.parts[id])
    && (forall u :: u in s'.uploads <==> u in s.uploads && s.uploads[u].connection != connection)
    && (forall u :: u in s'.uploads ==> s'.uploads[u] == s.uploads[u])
  }

  lemma PurgeIsDecided(s: Db, connection: Uuid)
    ensures PurgeDecides(s, PurgeConnection(s, connection), connection)
  {
  }
}
