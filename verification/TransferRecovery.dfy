/** Recovery makes progress, and a flood-wait pause survives whatever happens meanwhile. */
module TransferRecovery {
  import opened Basics
  import opened TransferModel
  import opened TransferRuns
  import opened TransferSafety
  import opened TransferSteps
  import opened TransferInvariant

  // ---- recovery cannot stick -----------------------------------------------

  function UnknownSends(s: Db, id: Uuid): set<AttemptKey> {
    set k | k in s.attempts.Keys && k.job == id && s.attempts[k].state == Unknown
  }

  ghost predicate NothingSending(s: Db, id: Uuid) {
    forall k :: k in s.attempts && k.job == id ==> s.attempts[k].state != Sending
  }

  lemma MarkingLeavesNothingSending(s: Db, now: int, id: Uuid)
    requires Leased(s) && InState(s, id, RecoveryRequired)
    ensures NothingSending(MarkLostSendsUnknown(s, now), id)
  {
  }

  /** After any claim, no job in recovery has a send still marked as running. */
  lemma ClaimNormalizesRecovery(s: Db, t: ClaimTimes, pick: Option<Uuid>, lease: Uuid, id: Uuid)
    requires Reachable(s) && Enabled(s, OpClaim(t, pick, lease))
    requires InState(Apply(s, OpClaim(t, pick, lease)), id, RecoveryRequired)
    ensures NothingSending(Apply(s, OpClaim(t, pick, lease)), id)
  {
    ReachableIsSafe(s);
    PreparedKeepsRows(s, t);
    var s1 := ExpireReceptions(s, t.t1);
    ExpireReceptionsIsLegal(s, t.t1); LawKeepsInv(s, s1);
    var s2 := FenceLostSends(s1, t.t2);
    FenceLostSendsIsLegal(s1, t.t2); LawKeepsInv(s1, s2);
    RecoveryAfterClaim(s2, t, pick, lease, id);
    MarkingLeavesNothingSending(s2, t.t3, id);
  }

  lemma RecoveryAfterClaim(s2: Db, t: ClaimTimes, pick: Option<Uuid>, lease: Uuid, id: Uuid)
    requires var p := SupersedeOlder(CancelClosedSessions(MarkLostSendsUnknown(s2, t.t3)));
             && (pick.Some? ==> pick.value in p.jobs)
             && InState(if pick.None? then p else Grant(p, pick.value, lease, t.t5), id, RecoveryRequired)
    ensures InState(s2, id, RecoveryRequired)
  {
  }

  lemma SendsOnlySettle(s: Db, s': Db, id: Uuid)
    requires AttemptsOnward(s, s') && SendsAreHeld(s, s') && InState(s, id, RecoveryRequired) && NothingSending(s, id)
    ensures NothingSending(s', id) && UnknownSends(s', id) <= UnknownSends(s, id)
  {
  }

  /** No call starts or restarts a send of a job in recovery, and none of its sends becomes unknown. */
  lemma RecoveryOnlyResolves(s: Db, op: Op, id: Uuid)
    requires Inv(s) && Enabled(s, op) && InState(s, id, RecoveryRequired) && NothingSending(s, id)
    ensures Inv(Apply(s, op)) && NothingSending(Apply(s, op), id)
    ensures UnknownSends(Apply(s, op), id) <= UnknownSends(s, id)
  {
    ApplyIsStep(s, op);
    SendsOnlySettle(s, Apply(s, op), id);
  }

  /** Resolving one unknown send settles exactly that one and leaves the job in recovery. */
  lemma ResolveSettlesOne(s: Db, k: AttemptKey, found: Option<Location>, mentionsFlood: bool, now: int)
    requires CanResolve(s, k)
    ensures var s' := ResolveSend(s, k, found, mentionsFlood, now);
            && UnknownSends(s', k.job) == UnknownSends(s, k.job) - {k}
            && |UnknownSends(s', k.job)| == |UnknownSends(s, k.job)| - 1
            && (NothingSending(s, k.job) ==> NothingSending(s', k.job))
            && k.job in s'.jobs && s'.jobs[k.job].state == s.jobs[k.job].state && s'.clock == now
            && (found.Some? ==>
                  ChunkKey(k.job, k.order) in s'.chunks && s'.chunks[ChunkKey(k.job, k.order)] == found.value)
  {
  }

  /** The job is in recovery before the run and after each of its calls. */
  ghost predicate StaysInRecovery(s: Db, ops: seq<Op>, id: Uuid)
    requires IsRun(s, ops)
    decreases |ops|
  {
    InState(s, id, RecoveryRequired) && (ops == [] || StaysInRecovery(Apply(s, ops[0]), ops[1..], id))
  }

  predicate Resolves(s: Db, op: Op, id: Uuid) {
    op.OpResolve? && op.k.job == id && CanResolve(s, op.k)
  }

  /** How many calls of the run resolve a send of the job. */
  ghost function Resolved(s: Db, ops: seq<Op>, id: Uuid): nat
    requires IsRun(s, ops)
    decreases |ops|
  {
    if ops == [] then 0 else One(Resolves(s, ops[0], id)) + Resolved(Apply(s, ops[0]), ops[1..], id)
  }

  lemma RecoveryCallCounts(s: Db, op: Op, id: Uuid)
    requires Inv(s) && Enabled(s, op) && InState(s, id, RecoveryRequired) && NothingSending(s, id)
    ensures |UnknownSends(Apply(s, op), id)| + One(Resolves(s, op, id)) <= |UnknownSends(s, id)|
  {
    if Resolves(s, op, id) {
      ResolveSettlesOne(s, op.k, op.found, op.mentionsFlood, op.now);
    } else {
      RecoveryOnlyResolves(s, op, id);
      SubsetIsSmaller(UnknownSends(Apply(s, op), id), UnknownSends(s, id));
    }
  }

  lemma {:induction false} RecoveryOnlyShrinks(s: Db, ops: seq<Op>, id: Uuid)
    requires Inv(s) && IsRun(s, ops) && StaysInRecovery(s, ops, id) && NothingSending(s, id)
    ensures var s' := After(s, ops);
            && Inv(s') && InState(s', id, RecoveryRequired) && NothingSending(s', id)
            && UnknownSends(s', id) <= UnknownSends(s, id)
            && |UnknownSends(s', id)| + Resolved(s, ops, id) <= |UnknownSends(s, id)|
    decreases |ops|
  {
    if ops != [] {
      RecoveryOnlyResolves(s, ops[0], id);
      RecoveryCallCounts(s, ops[0], id);
      RecoveryOnlyShrinks(Apply(s, ops[0]), ops[1..], id);
    }
  }

  lemma QueueAfterSucceeds(s: Db, id: Uuid, now: int)
    requires InState(s, id, RecoveryRequired) && NothingSending(s, id)
    ensures CanQueueAfterReconciliation(s, id) <==> UnknownSends(s, id) == {}
    ensures UnknownSends(s, id) == {} ==>
      var s' := QueueAfterReconciliation(s, id, now); id in s'.jobs && s'.jobs[id].state in {Queued, RetryWait}
  {
    if UnknownSends(s, id) == {} {
      forall k | k in s.attempts && k.job == id
        ensures !Unsettled(s.attempts[k].state)
      {
        assert k !in UnknownSends(s, id);
      }
    } else {
      var k :| k in UnknownSends(s, id);
      assert Unsettled(s.attempts[k].state);
    }
  }

  /**
   Recovery cannot stick.  After any claim, and any calls that leave the job in recovery:
   nothing of it is being sent, its unknown sends are among those after the claim, each
   resolve has taken one away, and `queue_after_reconciliation` succeeds exactly when none
   is left.
   */
  lemma RecoveryCannotStick(s: Db, t: ClaimTimes, pick: Option<Uuid>, lease: Uuid, id: Uuid, ops: seq<Op>, now: int)
    requires Reachable(s) && Enabled(s, OpClaim(t, pick, lease))
    requires IsRun(Apply(s, OpClaim(t, pick, lease)), ops)
    requires StaysInRecovery(Apply(s, OpClaim(t, pick, lease)), ops, id)
    ensures var s1 := Apply(s, OpClaim(t, pick, lease));
            var s2 := After(s1, ops);
            && NothingSending(s2, id)
            && UnknownSends(s2, id) <= UnknownSends(s1, id)
            && |UnknownSends(s2, id)| + Resolved(s1, ops, id) <= |UnknownSends(s1, id)|
            && (CanQueueAfterReconciliation(s2, id) <==> UnknownSends(s2, id) == {})
            && (UnknownSends(s2, id) == {} ==>
                  var s3 := QueueAfterReconciliation(s2, id, now);
                  id in s3.jobs && s3.jobs[id].state in {Queued, RetryWait})
  {
    RecoveryAfterClaimRun(s, t, pick, lease, id, ops);
    QueueAfterSucceeds(After(Apply(s, OpClaim(t, pick, lease)), ops), id, now);
  }

  lemma RecoveryAfterClaimRun(s: Db, t: ClaimTimes, pick: Option<Uuid>, lease: Uuid, id: Uuid, ops: seq<Op>)
    requires Reachable(s) && Enabled(s, OpClaim(t, pick, lease))
    requires IsRun(Apply(s, OpClaim(t, pick, lease)), ops)
    requires StaysInRecovery(Apply(s, OpClaim(t, pick, lease)), ops, id)
    ensures var s1 := Apply(s, OpClaim(t, pick, lease));
            var s2 := After(s1, ops);
            && Inv(s2) && InState(s2, id, RecoveryRequired) && NothingSending(s2, id)
            && UnknownSends(s2, id) <= UnknownSends(s1, id)
            && |UnknownSends(s2, id)| + Resolved(s1, ops, id) <= |UnknownSends(s1, id)|
  {
    ReachableIsSafe(s);
    ApplyIsStep(s, OpClaim(t, pick, lease));
    ClaimNormalizesRecovery(s, t, pick, lease, id);
    RecoveryOnlyShrinks(Apply(s, OpClaim(t, pick, lease)), ops, id);
  }

  // ---- the reconciliation pass ---------------------------------------------

  /** What one lookup found, whether its message mentions a flood wait, and when it is recorded. */
  datatype Lookup = Lookup(found: Option<Location>, mentionsFlood: bool, now: int)

  /** The reconciliation pass of one job: resolve the listed sends in order, then queue. */
  ghost function ReconcileOps(id: Uuid, ks: seq<AttemptKey>, lookups: seq<Lookup>, now: int): seq<Op>
    requires |lookups| == |ks|
  {
    if ks == [] then [OpQueueAfterReconciliation(id, now)]
    else [OpResolve(ks[0], lookups[0].found, lookups[0].mentionsFlood, lookups[0].now)]
         + ReconcileOps(id, ks[1..], lookups[1..], now)
  }

  predicate InTime(clock: int, lookups: seq<Lookup>, now: int)
    decreases |lookups|
  {
    if lookups == [] then clock <= now else clock <= lookups[0].now && InTime(lookups[0].now, lookups[1..], now)
  }

  ghost predicate Lists(ks: seq<AttemptKey>, sends: set<AttemptKey>) {
    && (forall i :: 0 <= i < |ks| ==> ks[i] in sends)
    && (forall k :: k in sends ==> k in ks)
    && (forall i, j :: 0 <= i < j < |ks| ==> ks[i] != ks[j])
  }

  lemma ListsTail(ks: seq<AttemptKey>, sends: set<AttemptKey>)
    requires Lists(ks, sends) && ks != []
    ensures Lists(ks[1..], sends - {ks[0]})
  {
  }

  lemma ReconcileStep(s: Db, k: AttemptKey, l: Lookup)
    requires Inv(s) && InState(s, k.job, RecoveryRequired) && NothingSending(s, k.job) && s.clock <= l.now
    requires k in UnknownSends(s, k.job)
    ensures var op := OpResolve(k, l.found, l.mentionsFlood, l.now);
            && Enabled(s, op)
            && var s' := Apply(s, op);
               && Inv(s') && InState(s', k.job, RecoveryRequired) && NothingSending(s', k.job) && s'.clock == l.now
               && UnknownSends(s', k.job) == UnknownSends(s, k.job) - {k}
  {
    ResolveSettlesOne(s, k, l.found, l.mentionsFlood, l.now);
    ApplyIsStep(s, OpResolve(k, l.found, l.mentionsFlood, l.now));
  }

  lemma PrependRun(s: Db, op: Op, rest: seq<Op>)
    requires Enabled(s, op) && IsRun(Apply(s, op), rest)
    ensures IsRun(s, [op] + rest) && After(s, [op] + rest) == After(Apply(s, op), rest)
  {
  }

  lemma {:induction false} ReconcileRun(s: Db, id: Uuid, ks: seq<AttemptKey>, lookups: seq<Lookup>, now: int)
    requires Inv(s) && InState(s, id, RecoveryRequired) && NothingSending(s, id)
    requires |lookups| == |ks| && InTime(s.clock, lookups, now) && Lists(ks, UnknownSends(s, id))
    ensures var ops := ReconcileOps(id, ks, lookups, now);
            IsRun(s, ops) && id in After(s, ops).jobs && After(s, ops).jobs[id].state in {Queued, RetryWait}
    decreases |ks|
  {
    if ks == [] {
      assert UnknownSends(s, id) == {};
      QueueAfterSucceeds(s, id, now);
      PrependRun(s, OpQueueAfterReconciliation(id, now), []);
      assert [OpQueueAfterReconciliation(id, now)] + [] == ReconcileOps(id, ks, lookups, now);
    } else {
      var op := OpResolve(ks[0], lookups[0].found, lookups[0].mentionsFlood, lookups[0].now);
      ReconcileStep(s, ks[0], lookups[0]);
      ListsTail(ks, UnknownSends(s, id));
      ReconcileRun(Apply(s, op), id, ks[1..], lookups[1..], now);
      PrependRun(s, op, ReconcileOps(id, ks[1..], lookups[1..], now));
    }
  }

  /**
   Recovery can always finish: from any such state, resolving the job's unknown sends in any
   order, at any times and with any outcomes, and then queueing it, is a run that succeeds.
   */
  lemma RecoveryCanFinish(s: Db, t: ClaimTimes, pick: Option<Uuid>, lease: Uuid, id: Uuid, ops: seq<Op>,
                          ks: seq<AttemptKey>, lookups: seq<Lookup>, now: int)
    requires Reachable(s) && Enabled(s, OpClaim(t, pick, lease))
    requires IsRun(Apply(s, OpClaim(t, pick, lease)), ops)
    requires StaysInRecovery(Apply(s, OpClaim(t, pick, lease)), ops, id)
    requires var s2 := After(Apply(s, OpClaim(t, pick, lease)), ops);
             Lists(ks, UnknownSends(s2, id)) && |lookups| == |ks| && InTime(s2.clock, lookups, now)
    ensures var s2 := After(Apply(s, OpClaim(t, pick, lease)), ops);
            var pass := ReconcileOps(id, ks, lookups, now);
            && IsRun(s2, pass)
            && id in After(s2, pass).jobs && After(s2, pass).jobs[id].state in {Queued, RetryWait}
  {
    RecoveryAfterClaimRun(s, t, pick, lease, id, ops);
    ReconcileRun(After(Apply(s, OpClaim(t, pick, lease)), ops), id, ks, lookups, now);
  }

  // ---- the flood-wait pause ------------------------------------------------

  /** The job is finished, gone, or held back until `until` by a recorded flood wait. */
  ghost predicate Paused(s: Db, id: Uuid, until: int) {
    && id in s.everJobs
    && (id in s.jobs ==>
          || Terminal(s.jobs[id].state)
          || ((s.jobs[id].state == RecoveryRequired || s.jobs[id].state == RetryWait)
              && s.jobs[id].nextRetry >= until && HasFloodWait(s.attempts, id)))
  }

  ghost predicate PausedOrPast(s: Db, id: Uuid, until: int) {
    until <= s.clock || Paused(s, id, until)
  }

  lemma FloodWaitStays(s: Db, s': Db, id: Uuid)
    requires AttemptsOnward(s, s') && id in s'.jobs && HasFloodWait(s.attempts, id)
    ensures HasFloodWait(s'.attempts, id)
  {
  }

  lemma PauseSurvivesStep(s: Db, s': Db, id: Uuid, until: int)
    requires Step(s, s') && KeepsPauses(s, s') && PausedOrPast(s, id, until)
    ensures PausedOrPast(s', id, until)
  {
    if id in s'.jobs && s.clock < until {
      assert PauseKept(s.jobs[id], s'.jobs[id]);
      assert JobOnward(s.jobs[id], s'.jobs[id], s.leases);
      if !Terminal(s.jobs[id].state) {
        FloodWaitStays(s, s', id);
      }
    }
  }

  lemma PauseSurvivesPrepare(s: Db, t: ClaimTimes, id: Uuid, until: int)
    requires Inv(s) && PausedOrPast(s, id, until)
    ensures PausedOrPast(Prepared(s, t), id, until)
  {
    var s1 := ExpireReceptions(s, t.t1);
    ExpireReceptionsIsLegal(s, t.t1); LawIsStep(s, s1);
    PauseSurvivesStep(s, s1, id, until);
    var s2 := FenceLostSends(s1, t.t2);
    FenceLostSendsIsLegal(s1, t.t2); LawIsStep(s1, s2);
    PauseSurvivesStep(s1, s2, id, until);
    var s3 := MarkLostSendsUnknown(s2, t.t3);
    MarkLostSendsIsLegal(s2, t.t3); LawIsStep(s2, s3);
    PauseSurvivesStep(s2, s3, id, until);
    var s4 := CancelClosedSessions(s3);
    CancelClosedIsLegal(s3); LawIsStep(s3, s4);
    PauseSurvivesStep(s3, s4, id, until);
    SupersedeIsLegal(s4); LawIsStep(s4, SupersedeOlder(s4));
    PauseSurvivesStep(s4, SupersedeOlder(s4), id, until);
  }

  lemma PauseSurvivesReclassify(s: Db, delay: nat, now: int, id: Uuid, until: int)
    requires Inv(s) && s.clock <= now && PausedOrPast(s, id, until)
    ensures PausedOrPast(ReclassifyFloodWaits(s, delay, now), id, until)
  {
    var at := RetryAt(delay, now);
    var s0 := s.(clock := now);
    TickIsLegal(s, now); LawIsStep(s, s0);
    PauseSurvivesStep(s, s0, id, until);
    var s1 := ReclassifyAttempts(s0);
    ReclassifyAttemptsIsLegal(s0); LawIsStep(s0, s1);
    PauseSurvivesStep(s0, s1, id, until);
    var s2 := PauseFlooded(s1, at);
    PauseFloodedIsLegal(s1, at); LawIsStep(s1, s2);
    PauseSurvivesStep(s1, s2, id, until);
    var s3 := RescheduleFlooded(s2, at);
    RescheduleFloodedIsLegal(s2, at); LawIsStep(s2, s3);
    PauseSurvivesStep(s2, s3, id, until);
  }

  lemma PausedUntilPicked(p: Db, id: Uuid, until: int, now: int)
    requires Paused(p, id, until) && IsCandidate(p, id, now)
    ensures until <= now
  {
  }

  lemma PauseSurvivesGrant(p: Db, o: Uuid, lease: Uuid, leaseNow: int, clock: int, id: Uuid, until: int)
    requires o in p.jobs && o != id && Paused(p, id, until)
    ensures Paused(Grant(p, o, lease, leaseNow).(clock := clock), id, until)
  {
  }

  lemma PauseSurvivesPick(p: Db, t: ClaimTimes, pick: Option<Uuid>, lease: Uuid, id: Uuid, until: int)
    requires PausedOrPast(p, id, until) && p.clock <= t.t4 <= t.t5 && (pick.Some? ==> IsCandidate(p, pick.value, t.t4))
    ensures PausedOrPast((if pick.None? then p else Grant(p, pick.value, lease, t.t5)).(clock := t.t5), id, until)
    ensures pick == Some(id) ==> until <= t.t4
  {
    if Paused(p, id, until) && pick.Some? {
      if pick.value == id {
        PausedUntilPicked(p, id, until, t.t4);
      } else {
        PauseSurvivesGrant(p, pick.value, lease, t.t5, t.t5, id, until);
      }
    }
  }

  /** A claim of the paused job itself cannot come before the pause ends. */
  lemma PauseSurvivesClaim(s: Db, t: ClaimTimes, pick: Option<Uuid>, lease: Uuid, id: Uuid, until: int)
    requires Inv(s) && Enabled(s, OpClaim(t, pick, lease)) && PausedOrPast(s, id, until)
    ensures PausedOrPast(Apply(s, OpClaim(t, pick, lease)), id, until)
    ensures pick == Some(id) ==> until <= t.t4
  {
    PreparedKeepsRows(s, t);
    PauseSurvivesPrepare(s, t, id, until);
    PauseSurvivesPick(Prepared(s, t), t, pick, lease, id, until);
  }

  lemma PauseSurvivesClean(s: Db, o: Uuid, id: Uuid, until: int)
    requires PausedOrPast(s, id, until)
    ensures PausedOrPast(CleanStaging(s, o), id, until)
  {
  }

  lemma PauseSurvivesOtherRetry(s: Db, o: Uuid, id: Uuid, until: int)
    requires PausedOrPast(s, id, until) && o != id
    ensures PausedOrPast(OperatorRetry(s, o), id, until)
  {
  }

  lemma PauseSurvivesQueueAfter(s: Db, o: Uuid, now: int, id: Uuid, until: int)
    requires PausedOrPast(s, id, until) && s.clock <= now
    ensures PausedOrPast(QueueAfterReconciliation(s, o, now), id, until)
  {
  }

  /** Every call but an operator retry of that job leaves the pause in place. */
  lemma PauseSurvivesCall(s: Db, op: Op, id: Uuid, until: int)
    requires Inv(s) && Enabled(s, op) && PausedOrPast(s, id, until) && op != OpRetry(id)
    ensures PausedOrPast(Apply(s, op), id, until)
    ensures op.OpClaim? && op.pick == Some(id) ==> until <= op.times.t4
  {
    if op.OpClaim? {
      PauseSurvivesClaim(s, op.times, op.pick, op.lease, id, until);
    } else if op.OpReclassify? {
      PauseSurvivesReclassify(s, op.delay, op.now, id, until);
    } else if op.OpClean? {
      PauseSurvivesClean(s, op.id, id, until);
    } else if op.OpRetry? {
      PauseSurvivesOtherRetry(s, op.id, id, until);
    } else if op.OpQueueAfterReconciliation? {
      PauseSurvivesQueueAfter(s, op.id, op.now, id, until);
    } else {
      SimpleCallIsLawful(s, op);
      ApplyIsStep(s, op);
      PauseSurvivesStep(s, Apply(s, op), id, until);
    }
  }

  lemma {:induction false} PauseSurvivesRun(s: Db, ops: seq<Op>, id: Uuid, until: int)
    requires Inv(s) && IsRun(s, ops) && PausedOrPast(s, id, until) && OpRetry(id) !in ops
    ensures Inv(After(s, ops)) && PausedOrPast(After(s, ops), id, until)
    decreases |ops|
  {
    if ops != [] {
      ApplyIsStep(s, ops[0]);
      PauseSurvivesCall(s, ops[0], id, until);
      PauseSurvivesRun(Apply(s, ops[0]), ops[1..], id, until);
    }
  }

  /** What the reclassification takes for a flood wait. */
  predicate RecordsFlood(a: Attempt) {
    (a.state == Unknown && a.mentionsFlood) || (a.state == Retryable && a.kind == FloodWait)
  }

  lemma ReclassifyPauses(s: Db, delay: nat, now: int, id: Uuid, k: AttemptKey)
    requires id in s.everJobs && InState(s, id, RecoveryRequired)
    requires k in s.attempts && k.job == id && RecordsFlood(s.attempts[k])
    ensures Paused(ReclassifyFloodWaits(s, delay, now), id, RetryAt(delay, now))
  {
  }

  /**
   The pause is the requested delay, at least one second, exactly when the sum fits an i64: a
   delay above i64::MAX wraps to a negative number and a late clock saturates.
   */
  lemma RetryAtIsTheDelay(delay: nat, now: int)
    requires delay <= U64_MAX && 0 <= now <= I64_MAX
    ensures RetryAt(delay, now) == now + Max(delay, 1) <==> now + Max(delay, 1) <= I64_MAX
    ensures RetryAt(delay, now) > now <==> delay <= I64_MAX && now < I64_MAX
  {
  }

  lemma PausedIsNotClaimed(s: Db, ops: seq<Op>, id: Uuid, until: int, t: ClaimTimes, lease: Uuid)
    requires Inv(s) && PausedOrPast(s, id, until) && IsRun(s, ops) && OpRetry(id) !in ops
    requires Enabled(After(s, ops), OpClaim(t, Some(id), lease))
    ensures until <= t.t4
  {
    PauseSurvivesRun(s, ops, id, until);
    PauseSurvivesClaim(After(s, ops), t, Some(id), lease, id, until);
  }

  /**
   A flood wait recorded at `now` with delay `d` holds the job back until `RetryAt(d, now)`:
   in no run without an operator retry is it claimed earlier, whatever is reconciled meanwhile.
   */
  lemma FloodPauseSurvivesRuns(s: Db, d: nat, now: int, id: Uuid, k: AttemptKey, ops: seq<Op>, t: ClaimTimes,
                               lease: Uuid)
    requires Reachable(s) && s.clock <= now && InState(s, id, RecoveryRequired)
    requires k in s.attempts && k.job == id && RecordsFlood(s.attempts[k])
    requires IsRun(ReclassifyFloodWaits(s, d, now), ops) && OpRetry(id) !in ops
    requires Enabled(After(ReclassifyFloodWaits(s, d, now), ops), OpClaim(t, Some(id), lease))
    ensures RetryAt(d, now) <= t.t4
    ensures d <= U64_MAX && 0 <= now && now + Max(d, 1) <= I64_MAX ==> now + Max(d, 1) <= t.t4
  {
    ReachableIsSafe(s);
    var s1 := ReclassifyFloodWaits(s, d, now);
    ReclassifyIsStep(s, d, now);
    ReclassifyPauses(s, d, now, id, k);
    PausedIsNotClaimed(s1, ops, id, RetryAt(d, now), t, lease);
    if d <= U64_MAX && 0 <= now && now + Max(d, 1) <= I64_MAX {
      RetryAtIsTheDelay(d, now);
    }
  }
}
