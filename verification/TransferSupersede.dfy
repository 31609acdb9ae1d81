/**
 The "superseded by a newer committed write" update of `claim_transfer`.

 It is written as a defensive rule that should never fire: a newer job only completes when
 all older ones are finished.  But it takes a `cleaned` job for a committed one, and the
 staging clean-up also turns cancelled, failed and superseded jobs into `cleaned`.
 */
module TransferSupersede {
  import opened Basics
  import opened TransferModel
  import opened TransferRuns
  import opened TransferSafety
  import opened TransferSteps
  import opened TransferInvariant

  /** The state in which the update runs. */
  function BeforeSupersede(s: Db, t: ClaimTimes): Db {
    CancelClosedSessions(MarkLostSendsUnknown(FenceLostSends(ExpireReceptions(s, t.t1), t.t2), t.t3))
  }

  lemma BeforeSupersedeIsStep(s: Db, t: ClaimTimes)
    requires Inv(s)
    ensures Step(s, BeforeSupersede(s, t)) && CleansNothing(s, BeforeSupersede(s, t))
  {
    var s1 := ExpireReceptions(s, t.t1);
    ExpireReceptionsIsLegal(s, t.t1);
    LawIsStep(s, s1);
    var s2 := FenceLostSends(s1, t.t2);
    FenceLostSendsIsLegal(s1, t.t2);
    NextStep(s, s1, s2);
    var s3 := MarkLostSendsUnknown(s2, t.t3);
    MarkLostSendsIsLegal(s2, t.t3);
    NextStep(s, s2, s3);
    CancelClosedIsLegal(s3);
    NextStep(s, s3, CancelClosedSessions(s3));
  }

  /** A newer job for the same object was cleaned although no worker ever claimed it. */
  predicate HasNewerPhantom(jobs: map<Uuid, Job>, id: Uuid)
    requires id in jobs
  {
    exists n :: n in jobs && SameKey(jobs[n], jobs[id]) && jobs[n].sequence > jobs[id].sequence
      && jobs[n].state == Cleaned && jobs[n].attempts == 0
  }

  lemma SupersededExactly(s: Db, id: Uuid)
    requires Inv(s) && id in s.jobs
    ensures IsSuperseded(s.jobs, id) <==>
              s.jobs[id].state in {Queued, RetryWait, Uploading, Committing, RecoveryRequired}
                && HasNewerPhantom(s.jobs, id)
  {
  }

  /** What the four earlier updates make of one row. */
  function RowBefore(j: Job, t: ClaimTimes, open: bool, closed: bool): Job {
    var j := FenceRow(ExpireRow(j, t.t1), t.t2, open);
    CancelRow(j, closed && j.state in {Queued, RetryWait, RecoveryRequired})
  }

  lemma BeforeIsRowByRow(s: Db, t: ClaimTimes, id: Uuid)
    requires id in s.jobs
    ensures BeforeSupersede(s, t).jobs.Keys == s.jobs.Keys
    ensures BeforeSupersede(s, t).jobs[id]
      == RowBefore(s.jobs[id], t, HasUnsettled(s.attempts, id), SessionClosedFor(s, id))
  {
    var s1 := ExpireReceptions(s, t.t1);
    var s2 := FenceLostSends(s1, t.t2);
    var s3 := MarkLostSendsUnknown(s2, t.t3);
    assert s1.jobs[id] == ExpireRow(s.jobs[id], t.t1);
    assert s2.jobs[id] == FenceRow(s1.jobs[id], t.t2, HasUnsettled(s.attempts, id));
    assert SessionClosedFor(s3, id) <==> SessionClosedFor(s, id);
  }

  /** Expiry, fencing and session cancellation leave the job unfinished and past its reception. */
  predicate StaysOutstanding(j: Job, t: ClaimTimes, open: bool, closed: bool) {
    if Active(j.state) then !(j.leaseUntil < t.t2 && open && closed)
    else (j.state in {Queued, RetryWait, RecoveryRequired} || (j.state == Receiving && j.leaseUntil < t.t1)) && !closed
  }

  predicate Outstanding(s: Db, t: ClaimTimes, id: Uuid)
    requires id in s.jobs
  {
    StaysOutstanding(s.jobs[id], t, HasUnsettled(s.attempts, id), SessionClosedFor(s, id))
  }

  lemma RowBeforeStates(j: Job, t: ClaimTimes, open: bool, closed: bool)
    ensures var j' := RowBefore(j, t, open, closed);
            && SameKey(j', j) && j'.sequence == j.sequence && j'.attempts == j.attempts
            && (j'.state in {Queued, RetryWait, Uploading, Committing, RecoveryRequired} <==>
                StaysOutstanding(j, t, open, closed))
            && (j'.state == Superseded <==> j.state == Superseded)
            && (j'.state == Cleaned <==> j.state == Cleaned)
  {
  }

  lemma PhantomsBefore(s: Db, t: ClaimTimes, id: Uuid)
    requires id in s.jobs
    ensures id in BeforeSupersede(s, t).jobs
    ensures HasNewerPhantom(BeforeSupersede(s, t).jobs, id) <==> HasNewerPhantom(s.jobs, id)
  {
    var m := BeforeSupersede(s, t);
    forall o | o in s.jobs
      ensures o in m.jobs && SameKey(m.jobs[o], s.jobs[o]) && m.jobs[o].sequence == s.jobs[o].sequence
      ensures m.jobs[o].attempts == s.jobs[o].attempts && (m.jobs[o].state == Cleaned <==> s.jobs[o].state == Cleaned)
    {
      BeforeIsRowByRow(s, t, o);
      RowBeforeStates(s.jobs[o], t, HasUnsettled(s.attempts, o), SessionClosedFor(s, o));
    }
    BeforeIsRowByRow(s, t, id);
  }

  /**
   What a claim supersedes, read from the state before it: an outstanding job is dropped
   exactly when a newer job of its object was cleaned without ever being granted.
   */
  lemma SupersedeNeedsPhantom(s: Db, t: ClaimTimes, id: Uuid)
    requires Reachable(s) && id in s.jobs
    ensures id in Prepared(s, t).jobs
    ensures Prepared(s, t).jobs[id].state == Superseded <==>
              s.jobs[id].state == Superseded || (Outstanding(s, t, id) && HasNewerPhantom(s.jobs, id))
  {
    ReachableIsSafe(s);
    BeforeSupersedeIsStep(s, t);
    BeforeIsRowByRow(s, t, id);
    RowBeforeStates(s.jobs[id], t, HasUnsettled(s.attempts, id), SessionClosedFor(s, id));
    PhantomsBefore(s, t, id);
    SupersededExactly(BeforeSupersede(s, t), id);
    SupersededRow(BeforeSupersede(s, t), id);
  }

  lemma SupersededRow(m: Db, id: Uuid)
    requires id in m.jobs
    ensures id in SupersedeOlder(m).jobs
    ensures SupersedeOlder(m).jobs[id] == SupersedeRow(m.jobs[id], IsSuperseded(m.jobs, id))
  {
  }

  // ---- the rule does fire --------------------------------------------------

  /** The job is finished as superseded, yet no job for its object ever reached Telegram. */
  ghost predicate DroppedUnpublished(s: Db, id: Uuid) {
    && id in s.jobs && s.jobs[id].state == Superseded
    && forall o :: o in s.jobs && SameKey(s.jobs[o], s.jobs[id]) ==> s.jobs[o].attempts == 0
  }

  /** One upload of a key is accepted; a second breaks off and its staging is cleaned. */
  ghost function PhantomRun(a: Uuid, b: Uuid, connection: Uuid, bucket: string, key: string, operation: Uuid,
                            now: int): seq<Op>
  {
    [OpBegin(a, connection, bucket, key, true, now), OpQueue(a, operation, 1, now),
     OpBegin(b, connection, bucket, key, true, now),
     OpFailReception(b, true, now), OpClean(b)]
  }

  lemma PhantomRunArrives(a: Uuid, b: Uuid, connection: Uuid, bucket: string, key: string, operation: Uuid, now: int)
    requires a != b && 0 <= now
    ensures var ops := PhantomRun(a, b, connection, bucket, key, operation, now);
            && IsRun(EMPTY, ops)
            && var s := After(EMPTY, ops);
               && s.attempts == map[] && s.parts == map[] && s.jobs.Keys == {a, b} && s.clock == now && s.leases == {}
               && s.jobs[a].state == Queued && s.jobs[b].state == Cleaned
               && SameKey(s.jobs[b], s.jobs[a]) && s.jobs[b].sequence > s.jobs[a].sequence
               && s.jobs[a].attempts == 0 && s.jobs[b].attempts == 0
  {
    var ops := PhantomRun(a, b, connection, bucket, key, operation, now);
    var s1 := BeginTransfer(EMPTY, a, connection, bucket, key, true, now);
    var s2 := QueueTransfer(s1, a, operation, 1, now);
    var s3 := BeginTransfer(s2, b, connection, bucket, key, true, now);
    var s4 := FailReception(s3, b, true, now);
    var s5 := CleanStaging(s4, b);
    RunOf5(EMPTY, s1, s2, s3, s4, s5, ops);
  }

  /** With nothing receiving, sending or in a session, only the supersede update can act. */
  lemma QuietBeforeSupersede(s: Db, t: ClaimTimes)
    requires s.attempts == map[] && s.parts == map[] && forall id :: id in s.jobs ==> s.jobs[id].state != Receiving
    ensures BeforeSupersede(s, t) == s
  {
  }

  lemma PhantomDrops(s: Db, t: ClaimTimes, id: Uuid, n: Uuid)
    requires s.attempts == map[] && s.parts == map[] && s.jobs.Keys == {id, n}
    requires s.jobs[id].state == Queued && s.jobs[n].state == Cleaned
    requires SameKey(s.jobs[n], s.jobs[id]) && s.jobs[n].sequence > s.jobs[id].sequence
    ensures var p := Prepared(s, t);
            && p.jobs.Keys == {id, n} && p.jobs[n] == s.jobs[n]
            && p.jobs[id] == s.jobs[id].(state := Superseded, lease := None, leaseUntil := 0)
  {
    QuietBeforeSupersede(s, t);
    assert Prepared(s, t) == SupersedeOlder(s);
  }

  lemma NothingLeft(p: Db, id: Uuid, n: Uuid, now: int, clock: int)
    requires p.jobs.Keys == {id, n} && p.jobs[id].state == Superseded && p.jobs[n].state == Cleaned
    requires p.jobs[id].attempts == p.jobs[n].attempts == 0
    ensures IsPick(p, None, now) && DroppedUnpublished(p.(clock := clock), id)
  {
  }

  lemma ClaimDrops(s: Db, t: ClaimTimes, id: Uuid, n: Uuid, lease: Uuid)
    requires s.attempts == map[] && s.parts == map[] && s.jobs.Keys == {id, n} && s.leases == {} && Ordered(s.clock, t)
    requires s.jobs[id].state == Queued && s.jobs[n].state == Cleaned && s.jobs[id].attempts == s.jobs[n].attempts == 0
    requires SameKey(s.jobs[n], s.jobs[id]) && s.jobs[n].sequence > s.jobs[id].sequence
    ensures Enabled(s, OpClaim(t, None, lease))
    ensures DroppedUnpublished(Apply(s, OpClaim(t, None, lease)), id)
  {
    PhantomDrops(s, t, id, n);
    NothingLeft(Prepared(s, t), id, n, t.t4, t.t5);
  }

  /**
   The rule does fire: an upload is accepted and queued, a second upload of the same key
   breaks off, its staging is cleaned, and the next claim drops the accepted write.
   */
  lemma AcceptedWriteIsDropped(a: Uuid, b: Uuid, connection: Uuid, bucket: string, key: string, operation: Uuid,
                               lease: Uuid, now: int)
    requires a != b && 0 <= now
    ensures var ops := PhantomRun(a, b, connection, bucket, key, operation, now);
            && IsRun(EMPTY, ops)
            && var claim := OpClaim(ClaimTimes(now, now, now, now, now), None, lease);
               && Enabled(After(EMPTY, ops), claim)
               && DroppedUnpublished(Apply(After(EMPTY, ops), claim), a)
  {
    PhantomRunArrives(a, b, connection, bucket, key, operation, now);
    var s := After(EMPTY, PhantomRun(a, b, connection, bucket, key, operation, now));
    ClaimDrops(s, ClaimTimes(now, now, now, now, now), a, b, lease);
  }

  lemma RunOf5(s0: Db, s1: Db, s2: Db, s3: Db, s4: Db, s5: Db, ops: seq<Op>)
    requires |ops| == 5
    requires Enabled(s0, ops[0]) && s1 == Apply(s0, ops[0])
    requires Enabled(s1, ops[1]) && s2 == Apply(s1, ops[1])
    requires Enabled(s2, ops[2]) && s3 == Apply(s2, ops[2])
    requires Enabled(s3, ops[3]) && s4 == Apply(s3, ops[3])
    requires Enabled(s4, ops[4]) && s5 == Apply(s4, ops[4])
    ensures IsRun(s0, ops) && After(s0, ops) == s5
  {
    assert ops[4..][1..] == [] && IsRun(s5, ops[4..][1..]) && After(s5, ops[4..][1..]) == s5;
    assert IsRun(s4, ops[4..]) && After(s4, ops[4..]) == s5;
    assert ops[3..][1..] == ops[4..] && IsRun(s3, ops[3..]) && After(s3, ops[3..]) == s5;
    assert ops[2..][1..] == ops[3..] && IsRun(s2, ops[2..]) && After(s2, ops[2..]) == s5;
    assert ops[1..][1..] == ops[2..] && IsRun(s1, ops[1..]) && After(s1, ops[1..]) == s5;
  }

  // ---- exactly when it cannot ----------------------------------------------

  predicate Cleanable(s: Db, id: Uuid) {
    id in s.jobs && s.jobs[id].state in {Completed, Cancelled, ReceptionFailed, Superseded}
  }

  /** Cleaning one job dooms exactly the older unfinished jobs of its object, and only if it was never claimed. */
  lemma CleanDoomsExactly(s: Db, id: Uuid, o: Uuid)
    requires Reachable(s) && Cleanable(s, id) && o in s.jobs && !IsSuperseded(s.jobs, o)
    ensures IsSuperseded(CleanStaging(s, id).jobs, o) <==>
              && s.jobs[id].attempts == 0
              && SameKey(s.jobs[id], s.jobs[o]) && s.jobs[o].sequence < s.jobs[id].sequence
              && s.jobs[o].state in {Queued, RetryWait, Uploading, Committing, RecoveryRequired}
  {
    ReachableIsSafe(s);
    CleanIsLawful(s, id);
    LawIsStep(s, CleanStaging(s, id));
    SupersededExactly(s, o);
    SupersededExactly(CleanStaging(s, id), o);
    PhantomsAfterClean(s, CleanStaging(s, id), id, o);
  }

  lemma PhantomsAfterClean(s: Db, s': Db, id: Uuid, o: Uuid)
    requires Cleanable(s, id) && o in s.jobs && s'.jobs == s.jobs[id := s.jobs[id].(state := Cleaned, bytes := 0)]
    ensures HasNewerPhantom(s'.jobs, o) <==>
              HasNewerPhantom(s.jobs, o)
              || (s.jobs[id].attempts == 0 && SameKey(s.jobs[id], s.jobs[o])
                  && s.jobs[o].sequence < s.jobs[id].sequence)
  {
    if s.jobs[id].attempts == 0 && SameKey(s.jobs[id], s.jobs[o]) && s.jobs[o].sequence < s.jobs[id].sequence {
      assert s'.jobs[id].state == Cleaned && s'.jobs[id].attempts == 0;
    }
    if HasNewerPhantom(s.jobs, o) {
      var n :| n in s.jobs && SameKey(s.jobs[n], s.jobs[o]) && s.jobs[n].sequence > s.jobs[o].sequence
        && s.jobs[n].state == Cleaned && s.jobs[n].attempts == 0;
      assert s'.jobs[n] == s.jobs[n];
    }
  }

  /** No cleaned, never-claimed job has an unfinished older job for its object. */
  ghost predicate NoPhantom(s: Db) {
    forall n :: n in s.jobs && s.jobs[n].state == Cleaned && s.jobs[n].attempts == 0 ==> OlderSettled(s, n)
  }

  /** The check a clean-up would have to make: leave a never-claimed job alone while an older one is open. */
  ghost predicate CleanIsGuarded(s: Db, op: Op) {
    op.OpClean? && op.id in s.jobs && s.jobs[op.id].attempts == 0 ==> OlderSettled(s, op.id)
  }

  ghost predicate IsGuardedRun(s: Db, ops: seq<Op>)
    requires IsRun(s, ops)
    decreases |ops|
  {
    ops == [] || (CleanIsGuarded(s, ops[0]) && IsGuardedRun(Apply(s, ops[0]), ops[1..]))
  }

  lemma GuardedCleanKeepsNoPhantom(s: Db, s': Db, id: Uuid)
    requires Inv(s) && NoPhantom(s) && JobsOnward(s, s') && s' == CleanStaging(s, id)
    requires id in s.jobs && s.jobs[id].attempts == 0 ==> OlderSettled(s, id)
    ensures NoPhantom(s')
  {
  }

  lemma GuardedStepKeepsNoPhantom(s: Db, op: Op)
    requires Inv(s) && NoPhantom(s) && Enabled(s, op) && CleanIsGuarded(s, op)
    ensures NoPhantom(Apply(s, op))
  {
    ApplyIsStep(s, op);
    if op.OpClean? {
      GuardedCleanKeepsNoPhantom(s, Apply(s, op), op.id);
    } else {
      StepKeepsNoPhantom(s, Apply(s, op));
    }
  }

  lemma {:induction false} GuardedRunKeepsNoPhantom(s: Db, ops: seq<Op>)
    requires Inv(s) && NoPhantom(s) && IsRun(s, ops) && IsGuardedRun(s, ops)
    ensures Inv(After(s, ops)) && NoPhantom(After(s, ops))
    decreases |ops|
  {
    if ops != [] {
      ApplyIsStep(s, ops[0]);
      GuardedStepKeepsNoPhantom(s, ops[0]);
      GuardedRunKeepsNoPhantom(Apply(s, ops[0]), ops[1..]);
    }
  }

  lemma NoPhantomNoSupersede(s: Db, id: Uuid)
    requires Inv(s) && NoPhantom(s)
    ensures !IsSuperseded(s.jobs, id)
  {
    if id in s.jobs {
      SupersededExactly(s, id);
    }
  }

  lemma StepKeepsNoPhantom(s: Db, s': Db)
    requires Inv(s) && NoPhantom(s) && Step(s, s') && CleansNothing(s, s')
    ensures NoPhantom(s')
  {
  }

  /** In every run whose clean-ups make that check, no claim supersedes a job. */
  lemma GuardedRunsNeverSupersede(ops: seq<Op>, t: ClaimTimes, id: Uuid)
    requires IsRun(EMPTY, ops) && IsGuardedRun(EMPTY, ops) && id in After(EMPTY, ops).jobs
    ensures var s := After(EMPTY, ops);
            && id in Prepared(s, t).jobs
            && (Prepared(s, t).jobs[id].state == Superseded <==> s.jobs[id].state == Superseded)
  {
    GuardedRunKeepsNoPhantom(EMPTY, ops);
    var s := After(EMPTY, ops);
    BeforeSupersedeIsStep(s, t);
    StepKeepsNoPhantom(s, BeforeSupersede(s, t));
    NoPhantomNoSupersede(BeforeSupersede(s, t), id);
    BeforeIsRowByRow(s, t, id);
    RowBeforeStates(s.jobs[id], t, HasUnsettled(s.attempts, id), SessionClosedFor(s, id));
    SupersededRow(BeforeSupersede(s, t), id);
  }
}
