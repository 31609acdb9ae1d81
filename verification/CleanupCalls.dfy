/** What each cleanup call promises the caller who makes it in a state some run has reached. */
module CleanupCalls {
  import opened Basics
  import opened CleanupModel
  import opened CleanupSafety

  // ---- reached states ------------------------------------------------------

  /** Holds the empty outbox and is closed under every call the environment may make. */
  ghost predicate Closed(states: iset<Outbox>) {
    EMPTY in states && forall o, op :: o in states && Enabled(o, op) ==> Apply(o, op) in states
  }

  /** In every closed set of states, so in the least one. */
  ghost predicate InEveryClosed(o: Outbox) {
    forall states: iset<Outbox> :: Closed(states) ==> o in states
  }

  type Reached = o: Outbox | InEveryClosed(o) ghost witness EMPTY

  ghost function Call(o: Reached, op: Op): (o': Reached)
    requires Enabled(o, op)
    ensures o' == Apply(o, op)
  {
    Apply(o, op)
  }

  lemma {:induction false} ExtendRun(o: Outbox, ops: seq<Op>, op: Op)
    requires IsRun(o, ops) && Enabled(After(o, ops), op)
    ensures IsRun(o, ops + [op]) && After(o, ops + [op]) == Apply(After(o, ops), op)
    decreases |ops|
  {
    if ops == [] {
      assert ops + [op] == [op] && [op][1..] == [];
      assert IsRun(Apply(o, op), []) && After(Apply(o, op), []) == Apply(o, op);
    } else {
      ExtendRun(Apply(o, ops[0]), ops[1..], op);
      assert (ops + [op])[0] == ops[0] && (ops + [op])[1..] == ops[1..] + [op];
    }
  }

  lemma RunsAreClosed()
    ensures Closed(iset o | Reachable(o))
  {
    assert IsRun(EMPTY, []) && After(EMPTY, []) == EMPTY;
    forall o, op | Reachable(o) && Enabled(o, op)
      ensures Reachable(Apply(o, op))
    {
      var ops :| IsRun(EMPTY, ops) && After(EMPTY, ops) == o;
      ExtendRun(EMPTY, ops, op);
    }
  }

  lemma {:induction false} RunStaysClosed(states: iset<Outbox>, o: Outbox, ops: seq<Op>)
    requires Closed(states) && o in states && IsRun(o, ops)
    ensures After(o, ops) in states
    decreases |ops|
  {
    if ops != [] {
      RunStaysClosed(states, Apply(o, ops[0]), ops[1..]);
    }
  }

  /** The two readings of "some run reaches it" agree. */
  lemma ReachedMeansReachable(o: Outbox)
    ensures InEveryClosed(o) <==> Reachable(o)
  {
    if InEveryClosed(o) {
      RunsAreClosed();
      assert o in iset o | Reachable(o);
    }
    if Reachable(o) {
      var ops :| IsRun(EMPTY, ops) && After(EMPTY, ops) == o;
      forall states: iset<Outbox> | Closed(states)
        ensures o in states
      {
        RunStaysClosed(states, EMPTY, ops);
      }
    }
  }

  // ---- what a caller can rely on -------------------------------------------

  predicate HasStoredEvidence(o: Outbox, item: string) {
    exists e :: e in o.targets && o.targets[e].item == item && o.targets[e].kind == Evidence && o.targets[e].completed
  }

  /** A worker may take the row: it waits and is due, or its lease ran out with nothing to reconcile. */
  predicate MayBeClaimed(o: Outbox, id: nat, now: int) {
    && id in o.targets && !o.targets[id].completed
    && (match o.targets[id].state
        case Pending => o.targets[id].dueAt <= now && o.targets[id].nextRetry <= now
        case RetryWait => o.targets[id].dueAt <= now && o.targets[id].nextRetry <= now
        case Running =>
          o.targets[id].leaseUntil < now && (o.targets[id].kind == Evidence ==> o.targets[id].token == None)
        case RecoveryRequired => false
        case Completed => false)
    && (o.targets[id].kind == Message ==> HasStoredEvidence(o, o.targets[id].item))
  }

  lemma ClaimableExactly(o: Outbox, id: nat, now: int)
    ensures Claimable(o, id, now) <==> MayBeClaimed(o, id, now)
    ensures ClaimableEvidence(o, id, now) <==> MayBeClaimed(o, id, now) && o.targets[id].kind == Evidence
  {
  }

  /** Evidence before messages, the lowest row first, and none only when there is none. */
  ghost predicate IsFirst(o: Outbox, pick: Option<nat>, now: int) {
    && (pick.Some? ==> MayBeClaimed(o, pick.value, now))
    && forall i :: MayBeClaimed(o, i, now) ==>
         && pick.Some? && pick.value in o.targets
         && (o.targets[i].kind == Evidence ==> o.targets[pick.value].kind == Evidence)
         && (o.targets[i].kind == o.targets[pick.value].kind ==> pick.value <= i)
  }

  lemma ChoiceIsFirst(o: Outbox, pick: Option<nat>, now: int)
    requires IsChoice(o, pick, now)
    ensures IsFirst(o, pick, now)
  {
    forall i
      ensures Claimable(o, i, now) <==> MayBeClaimed(o, i, now)
      ensures ClaimableEvidence(o, i, now) <==> MayBeClaimed(o, i, now) && o.targets[i].kind == Evidence
    {
      ClaimableExactly(o, i, now);
    }
  }

  ghost predicate NotClaimedBefore(o: Outbox, id: nat, start: int) {
    forall t :: t < start ==> !MayBeClaimed(o, id, t)
  }

  ghost predicate NeverClaimable(o: Outbox, id: nat) {
    forall t :: !MayBeClaimed(o, id, t)
  }

  /** The row can be claimed from its due and retry times on, a message only after its evidence. */
  ghost predicate ClaimableWhenDue(o: Outbox, id: nat, retryAt: int) {
    && id in o.targets
    && forall t :: MayBeClaimed(o, id, t) <==>
         && o.targets[id].dueAt <= t && retryAt <= t
         && (o.targets[id].kind == Message ==> HasStoredEvidence(o, o.targets[id].item))
  }

  /** The row is running under this lease. */
  predicate IsRunBy(o: Outbox, id: nat, lease: Uuid) {
    id in o.targets && o.targets[id].lease == Some(lease) && o.targets[id].state == Running
  }

  predicate IsOpenEvidence(t: Target) {
    !t.completed && t.kind == Evidence
  }

  /** The item has an evidence row, and every message a row of its own. */
  ghost predicate Enqueued(o: Outbox, item: string, slots: seq<Slot>) {
    HasEvidence(o, item) && forall i :: 0 <= i < |slots| ==> Taken(o, slots[i])
  }

  function WaitingMessage(item: string, slot: Slot, dueAt: int): Target {
    Target(item, slot.peer, slot.message, Message, dueAt, Pending, false, 0, 0, None, 0, None)
  }

  /** Rows there already are kept, and every new one waits for its due time: the evidence or one of the messages. */
  ghost predicate OnlyAdds(o: Outbox, o': Outbox, item: string, slots: seq<Slot>, dueAt: int) {
    && (forall id :: id in o.targets ==> id in o'.targets && o'.targets[id] == o.targets[id])
    && (forall id :: id in o'.targets && id !in o.targets ==>
          || o'.targets[id] == Target(item, "evidence:" + item, 0, Evidence, dueAt, Pending, false, 0, 0, None, 0, None)
          || exists i :: 0 <= i < |slots| && o'.targets[id] == WaitingMessage(item, slots[i], dueAt))
  }

  lemma {:induction false} MessagesOnlyAdd(o: Outbox, item: string, slots: seq<Slot>, dueAt: int)
    requires forall id :: id in o.targets ==> id < o.nextId
    ensures var o' := InsertMessages(o, item, slots, dueAt);
            && o.nextId <= o'.nextId && (forall id :: id in o'.targets ==> id < o'.nextId)
            && (forall id :: id in o.targets ==> id in o'.targets && o'.targets[id] == o.targets[id])
            && (forall id :: id in o'.targets && id !in o.targets ==>
                  exists i :: 0 <= i < |slots| && o'.targets[id] == WaitingMessage(item, slots[i], dueAt))
    decreases |slots|
  {
    if slots != [] {
      var front := slots[..|slots| - 1];
      MessagesOnlyAdd(o, item, front, dueAt);
      var o1, o' := InsertMessages(o, item, front, dueAt), InsertMessages(o, item, slots, dueAt);
      forall id | id in o'.targets && id !in o.targets
        ensures exists i :: 0 <= i < |slots| && o'.targets[id] == WaitingMessage(item, slots[i], dueAt)
      {
        if id in o1.targets {
          var i :| 0 <= i < |front| && o1.targets[id] == WaitingMessage(item, front[i], dueAt);
          assert front[i] == slots[i];
        }
      }
    }
  }

  lemma EnqueueOnlyAdds(o: Reached, item: string, slots: seq<Slot>, dueAt: int)
    ensures OnlyAdds(o, Enqueue(o, item, slots, dueAt), item, slots, dueAt)
  {
    ReachedMeansReachable(o);
    ReachableIsSafe(o);
    MessagesOnlyAdd(Insert(o, item, EvidenceSlot(item), Evidence, dueAt), item, slots, dueAt);
  }

  /** The claimed row is ours until the lease ends; a message comes only after its evidence. */
  ghost predicate Granted(o: Outbox, id: nat, lease: Uuid, until: int) {
    && Holds(o, id, lease) && !o.targets[id].completed && NotClaimedBefore(o, id, until + 1)
    && (o.targets[id].kind == Message ==> HasStoredEvidence(o, o.targets[id].item))
  }

  /** Once the upload of evidence has begun, only reconciliation settles it after the lease. */
  ghost predicate LeftToReconciliation(o: Outbox, id: nat) {
    && id in o.targets && NeverClaimable(o, id)
    && forall t :: AwaitsReconciliation(o, id, t) <==> o.targets[id].leaseUntil < t
  }

  predicate OpenMessage(o: Outbox, id: nat, item: string) {
    id in o.targets && o.targets[id].item == item && o.targets[id].kind == Message && !o.targets[id].completed
  }

  /** Every waiting message of the item can be claimed as soon as it is due. */
  ghost predicate MessagesAreOpen(o: Outbox, item: string) {
    && HasStoredEvidence(o, item)
    && forall id :: OpenMessage(o, id, item) && o.targets[id].state in {Pending, RetryWait} ==>
         ClaimableWhenDue(o, id, o.targets[id].nextRetry)
  }

  /** Waiting rows of the item are due at once; every other row is as it was. */
  ghost predicate MadeDue(o: Outbox, o': Outbox, item: string, now: int) {
    && o'.targets.Keys == o.targets.Keys
    && forall id :: id in o.targets ==>
         if o.targets[id].item == item && !o.targets[id].completed && o.targets[id].state in {Pending, RetryWait}
         then o'.targets[id] == o.targets[id].(dueAt := now, nextRetry := 0)
         else o'.targets[id] == o.targets[id]
  }

  lemma EnqueueIsComplete(o: Reached, item: string, slots: seq<Slot>, dueAt: int)
    requires ArePeers(slots)
    ensures Enqueued(Enqueue(o, item, slots, dueAt), item, slots)
  {
    ReachedMeansReachable(o);
    ReachableIsSafe(o);
    EnqueueRecordsAll(o, item, slots, dueAt);
  }

  lemma ClaimIsGranted(o: Outbox, id: nat, lease: Uuid, now: int)
    requires IsChoice(o, Some(id), now)
    ensures Granted(Claim(o, Some(id), lease, now), id, lease, now + LEASE_SECS)
  {
    var o' := Claim(o, Some(id), lease, now);
    if o.targets[id].kind == Message {
      var e :| e in o.targets && o.targets[e].item == o.targets[id].item && o.targets[e].kind == Evidence
        && o.targets[e].completed;
      assert o'.targets[e] == o.targets[e];
    }
  }

  lemma BegunEvidenceIsLeft(o: Outbox, id: nat, lease: Uuid, token: Uuid)
    requires Holds(o, id, lease) && !o.targets[id].completed && o.targets[id].kind == Evidence
    ensures LeftToReconciliation(BeginEvidence(o, id, lease, token), id)
  {
  }

  /** Whatever is completed, evidence of its object is stored. */
  lemma CompletedHasEvidence(o: Reached, id: nat, lease: Uuid)
    requires Holds(o, id, lease)
    ensures var o' := Complete(o, id, lease);
            id in o'.targets && o'.targets[id].completed && HasStoredEvidence(o', o'.targets[id].item)
  {
    ReachedMeansReachable(o);
    var o' := Complete(o, id, lease);
    if o.targets[id].kind == Message {
      NoMessageBeforeEvidence(o, id);
      var e :| e in o.targets && o.targets[e].item == o.targets[id].item && o.targets[e].kind == Evidence
        && o.targets[e].completed;
      assert o'.targets[e] == o.targets[e];
    } else {
      assert o'.targets[id].kind == Evidence;
    }
  }

  lemma FailedIsClaimableWhenDue(o: Reached, id: nat, lease: Uuid, retryAfter: nat, now: int)
    requires Holds(o, id, lease)
    ensures ClaimableWhenDue(Fail(o, id, lease, retryAfter, now), id, SaturatingAdd(now, AsI64(retryAfter)))
  {
    ReachedMeansReachable(o);
    ReachableIsSafe(o);
    var o' := Fail(o, id, lease, retryAfter, now);
    assert RowOk(o.targets[id], o.leases);
    assert o'.targets[id].state == RetryWait && !o'.targets[id].completed;
  }

  /** A quarantined row is never claimed; reconciliation lists it exactly when evidence may have been uploaded. */
  lemma QuarantinedIsHeld(o: Reached, id: nat, lease: Uuid)
    requires Holds(o, id, lease)
    ensures var o' := Quarantine(o, id, lease);
            && id in o'.targets && NeverClaimable(o', id)
            && (forall t :: AwaitsReconciliation(o', id, t) <==> !Stranded(o'.targets[id]))
  {
    ReachedMeansReachable(o);
    ReachableIsSafe(o);
    assert RowOk(o.targets[id], o.leases);
  }

  lemma ResolvedOpensMessages(o: Outbox, id: nat)
    requires OpenEvidence(o, id)
    ensures MessagesAreOpen(ResolveEvidence(o, id), o.targets[id].item)
  {
    var o' := ResolveEvidence(o, id);
    assert o'.targets[id].kind == Evidence && o'.targets[id].completed;
  }

  lemma RetriedIsClaimable(o: Outbox, id: nat, now: int)
    requires OpenEvidence(o, id)
    ensures forall t :: MayBeClaimed(RetryEvidence(o, id, now), id, t) <==> Max(now, 0) <= t
  {
  }

  lemma MakeDueMakesDue(o: Outbox, item: string, now: int)
    ensures MadeDue(o, MakeDue(o, item, now), item, now)
  {
  }

  /** Due now: claimable, or a running evidence upload whose lease ran out. */
  ghost predicate CountsAsDue(o: Outbox, id: nat, now: int) {
    || MayBeClaimed(o, id, now)
    || (id in o.targets && o.targets[id].kind == Evidence && o.targets[id].token.Some?
        && o.targets[id].state == Running && o.targets[id].leaseUntil < now)
  }

  lemma GaugesPartition(o: Reached, now: int)
    ensures var g := Measure(o, now); g.due + g.scheduled + g.recoveryRequired == g.backlog
    ensures Due(o, now) == set id | id in o.targets.Keys && CountsAsDue(o, id, now)
  {
    ReachedMeansReachable(o);
    GaugesSumToBacklog(o, now);
    ReachableIsSafe(o);
    forall id | id in o.targets
      ensures IsDue(o, id, now) <==> CountsAsDue(o, id, now)
    {
      assert RowOk(o.targets[id], o.leases);
    }
  }
}
