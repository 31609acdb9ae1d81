/** What every run of the cleanup outbox keeps. */
module CleanupSafety {
  import opened Basics
  import opened CleanupModel

  // ---- runs ----------------------------------------------------------------

  datatype Op =
    | OpEnqueue(item: string, slots: seq<Slot>, dueAt: int)
    | OpClaim(pick: Option<nat>, lease: Uuid, now: int)
    | OpBeginEvidence(id: nat, lease: Uuid, token: Uuid)
    | OpComplete(id: nat, lease: Uuid)
    | OpFail(id: nat, lease: Uuid, retryAfter: nat, now: int)
    | OpQuarantine(id: nat, lease: Uuid)
    | OpResolve(id: nat)
    | OpRetryEvidence(id: nat, now: int)
    | OpMakeDue(item: string, now: int)

  predicate IsPeer(peer: string) {
    !(EVIDENCE_PREFIX <= peer)
  }

  predicate ArePeers(slots: seq<Slot>) {
    forall i :: 0 <= i < |slots| ==> IsPeer(slots[i].peer)
  }

  predicate HasToken(o: Outbox, id: nat) {
    id in o.targets && o.targets[id].token.Some?
  }

  /**
   Leases are fresh, the claim query returns the row the SQL orders first, no Telegram peer is
   named like an evidence slot, and only rows listed with a token are reconciled.
   */
  ghost predicate Enabled(o: Outbox, op: Op) {
    match op
    case OpEnqueue(_, slots, _) => ArePeers(slots)
    case OpClaim(pick, lease, now) => lease !in o.leases && IsChoice(o, pick, now)
    case OpResolve(id) => HasToken(o, id)
    case OpRetryEvidence(id, _) => HasToken(o, id)
    case _ => true
  }

  ghost function Apply(o: Outbox, op: Op): Outbox
    requires Enabled(o, op)
  {
    match op
    case OpEnqueue(item, slots, dueAt) => Enqueue(o, item, slots, dueAt)
    case OpClaim(pick, lease, now) => Claim(o, pick, lease, now)
    case OpBeginEvidence(id, lease, token) => BeginEvidence(o, id, lease, token)
    case OpComplete(id, lease) => Complete(o, id, lease)
    case OpFail(id, lease, retryAfter, now) => Fail(o, id, lease, retryAfter, now)
    case OpQuarantine(id, lease) => Quarantine(o, id, lease)
    case OpResolve(id) => ResolveEvidence(o, id)
    case OpRetryEvidence(id, now) => RetryEvidence(o, id, now)
    case OpMakeDue(item, now) => MakeDue(o, item, now)
  }

  ghost predicate IsRun(o: Outbox, ops: seq<Op>)
    decreases |ops|
  {
    ops == [] || (Enabled(o, ops[0]) && IsRun(Apply(o, ops[0]), ops[1..]))
  }

  ghost function After(o: Outbox, ops: seq<Op>): Outbox
    requires IsRun(o, ops)
    decreases |ops|
  {
    if ops == [] then o else After(Apply(o, ops[0]), ops[1..])
  }

  ghost predicate Reachable(o: Outbox) {
    exists ops :: IsRun(EMPTY, ops) && After(EMPTY, ops) == o
  }

  // ---- the invariant -------------------------------------------------------

  /** A row no worker and no reconciliation will ever pick up again. */
  predicate Stranded(t: Target) {
    t.state == RecoveryRequired && (t.kind == Message || t.token.None?)
  }

  predicate RowOk(t: Target, leases: set<Uuid>) {
    && (t.completed <==> t.state == Completed)
    && (t.lease.Some? <==> t.state == Running)
    && (t.lease.Some? ==> t.lease.value in leases)
    && (t.kind == Evidence ==> Slot(t.peer, t.message) == EvidenceSlot(t.item))
    && (t.kind == Message ==> IsPeer(t.peer))
  }

  predicate HasEvidence(o: Outbox, item: string) {
    exists e :: e in o.targets && o.targets[e].item == item && o.targets[e].kind == Evidence
  }

  /** A message row that was ever leased has its evidence stored, and every message row has an evidence row. */
  predicate EvidenceFirst(o: Outbox, t: Target) {
    t.kind == Message ==> HasEvidence(o, t.item) && (t.state != Pending ==> EvidenceStored(o, t.item))
  }

  ghost predicate Inv(o: Outbox) {
    forall id :: id in o.targets ==> id < o.nextId && RowOk(o.targets[id], o.leases) && EvidenceFirst(o, o.targets[id])
  }

  /** What a row may become: completed and stranded rows never change, lost leases never return. */
  predicate RowOnward(t: Target, t': Target, leases: set<Uuid>) {
    && t'.item == t.item && t'.kind == t.kind && t'.peer == t.peer && t'.message == t.message
    && (t.completed || Stranded(t) ==> t' == t)
    && (t'.lease == t.lease || t'.lease.None? || t'.lease.value !in leases)
    && (t.token.Some? ==> t'.token.Some?)
  }

  ghost predicate Onward(o: Outbox, o': Outbox) {
    && o.leases <= o'.leases
    && forall id :: id in o.targets ==> id in o'.targets && RowOnward(o.targets[id], o'.targets[id], o.leases)
  }

  lemma OnwardIsTransitive(a: Outbox, b: Outbox, c: Outbox)
    requires Onward(a, b) && Onward(b, c)
    ensures Onward(a, c)
  {
  }

  lemma OnwardKeepsEvidence(o: Outbox, o': Outbox, item: string)
    requires Onward(o, o')
    ensures HasEvidence(o, item) ==> HasEvidence(o', item)
    ensures EvidenceStored(o, item) ==> EvidenceStored(o', item)
  {
  }

  /** Rows that move onward one by one keep the invariant, if leased messages have their evidence. */
  lemma RowsChange(o: Outbox, o': Outbox)
    requires Inv(o) && o'.targets.Keys == o.targets.Keys && o'.nextId == o.nextId && o.leases <= o'.leases
    requires forall id :: id in o.targets ==>
      && RowOnward(o.targets[id], o'.targets[id], o.leases) && RowOk(o'.targets[id], o'.leases)
      && (o.targets[id].kind == Message && o.targets[id].state == Pending && o'.targets[id].state != Pending ==>
          EvidenceStored(o, o.targets[id].item))
    ensures Inv(o') && Onward(o, o')
  {
  }

  lemma OneRowChanges(o: Outbox, id: nat, t': Target, o': Outbox)
    requires Inv(o) && id in o.targets && o'.targets == o.targets[id := t'] && o'.nextId == o.nextId
      && o.leases <= o'.leases
    requires RowOnward(o.targets[id], t', o.leases) && RowOk(t', o'.leases)
    requires o.targets[id].kind == Message && o.targets[id].state == Pending && t'.state != Pending ==>
      EvidenceStored(o, t'.item)
    ensures Inv(o') && Onward(o, o')
  {
    forall i | i in o.targets
      ensures RowOnward(o.targets[i], o'.targets[i], o.leases) && RowOk(o'.targets[i], o'.leases)
    {
      assert RowOk(o.targets[i], o.leases);
    }
    RowsChange(o, o');
  }

  // ---- enqueueing ----------------------------------------------------------

  lemma InsertKeeps(o: Outbox, item: string, slot: Slot, kind: Kind, dueAt: int)
    requires Inv(o)
    requires if kind == Evidence then slot == EvidenceSlot(item) else IsPeer(slot.peer) && HasEvidence(o, item)
    ensures Inv(Insert(o, item, slot, kind, dueAt)) && Onward(o, Insert(o, item, slot, kind, dueAt))
  {
    var o' := Insert(o, item, slot, kind, dueAt);
    forall id | id in o'.targets
      ensures EvidenceFirst(o', o'.targets[id])
    {
      OnwardKeepsEvidence(o, o', o'.targets[id].item);
    }
  }

  lemma EvidenceSlotNamesObject(item: string, item': string)
    requires EvidenceSlot(item) == EvidenceSlot(item')
    ensures item == item'
  {
    assert item == EvidenceSlot(item).peer[|EVIDENCE_PREFIX|..];
    assert item' == EvidenceSlot(item').peer[|EVIDENCE_PREFIX|..];
  }

  /** The unique index cannot give the evidence slot of one object to another row. */
  lemma InsertEvidenceEnsuresIt(o: Outbox, item: string, dueAt: int)
    requires Inv(o)
    ensures HasEvidence(Insert(o, item, EvidenceSlot(item), Evidence, dueAt), item)
  {
    var slot := EvidenceSlot(item);
    if Taken(o, slot) {
      var id :| id in o.targets && Slot(o.targets[id].peer, o.targets[id].message) == slot;
      assert RowOk(o.targets[id], o.leases);
      assert EVIDENCE_PREFIX <= slot.peer;
      EvidenceSlotNamesObject(item, o.targets[id].item);
    } else {
      assert Insert(o, item, slot, Evidence, dueAt).targets[o.nextId].kind == Evidence;
    }
  }

  lemma {:induction false} InsertMessagesKeeps(o: Outbox, item: string, slots: seq<Slot>, dueAt: int)
    requires Inv(o) && HasEvidence(o, item) && ArePeers(slots)
    ensures Inv(InsertMessages(o, item, slots, dueAt)) && Onward(o, InsertMessages(o, item, slots, dueAt))
    decreases |slots|
  {
    if slots != [] {
      var front, last := slots[..|slots| - 1], slots[|slots| - 1];
      InsertMessagesKeeps(o, item, front, dueAt);
      var o1 := InsertMessages(o, item, front, dueAt);
      OnwardKeepsEvidence(o, o1, item);
      InsertKeeps(o1, item, last, Message, dueAt);
      OnwardIsTransitive(o, o1, Insert(o1, item, last, Message, dueAt));
    }
  }

  /** Every listed message ends up with a row. */
  lemma {:induction false} InsertMessagesTakes(o: Outbox, item: string, slots: seq<Slot>, dueAt: int, i: nat)
    requires Inv(o) && HasEvidence(o, item) && ArePeers(slots) && i < |slots|
    ensures Taken(InsertMessages(o, item, slots, dueAt), slots[i])
    decreases |slots|
  {
    var front, last := slots[..|slots| - 1], slots[|slots| - 1];
    var o1 := InsertMessages(o, item, front, dueAt);
    InsertMessagesKeeps(o, item, front, dueAt);
    if i == |front| {
      InsertTakes(o1, item, last, Message, dueAt);
    } else {
      InsertMessagesTakes(o, item, front, dueAt, i);
      OnwardKeepsEvidence(o, o1, item);
      InsertKeeps(o1, item, last, Message, dueAt);
      OnwardKeepsSlots(o1, Insert(o1, item, last, Message, dueAt), slots[i]);
    }
  }

  lemma InsertTakes(o: Outbox, item: string, slot: Slot, kind: Kind, dueAt: int)
    ensures Taken(Insert(o, item, slot, kind, dueAt), slot)
  {
    if !Taken(o, slot) {
      assert Insert(o, item, slot, kind, dueAt).targets[o.nextId] == NewTarget(item, slot, kind, dueAt);
    }
  }

  lemma OnwardKeepsSlots(o: Outbox, o': Outbox, slot: Slot)
    requires Onward(o, o') && Taken(o, slot)
    ensures Taken(o', slot)
  {
  }

  /** Enqueueing an object records its evidence row and every one of its messages. */
  lemma EnqueueRecordsAll(o: Outbox, item: string, slots: seq<Slot>, dueAt: int)
    requires Inv(o) && ArePeers(slots)
    ensures Inv(Enqueue(o, item, slots, dueAt)) && Onward(o, Enqueue(o, item, slots, dueAt))
    ensures HasEvidence(Enqueue(o, item, slots, dueAt), item)
    ensures forall i :: 0 <= i < |slots| ==> Taken(Enqueue(o, item, slots, dueAt), slots[i])
  {
    var o1 := Insert(o, item, EvidenceSlot(item), Evidence, dueAt);
    InsertKeeps(o, item, EvidenceSlot(item), Evidence, dueAt);
    InsertEvidenceEnsuresIt(o, item, dueAt);
    InsertMessagesKeeps(o1, item, slots, dueAt);
    var o2 := InsertMessages(o1, item, slots, dueAt);
    OnwardIsTransitive(o, o1, o2);
    OnwardKeepsEvidence(o1, o2, item);
    forall i | 0 <= i < |slots|
      ensures Taken(o2, slots[i])
    {
      InsertMessagesTakes(o1, item, slots, dueAt, i);
    }
  }

  // ---- every call ----------------------------------------------------------

  lemma ClaimKeeps(o: Outbox, pick: Option<nat>, lease: Uuid, now: int)
    requires Inv(o) && lease !in o.leases && IsChoice(o, pick, now)
    ensures Inv(Claim(o, pick, lease, now)) && Onward(o, Claim(o, pick, lease, now))
  {
    if pick.Some? {
      var o' := Claim(o, pick, lease, now);
      assert RowOk(o.targets[pick.value], o.leases);
      OneRowChanges(o, pick.value, o'.targets[pick.value], o');
    }
  }

  lemma WorkerCallKeeps(o: Outbox, op: Op)
    requires Inv(o) && Enabled(o, op) && (op.OpBeginEvidence? || op.OpComplete? || op.OpFail? || op.OpQuarantine?)
    ensures Inv(Apply(o, op)) && Onward(o, Apply(o, op))
  {
    if Holds(o, op.id, op.lease) {
      var o' := Apply(o, op);
      assert RowOk(o.targets[op.id], o.leases) && EvidenceFirst(o, o.targets[op.id]);
      OneRowChanges(o, op.id, o'.targets[op.id], o');
    }
  }

  lemma ReconcileCallKeeps(o: Outbox, op: Op)
    requires Inv(o) && Enabled(o, op) && (op.OpResolve? || op.OpRetryEvidence?)
    ensures Inv(Apply(o, op)) && Onward(o, Apply(o, op))
  {
    if OpenEvidence(o, op.id) {
      var o' := Apply(o, op);
      assert RowOk(o.targets[op.id], o.leases);
      OneRowChanges(o, op.id, o'.targets[op.id], o');
    }
  }

  lemma MakeDueKeeps(o: Outbox, item: string, now: int)
    requires Inv(o)
    ensures Inv(MakeDue(o, item, now)) && Onward(o, MakeDue(o, item, now))
  {
    var o' := MakeDue(o, item, now);
    forall id | id in o.targets
      ensures RowOnward(o.targets[id], o'.targets[id], o.leases) && RowOk(o'.targets[id], o'.leases)
    {
      assert RowOk(o.targets[id], o.leases);
    }
    RowsChange(o, o');
  }

  /** Every call keeps the invariant and moves every row onward. */
  lemma ApplyKeeps(o: Outbox, op: Op)
    requires Inv(o) && Enabled(o, op)
    ensures Inv(Apply(o, op)) && Onward(o, Apply(o, op))
  {
    if op.OpEnqueue? {
      EnqueueRecordsAll(o, op.item, op.slots, op.dueAt);
    } else if op.OpClaim? {
      ClaimKeeps(o, op.pick, op.lease, op.now);
    } else if op.OpMakeDue? {
      MakeDueKeeps(o, op.item, op.now);
    } else if op.OpResolve? || op.OpRetryEvidence? {
      ReconcileCallKeeps(o, op);
    } else {
      WorkerCallKeeps(o, op);
    }
  }

  lemma {:induction false} RunKeeps(o: Outbox, ops: seq<Op>)
    requires Inv(o) && IsRun(o, ops)
    ensures Inv(After(o, ops)) && Onward(o, After(o, ops))
    decreases |ops|
  {
    if ops != [] {
      var o1 := Apply(o, ops[0]);
      ApplyKeeps(o, ops[0]);
      RunKeeps(o1, ops[1..]);
      OnwardIsTransitive(o, o1, After(o1, ops[1..]));
    }
  }

  lemma ReachableIsSafe(o: Outbox)
    requires Reachable(o)
    ensures Inv(o)
  {
    var ops :| IsRun(EMPTY, ops) && After(EMPTY, ops) == o;
    RunKeeps(EMPTY, ops);
  }

  // ---- what the outbox is for ----------------------------------------------

  /** Evidence first: no message target is leased or completed before evidence of its object is stored. */
  lemma NoMessageBeforeEvidence(o: Outbox, id: nat)
    requires Reachable(o) && id in o.targets && o.targets[id].kind == Message
    requires o.targets[id].lease.Some? || o.targets[id].completed
    ensures EvidenceStored(o, o.targets[id].item)
  {
    ReachableIsSafe(o);
    assert RowOk(o.targets[id], o.leases) && EvidenceFirst(o, o.targets[id]);
  }

  /** No message waits for evidence that was never enqueued. */
  lemma EveryMessageHasEvidenceRow(o: Outbox, id: nat)
    requires Reachable(o) && id in o.targets && o.targets[id].kind == Message
    ensures HasEvidence(o, o.targets[id].item)
  {
    ReachableIsSafe(o);
    assert EvidenceFirst(o, o.targets[id]);
  }

  /** Completion never reverts, and a stranded row stays stranded, in every run. */
  lemma CompletionIsFinal(o: Outbox, ops: seq<Op>, id: nat)
    requires Reachable(o) && IsRun(o, ops) && id in o.targets && (o.targets[id].completed || Stranded(o.targets[id]))
    ensures id in After(o, ops).targets && After(o, ops).targets[id] == o.targets[id]
  {
    ReachableIsSafe(o);
    RunKeeps(o, ops);
    assert RowOnward(o.targets[id], After(o, ops).targets[id], o.leases);
  }

  /** A lease the row no longer carries changes nothing, now or after any run. */
  lemma StaleLeaseChangesNothing(o: Outbox, ops: seq<Op>, id: nat, lease: Uuid, token: Uuid, retryAfter: nat, now: int)
    requires Reachable(o) && IsRun(o, ops)
    requires lease in o.leases && id in o.targets && o.targets[id].lease != Some(lease)
    ensures var o' := After(o, ops);
      && Complete(o', id, lease) == o' && Fail(o', id, lease, retryAfter, now) == o'
      && Quarantine(o', id, lease) == o' && BeginEvidence(o', id, lease, token) == o'
  {
    ReachableIsSafe(o);
    RunKeeps(o, ops);
    assert RowOnward(o.targets[id], After(o, ops).targets[id], o.leases);
  }

  // ---- gauges --------------------------------------------------------------

  /** The due, scheduled and recovery-required gauges partition the backlog. */
  lemma GaugesSumToBacklog(o: Outbox, now: int)
    requires Reachable(o)
    ensures var g := Measure(o, now); g.due + g.scheduled + g.recoveryRequired == g.backlog
  {
    ReachableIsSafe(o);
    var due, held := Due(o, now), Quarantined(o);
    forall id | id in due + held
      ensures id in Open(o)
    {
      assert RowOk(o.targets[id], o.leases);
    }
    assert due !! held;
    assert |due + held| == |due| + |held|;
    SubsetIsSmaller(due + held, Open(o));
  }

  /** What counts as due is claimable now, or waits for reconciliation of an evidence upload; never both. */
  lemma DueMeansClaimableOrAwaiting(o: Outbox, id: nat, now: int)
    requires Reachable(o)
    ensures IsDue(o, id, now) <==>
      Claimable(o, id, now) || (AwaitsReconciliation(o, id, now) && o.targets[id].state == Running)
    ensures !(Claimable(o, id, now) && AwaitsReconciliation(o, id, now))
  {
  }

  /** The claim finds nothing exactly when every due target waits for reconciliation. */
  lemma IdleExactlyWhenNothingDue(o: Outbox, pick: Option<nat>, now: int)
    requires Reachable(o) && IsChoice(o, pick, now)
    ensures pick.None? <==> forall id :: id in Due(o, now) ==> AwaitsReconciliation(o, id, now)
  {
    forall id
      ensures IsDue(o, id, now) <==>
        Claimable(o, id, now) || (AwaitsReconciliation(o, id, now) && o.targets[id].state == Running)
      ensures !(Claimable(o, id, now) && AwaitsReconciliation(o, id, now))
    {
      DueMeansClaimableOrAwaiting(o, id, now);
    }
    if pick.Some? {
      assert Claimable(o, pick.value, now) && pick.value in Due(o, now);
    } else {
      forall id | id in Due(o, now)
        ensures AwaitsReconciliation(o, id, now)
      {
        assert IsDue(o, id, now) && !Claimable(o, id, now);
      }
    }
  }
}
