/**
 The cleanup outbox of src/durable.rs: rows that say which Telegram messages of a deleted
 object must go, and the deletion-evidence document that must be stored first.

 `leases` records every lease handed out; it is history only.
 */
module CleanupModel {
  import opened Basics

  datatype Kind = Evidence | Message

  datatype TargetState = Pending | RetryWait | Running | RecoveryRequired | Completed

  /** `completed` is a column of its own beside `state`; `token` is `evidence_attempt_token`. */
  datatype Target = Target(
    item: string,
    peer: string,
    message: int,
    kind: Kind,
    dueAt: int,
    state: TargetState,
    completed: bool,
    attempts: nat,
    nextRetry: int,
    lease: Option<Uuid>,
    leaseUntil: int,
    token: Option<Uuid>)

  datatype Outbox = Outbox(targets: map<nat, Target>, nextId: nat, leases: set<Uuid>)

  const EMPTY: Outbox := Outbox(map[], 1, {})

  const LEASE_SECS: int := 120

  const EVIDENCE_PREFIX: string := "evidence:"

  datatype Slot = Slot(peer: string, message: int)

  // ---- enqueueing ----------------------------------------------------------

  function NewTarget(item: string, slot: Slot, kind: Kind, dueAt: int): Target {
    Target(item, slot.peer, slot.message, kind, dueAt, Pending, false, 0, 0, None, 0, None)
  }

  predicate Taken(o: Outbox, slot: Slot) {
    exists id :: id in o.targets && Slot(o.targets[id].peer, o.targets[id].message) == slot
  }

  /** `INSERT OR IGNORE` under UNIQUE(peer_id, message_id). */
  function Insert(o: Outbox, item: string, slot: Slot, kind: Kind, dueAt: int): Outbox {
    if Taken(o, slot) then o
    else o.(targets := o.targets[o.nextId := NewTarget(item, slot, kind, dueAt)], nextId := o.nextId + 1)
  }

  function InsertMessages(o: Outbox, item: string, slots: seq<Slot>, dueAt: int): Outbox
    decreases |slots|
  {
    if slots == [] then o
    else Insert(InsertMessages(o, item, slots[..|slots| - 1], dueAt), item, slots[|slots| - 1], Message, dueAt)
  }

  function EvidenceSlot(item: string): Slot {
    Slot(EVIDENCE_PREFIX + item, 0)
  }

  /** The evidence row first, then one row per message. */
  function Enqueue(o: Outbox, item: string, slots: seq<Slot>, dueAt: int): Outbox {
    InsertMessages(Insert(o, item, EvidenceSlot(item), Evidence, dueAt), item, slots, dueAt)
  }

  // ---- claiming ------------------------------------------------------------

  predicate Ready(t: Target, now: int) {
    (t.state in {Pending, RetryWait} && t.dueAt <= now && t.nextRetry <= now)
    || (t.state == Running && t.leaseUntil < now)
  }

  predicate EvidenceStored(o: Outbox, item: string) {
    exists e :: e in o.targets && o.targets[e].item == item && o.targets[e].kind == Evidence && o.targets[e].completed
  }

  predicate ClaimableEvidence(o: Outbox, id: nat, now: int) {
    id in o.targets && !o.targets[id].completed && o.targets[id].kind == Evidence && Ready(o.targets[id], now)
    && (o.targets[id].state == Running ==> o.targets[id].token.None?)
  }

  predicate ClaimableMessage(o: Outbox, id: nat, now: int) {
    id in o.targets && !o.targets[id].completed && o.targets[id].kind == Message && Ready(o.targets[id], now)
    && EvidenceStored(o, o.targets[id].item)
  }

  predicate Claimable(o: Outbox, id: nat, now: int) {
    ClaimableEvidence(o, id, now) || ClaimableMessage(o, id, now)
  }

  /** Lowest evidence row first, else lowest message row. */
  ghost predicate IsChoice(o: Outbox, pick: Option<nat>, now: int) {
    match pick
    case None => forall id :: !Claimable(o, id, now)
    case Some(id) =>
      || (ClaimableEvidence(o, id, now) && forall i :: ClaimableEvidence(o, i, now) ==> id <= i)
      || ((forall i :: !ClaimableEvidence(o, i, now))
          && ClaimableMessage(o, id, now) && forall i :: ClaimableMessage(o, i, now) ==> id <= i)
  }

  function SetRow(o: Outbox, id: nat, t: Target): Outbox {
    o.(targets := o.targets[id := t])
  }

  function Claim(o: Outbox, pick: Option<nat>, lease: Uuid, now: int): Outbox
    requires pick.Some? ==> pick.value in o.targets
  {
    if pick.None? then o
    else
      var t := o.targets[pick.value];
      SetRow(o, pick.value, t.(state := Running, lease := Some(lease), leaseUntil := now + LEASE_SECS,
                               attempts := t.attempts + 1))
        .(leases := o.leases + {lease})
  }

  // ---- the worker ----------------------------------------------------------

  predicate Holds(o: Outbox, id: nat, lease: Uuid) {
    id in o.targets && o.targets[id].lease == Some(lease) && o.targets[id].state == Running
  }

  function BeginEvidence(o: Outbox, id: nat, lease: Uuid, token: Uuid): Outbox {
    if Holds(o, id, lease) && !o.targets[id].completed then SetRow(o, id, o.targets[id].(token := Some(token))) else o
  }

  function Finished(t: Target): Target {
    t.(state := Completed, completed := true, lease := None, leaseUntil := 0)
  }

  function Complete(o: Outbox, id: nat, lease: Uuid): Outbox {
    if Holds(o, id, lease) then SetRow(o, id, Finished(o.targets[id])) else o
  }

  function Fail(o: Outbox, id: nat, lease: Uuid, retryAfter: nat, now: int): Outbox {
    if Holds(o, id, lease)
    then SetRow(o, id, o.targets[id].(state := RetryWait, nextRetry := SaturatingAdd(now, AsI64(retryAfter)),
                                      lease := None, leaseUntil := 0))
    else o
  }

  function Quarantine(o: Outbox, id: nat, lease: Uuid): Outbox {
    if Holds(o, id, lease)
    then SetRow(o, id, o.targets[id].(state := RecoveryRequired, lease := None, leaseUntil := 0))
    else o
  }

  // ---- reconciliation and scheduling ---------------------------------------

  predicate OpenEvidence(o: Outbox, id: nat) {
    id in o.targets && !o.targets[id].completed && o.targets[id].kind == Evidence
  }

  function ResolveEvidence(o: Outbox, id: nat): Outbox {
    if OpenEvidence(o, id) then SetRow(o, id, Finished(o.targets[id])) else o
  }

  function RetryEvidence(o: Outbox, id: nat, now: int): Outbox {
    if OpenEvidence(o, id)
    then SetRow(o, id, o.targets[id].(state := Pending, dueAt := now, nextRetry := 0, lease := None, leaseUntil := 0))
    else o
  }

  function DueRow(t: Target, item: string, now: int): Target {
    if t.item == item && !t.completed && t.state in {Pending, RetryWait} then t.(dueAt := now, nextRetry := 0) else t
  }

  function MakeDue(o: Outbox, item: string, now: int): Outbox {
    o.(targets := map id | id in o.targets :: DueRow(o.targets[id], item, now))
  }

  /** The rows `cleanup_evidence_attempts` lists for reconciliation. */
  predicate AwaitsReconciliation(o: Outbox, id: nat, now: int) {
    id in o.targets && !o.targets[id].completed && o.targets[id].kind == Evidence && o.targets[id].token.Some?
    && (o.targets[id].state == RecoveryRequired || (o.targets[id].state == Running && o.targets[id].leaseUntil < now))
  }

  // ---- gauges --------------------------------------------------------------

  predicate IsDue(o: Outbox, id: nat, now: int) {
    id in o.targets && !o.targets[id].completed && o.targets[id].state != RecoveryRequired && Ready(o.targets[id], now)
    && (o.targets[id].kind == Evidence || EvidenceStored(o, o.targets[id].item))
  }

  function Open(o: Outbox): set<nat> { set id | id in o.targets.Keys && !o.targets[id].completed }

  function Due(o: Outbox, now: int): set<nat> { set id | id in o.targets.Keys && IsDue(o, id, now) }

  function Quarantined(o: Outbox): set<nat> { set id | id in o.targets.Keys && o.targets[id].state == RecoveryRequired }

  datatype Gauges = Gauges(backlog: nat, due: nat, scheduled: nat, recoveryRequired: nat)

  function SaturatingSub(a: nat, b: nat): nat { if a >= b then a - b else 0 }

  function Measure(o: Outbox, now: int): Gauges {
    var backlog, due, recovery := |Open(o)|, |Due(o, now)|, |Quarantined(o)|;
    Gauges(backlog, due, SaturatingSub(SaturatingSub(backlog, due), recovery), recovery)
  }
}
