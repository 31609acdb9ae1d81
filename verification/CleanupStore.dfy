/**
 The cleanup methods of `MetadataStore` (src/durable.rs), updating rows in place.

 The ghost field `model` is a state some run of `CleanupSafety` has reached, and `Valid()` says
 the rows are that state.
 */
module CleanupStore {
  import opened Basics
  import opened CleanupModel
  import opened CleanupSafety
  import opened CleanupCalls

  class Store {
    var targets: map<nat, Target>
    var nextId: nat
    ghost var model: Reached

    /** The rows, with the history `model` records. */
    ghost function State(): Outbox
      reads this
    {
      Outbox(targets, nextId, model.leases)
    }

    ghost predicate Valid()
      reads this
    {
      State() == model
    }

    constructor ()
      ensures Valid() && model == EMPTY
    {
      targets, nextId, model := map[], 1, EMPTY;
    }

    /** `INSERT OR IGNORE`, one statement of the enqueueing transaction. */
    method Insert(item: string, slot: Slot, kind: Kind, dueAt: int)
      modifies this`targets, this`nextId
      ensures State() == CleanupModel.Insert(old(State()), item, slot, kind, dueAt)
    {
      if !exists id :: id in targets && targets[id].peer == slot.peer && targets[id].message == slot.message {
        var t := Target(item, slot.peer, slot.message, kind, dueAt, Pending, false, 0, 0, None, 0, None);
        targets := targets[nextId := t];
        nextId := nextId + 1;
      }
    }

    method Enqueue(item: string, slots: seq<Slot>, dueAt: int)
      requires Valid() && ArePeers(slots)
      modifies this`targets, this`nextId, this`model
      ensures Valid() && model == Apply(old(model), OpEnqueue(item, slots, dueAt))
      ensures Enqueued(model, item, slots) && OnlyAdds(old(model), model, item, slots, dueAt)
    {
      Insert(item, Slot("evidence:" + item, 0), Evidence, dueAt);
      ghost var start := State();
      for i := 0 to |slots|
        invariant model == old(model) && State() == InsertMessages(start, item, slots[..i], dueAt)
      {
        assert slots[..i + 1][..i] == slots[..i];
        Insert(item, slots[i], Message, dueAt);
      }
      assert slots[..|slots|] == slots;
      EnqueueIsComplete(model, item, slots, dueAt);
      EnqueueOnlyAdds(model, item, slots, dueAt);
      model := Call(model, OpEnqueue(item, slots, dueAt));
    }

    /** The first selected row of each of the two claim queries, evidence before messages. */
    method Choose(now: int) returns (pick: Option<nat>)
      ensures IsChoice(State(), pick, now)
    {
      pick := LowestEvidence(now);
      if pick.None? {
        pick := LowestMessage(now);
      }
    }

    method LowestEvidence(now: int) returns (pick: Option<nat>)
      ensures pick.Some? ==> ClaimableEvidence(State(), pick.value, now)
      ensures forall i :: ClaimableEvidence(State(), i, now) ==> pick.Some? && pick.value <= i
    {
      pick := None;
      var rest := targets.Keys;
      while rest != {}
        invariant rest <= targets.Keys
        invariant pick.Some? ==> ClaimableEvidence(State(), pick.value, now)
        invariant forall i :: i !in rest && ClaimableEvidence(State(), i, now) ==> pick.Some? && pick.value <= i
        decreases rest
      {
        var id :| id in rest;
        rest := rest - {id};
        var t := targets[id];
        if !t.completed && t.kind == Evidence && (pick.None? || id < pick.value)
           && ((t.state in {Pending, RetryWait} && t.dueAt <= now && t.nextRetry <= now)
               || (t.state == Running && t.leaseUntil < now && t.token.None?)) {
          pick := Some(id);
        }
      }
    }

    predicate IsStored(item: string)
      reads this
      ensures IsStored(item) <==> EvidenceStored(State(), item)
    {
      exists e :: e in targets && targets[e].item == item && targets[e].kind == Evidence && targets[e].completed
    }

    method LowestMessage(now: int) returns (pick: Option<nat>)
      ensures pick.Some? ==> ClaimableMessage(State(), pick.value, now)
      ensures forall i :: ClaimableMessage(State(), i, now) ==> pick.Some? && pick.value <= i
    {
      pick := None;
      var rest := targets.Keys;
      while rest != {}
        invariant rest <= targets.Keys
        invariant pick.Some? ==> ClaimableMessage(State(), pick.value, now)
        invariant forall i :: i !in rest && ClaimableMessage(State(), i, now) ==> pick.Some? && pick.value <= i
        decreases rest
      {
        var id :| id in rest;
        rest := rest - {id};
        var t := targets[id];
        if !t.completed && t.kind == Message && (pick.None? || id < pick.value)
           && ((t.state in {Pending, RetryWait} && t.dueAt <= now && t.nextRetry <= now)
               || (t.state == Running && t.leaseUntil < now))
           && IsStored(t.item) {
          pick := Some(id);
        }
      }
    }

    method Claim(lease: Uuid, now: int) returns (pick: Option<nat>)
      requires Valid() && lease !in model.leases
      modifies this`targets, this`model
      ensures Valid() && IsChoice(old(model), pick, now) && model == Apply(old(model), OpClaim(pick, lease, now))
      ensures IsFirst(old(model), pick, now)
      ensures pick.Some? ==> Granted(model, pick.value, lease, now + 120)
      ensures pick.Some? ==> targets == old(targets)[pick.value := old(targets)[pick.value].(
        state := Running, lease := Some(lease), leaseUntil := now + 120,
        attempts := old(targets)[pick.value].attempts + 1)]
      ensures pick.None? ==> model == old(model)
    {
      pick := Choose(now);
      ChoiceIsFirst(model, pick, now);
      if pick.Some? {
        ClaimIsGranted(model, pick.value, lease, now);
        var t := targets[pick.value];
        targets := targets[pick.value :=
          t.(state := Running, lease := Some(lease), leaseUntil := now + LEASE_SECS, attempts := t.attempts + 1)];
      }
      model := Call(model, OpClaim(pick, lease, now));
    }

    predicate IsHeld(id: nat, lease: Uuid)
      reads this
      ensures IsHeld(id, lease) <==> Holds(State(), id, lease)
      ensures IsHeld(id, lease) ==> id in targets
    {
      id in targets && targets[id].lease == Some(lease) && targets[id].state == Running
    }

    method BeginEvidence(id: nat, lease: Uuid, token: Uuid) returns (ok: bool)
      requires Valid()
      modifies this`targets, this`model
      ensures Valid() && model == Apply(old(model), OpBeginEvidence(id, lease, token))
      ensures ok <==> IsRunBy(old(model), id, lease) && !old(targets)[id].completed
      ensures ok && old(model).targets[id].kind == Evidence ==> LeftToReconciliation(model, id)
      ensures ok ==> targets == old(targets)[id := old(targets)[id].(token := Some(token))]
      ensures !ok ==> model == old(model)
    {
      ok := IsHeld(id, lease) && !targets[id].completed;
      if ok {
        targets := targets[id := targets[id].(token := Some(token))];
        if targets[id].kind == Evidence {
          BegunEvidenceIsLeft(model, id, lease, token);
        }
      }
      model := Call(model, OpBeginEvidence(id, lease, token));
    }

    method Complete(id: nat, lease: Uuid) returns (ok: bool)
      requires Valid()
      modifies this`targets, this`model
      ensures Valid() && model == Apply(old(model), OpComplete(id, lease))
      ensures ok <==> IsRunBy(old(model), id, lease)
      ensures ok ==> targets == old(targets)[id :=
        old(targets)[id].(state := Completed, completed := true, lease := None, leaseUntil := 0)]
      ensures ok ==> id in model.targets && HasStoredEvidence(model, model.targets[id].item)
      ensures !ok ==> model == old(model)
    {
      ok := IsHeld(id, lease);
      if ok {
        CompletedHasEvidence(model, id, lease);
        targets := targets[id := targets[id].(state := Completed, completed := true, lease := None, leaseUntil := 0)];
      }
      model := Call(model, OpComplete(id, lease));
    }

    method Fail(id: nat, lease: Uuid, retryAfter: nat, now: int)
      requires Valid()
      modifies this`targets, this`model
      ensures Valid() && model == Apply(old(model), OpFail(id, lease, retryAfter, now))
      ensures IsRunBy(old(model), id, lease) ==> targets == old(targets)[id := old(targets)[id].(
        state := RetryWait, nextRetry := SaturatingAdd(now, AsI64(retryAfter)), lease := None, leaseUntil := 0)]
      ensures IsRunBy(old(model), id, lease) && 0 <= now && now + retryAfter <= I64_MAX ==>
        ClaimableWhenDue(model, id, now + retryAfter)
      ensures !IsRunBy(old(model), id, lease) ==> model == old(model)
    {
      if IsHeld(id, lease) {
        FailedIsClaimableWhenDue(model, id, lease, retryAfter, now);
        var at := SaturatingAdd(now, AsI64(retryAfter));
        targets := targets[id := targets[id].(state := RetryWait, nextRetry := at, lease := None, leaseUntil := 0)];
      }
      model := Call(model, OpFail(id, lease, retryAfter, now));
    }

    method Quarantine(id: nat, lease: Uuid)
      requires Valid()
      modifies this`targets, this`model
      ensures Valid() && model == Apply(old(model), OpQuarantine(id, lease))
      ensures IsRunBy(old(model), id, lease) ==> targets == old(targets)[id :=
        old(targets)[id].(state := RecoveryRequired, lease := None, leaseUntil := 0)]
      ensures IsRunBy(old(model), id, lease) ==> NeverClaimable(model, id)
      ensures IsRunBy(old(model), id, lease) ==>
        forall t :: AwaitsReconciliation(model, id, t) <==> !Stranded(targets[id])
      ensures !IsRunBy(old(model), id, lease) ==> model == old(model)
    {
      if IsHeld(id, lease) {
        QuarantinedIsHeld(model, id, lease);
        targets := targets[id := targets[id].(state := RecoveryRequired, lease := None, leaseUntil := 0)];
      }
      model := Call(model, OpQuarantine(id, lease));
    }

    method ResolveEvidence(id: nat)
      requires Valid() && HasToken(model, id)
      modifies this`targets, this`model
      ensures Valid() && model == Apply(old(model), OpResolve(id))
      ensures IsOpenEvidence(old(targets)[id]) ==> targets == old(targets)[id :=
        old(targets)[id].(state := Completed, completed := true, lease := None, leaseUntil := 0)]
      ensures IsOpenEvidence(old(targets)[id]) ==> MessagesAreOpen(model, old(targets)[id].item)
      ensures !IsOpenEvidence(old(targets)[id]) ==> model == old(model)
    {
      if !targets[id].completed && targets[id].kind == Evidence {
        ResolvedOpensMessages(model, id);
        targets := targets[id := targets[id].(state := Completed, completed := true, lease := None, leaseUntil := 0)];
      }
      model := Call(model, OpResolve(id));
    }

    method RetryEvidence(id: nat, now: int)
      requires Valid() && HasToken(model, id)
      modifies this`targets, this`model
      ensures Valid() && model == Apply(old(model), OpRetryEvidence(id, now))
      ensures IsOpenEvidence(old(targets)[id]) ==> targets == old(targets)[id :=
        old(targets)[id].(state := Pending, dueAt := now, nextRetry := 0, lease := None, leaseUntil := 0)]
      ensures IsOpenEvidence(old(targets)[id]) ==> forall t :: MayBeClaimed(model, id, t) <==> Max(now, 0) <= t
      ensures !IsOpenEvidence(old(targets)[id]) ==> model == old(model)
    {
      if !targets[id].completed && targets[id].kind == Evidence {
        RetriedIsClaimable(model, id, now);
        targets := targets[id := targets[id].(state := Pending, dueAt := now, nextRetry := 0, lease := None,
                                              leaseUntil := 0)];
      }
      model := Call(model, OpRetryEvidence(id, now));
    }

    method MakeDue(item: string, now: int)
      requires Valid()
      modifies this`targets, this`model
      ensures Valid() && model == Apply(old(model), OpMakeDue(item, now))
      ensures MadeDue(old(model), model, item, now)
    {
      MakeDueMakesDue(model, item, now);
      targets := map id | id in targets :: DueRow(targets[id], item, now);
      model := Call(model, OpMakeDue(item, now));
    }

    /** The four gauges, counted as the metrics queries count them, partition the backlog. */
    method Metrics(now: int) returns (g: Gauges)
      requires Valid()
      ensures g.backlog == |set id | id in targets.Keys && !targets[id].completed|
      ensures g.due == |set id | id in targets.Keys && CountsAsDue(model, id, now)|
      ensures g.recoveryRequired == |set id | id in targets.Keys && targets[id].state == RecoveryRequired|
      ensures g.due + g.scheduled + g.recoveryRequired == g.backlog
    {
      var open := set id | id in targets.Keys && !targets[id].completed;
      var held := set id | id in targets.Keys && targets[id].state == RecoveryRequired;
      var dueRows := set id | id in targets.Keys && !targets[id].completed && targets[id].state != RecoveryRequired
        && Ready(targets[id], now)
        && (targets[id].kind == Evidence || IsStored(targets[id].item));
      assert open == Open(model) && held == Quarantined(model) && dueRows == Due(model, now);
      var backlog, due, recovery := |open|, |dueRows|, |held|;
      g := Gauges(backlog, due, SaturatingSub(SaturatingSub(backlog, due), recovery), recovery);
      GaugesPartition(model, now);
    }
  }
}
