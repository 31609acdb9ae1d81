/**
 The bounded connection pool of src/metadata/pool.rs as a state machine over threads.

 Each critical section under the mutex is one step; opening a handle happens between steps.
 `notify_one` wakes one waiting thread, if there is one, and a waiting thread may also wake on
 its own; either way it goes back to the top of the loop.  The lock is never poisoned.
 */
module ConnectionPool {
  import opened Basics

  type Tid = nat
  type Handle = nat

  datatype Thread =
    | Outside
    | Trying                  // at the top of the checkout loop for the first time, without the mutex
    | Woken                   // there again after Condvar::wait
    | Waiting                 // in Condvar::wait
    | Opening                 // counted a new handle, opening it outside the mutex
    | Holding(handle: Handle)
    | Replacing               // discarded a handle, opening its replacement
    | Notifying               // about to call notify_one at the end of return_connection

  datatype Pool = Pool(max: nat, available: seq<Handle>, open: nat, threads: map<Tid, Thread>, nextHandle: Handle)

  datatype Op =
    | Enter(t: Tid)
    | Grab(t: Tid)
    | Reserve(t: Tid)
    | Sleep(t: Tid)
    | OpenDone(t: Tid)
    | OpenFailed(t: Tid, woken: Option<Tid>)
    | GiveBack(t: Tid)
    | Discard(t: Tid)
    | ReplaceDone(t: Tid)
    | ReplaceFailed(t: Tid)
    | Notify(t: Tid, woken: Option<Tid>)
    | WakeSpuriously(t: Tid)

  predicate Is(s: Pool, t: Tid, pc: Thread) {
    t in s.threads && s.threads[t] == pc
  }

  /** The thread will look at the pool next. */
  predicate Looks(s: Pool, t: Tid) {
    Is(s, t, Trying) || Is(s, t, Woken)
  }

  /** The handles 0 to size - 1 are opened up front; the size is at least one. */
  predicate Init(s: Pool) {
    s.max >= 1 && s.open == s.max && s.available == seq(s.max, i => i) && s.nextHandle == s.max
    && forall t :: t in s.threads ==> s.threads[t] == Outside
  }

  /** `notify_one` wakes some waiter, or nobody when nobody waits. */
  ghost predicate Wakes(s: Pool, woken: Option<Tid>) {
    if woken.Some? then Is(s, woken.value, Waiting) else forall t :: !Is(s, t, Waiting)
  }

  ghost predicate Enabled(s: Pool, op: Op) {
    match op
    case Enter(t) => Is(s, t, Outside)
    case Grab(t) => Looks(s, t) && s.available != []
    case Reserve(t) => Looks(s, t) && s.available == [] && s.open < s.max
    case Sleep(t) => Looks(s, t) && s.available == [] && s.open >= s.max
    case OpenDone(t) => Is(s, t, Opening)
    case OpenFailed(t, woken) => Is(s, t, Opening) && Wakes(s, woken)
    case GiveBack(t) => t in s.threads && s.threads[t].Holding?
    case Discard(t) => t in s.threads && s.threads[t].Holding?
    case ReplaceDone(t) => Is(s, t, Replacing)
    case ReplaceFailed(t) => Is(s, t, Replacing)
    case Notify(t, woken) => Is(s, t, Notifying) && Wakes(s, woken)
    case WakeSpuriously(t) => Is(s, t, Waiting)
  }

  function SaturatingDec(n: nat): nat { if n > 0 then n - 1 else 0 }

  function Move(s: Pool, t: Tid, pc: Thread): Pool {
    s.(threads := s.threads[t := pc])
  }

  function Wake(s: Pool, woken: Option<Tid>): Pool {
    if woken.Some? then Move(s, woken.value, Woken) else s
  }

  /** `return_connection(None)`: un-count the handle, and count its replacement if there is room. */
  function AfterDiscard(s: Pool, t: Tid): Pool {
    var open := SaturatingDec(s.open);
    if open < s.max then Move(s.(open := open + 1), t, Replacing) else Move(s.(open := open), t, Notifying)
  }

  ghost function Apply(s: Pool, op: Op): Pool
    requires Enabled(s, op)
  {
    match op
    case Enter(t) => Move(s, t, Trying)
    case Grab(t) => Move(s.(available := s.available[..|s.available| - 1]), t, Holding(s.available[|s.available| - 1]))
    case Reserve(t) => Move(s.(open := s.open + 1), t, Opening)
    case Sleep(t) => Move(s, t, Waiting)
    case OpenDone(t) => Move(s.(nextHandle := s.nextHandle + 1), t, Holding(s.nextHandle))
    case OpenFailed(t, woken) => Move(Wake(s.(open := SaturatingDec(s.open)), woken), t, Outside)
    case GiveBack(t) => Move(s.(available := s.available + [s.threads[t].handle]), t, Notifying)
    case Discard(t) => AfterDiscard(s, t)
    case ReplaceDone(t) =>
      Move(s.(available := s.available + [s.nextHandle], nextHandle := s.nextHandle + 1), t, Notifying)
    case ReplaceFailed(t) => Move(s.(open := SaturatingDec(s.open)), t, Notifying)
    case Notify(t, woken) => Move(Wake(s, woken), t, Outside)
    case WakeSpuriously(t) => Move(s, t, Woken)
  }

  ghost predicate IsRun(s: Pool, ops: seq<Op>)
    decreases |ops|
  {
    ops == [] || (Enabled(s, ops[0]) && IsRun(Apply(s, ops[0]), ops[1..]))
  }

  ghost function After(s: Pool, ops: seq<Op>): Pool
    requires IsRun(s, ops)
    decreases |ops|
  {
    if ops == [] then s else After(Apply(s, ops[0]), ops[1..])
  }

  ghost predicate Reachable(s: Pool) {
    exists s0, ops :: Init(s0) && IsRun(s0, ops) && After(s0, ops) == s
  }

  // ---- counting threads ----------------------------------------------------

  datatype Kind = KOutside | KTrying | KWoken | KWaiting | KOpening | KHolding | KReplacing | KNotifying

  function KindOf(pc: Thread): Kind {
    match pc
    case Outside => KOutside
    case Trying => KTrying
    case Woken => KWoken
    case Waiting => KWaiting
    case Opening => KOpening
    case Holding(_) => KHolding
    case Replacing => KReplacing
    case Notifying => KNotifying
  }

  function Of(threads: map<Tid, Thread>, k: Kind): set<Tid> {
    set t | t in threads.Keys && KindOf(threads[t]) == k
  }

  type Threads = map<Tid, Thread>

  function Count(threads: Threads, k: Kind): nat {
    |Of(threads, k)|
  }

  /** Moving one thread changes the counts of its two kinds by one each. */
  lemma MoveCounts(threads: Threads, t: Tid, pc: Thread, k: Kind)
    requires t in threads
    ensures Count(threads[t := pc], k) == Count(threads, k) - One(KindOf(threads[t]) == k) + One(KindOf(pc) == k)
  {
    var before, after := Of(threads, k), Of(threads[t := pc], k);
    SameElsewhere(threads, t, pc, k);
    Removed(before, t);
    Removed(after, t);
  }

  lemma SameElsewhere(threads: Threads, t: Tid, pc: Thread, k: Kind)
    requires t in threads
    ensures Of(threads, k) - {t} == Of(threads[t := pc], k) - {t}
    ensures t in Of(threads, k) <==> KindOf(threads[t]) == k
    ensures t in Of(threads[t := pc], k) <==> KindOf(pc) == k
  {
  }

  lemma Removed(s: set<Tid>, t: Tid)
    ensures |s| == |s - {t}| + One(t in s)
  {
  }

  lemma NoneWaits(threads: Threads)
    requires forall t :: t in threads ==> threads[t] != Waiting
    ensures Count(threads, KWaiting) == 0
  {
  }

  // ---- accounting ----------------------------------------------------------

  /** Handles that threads hold or are opening. */
  function InUse(threads: Threads): nat {
    Count(threads, KHolding) + Count(threads, KOpening) + Count(threads, KReplacing)
  }

  /** Threads that were woken and will look at the pool, or are about to wake one that does. */
  function Runners(threads: Threads): nat {
    Count(threads, KWoken) + Count(threads, KNotifying)
  }

  /** Slots a thread could take at once: handles on the free list and handles not yet open. */
  function Free(s: Pool): int {
    |s.available| + s.max - s.open
  }

  predicate Accounted(s: Pool) {
    s.max >= 1 && s.open == |s.available| + InUse(s.threads) <= s.max
  }

  /** While anybody waits, every free slot has a thread on its way to it. */
  predicate Covered(s: Pool) {
    Count(s.threads, KWaiting) > 0 ==> Free(s) <= Runners(s.threads)
  }

  ghost predicate Exclusive(s: Pool) {
    && (forall i :: 0 <= i < |s.available| ==> s.available[i] < s.nextHandle)
    && (forall i, j :: 0 <= i < j < |s.available| ==> s.available[i] != s.available[j])
    && (forall t :: t in s.threads && s.threads[t].Holding? ==>
        s.threads[t].handle < s.nextHandle && s.threads[t].handle !in s.available)
    && (forall t, u :: t in s.threads && u in s.threads && t != u && s.threads[t].Holding? && s.threads[u].Holding? ==>
          s.threads[t].handle != s.threads[u].handle)
  }

  ghost predicate Inv(s: Pool) {
    Accounted(s) && Covered(s) && Exclusive(s)
  }

  lemma MoveTallies(threads: Threads, t: Tid, pc: Thread)
    requires t in threads
    ensures var k, k' := KindOf(threads[t]), KindOf(pc);
      && InUse(threads[t := pc]) == InUse(threads)
           - One(k in {KHolding, KOpening, KReplacing}) + One(k' in {KHolding, KOpening, KReplacing})
      && Runners(threads[t := pc]) == Runners(threads)
           - One(k in {KWoken, KNotifying}) + One(k' in {KWoken, KNotifying})
      && Count(threads[t := pc], KWaiting) == Count(threads, KWaiting) - One(k == KWaiting) + One(k' == KWaiting)
  {
    MoveCounts(threads, t, pc, KWoken);
    MoveCounts(threads, t, pc, KWaiting);
    MoveCounts(threads, t, pc, KOpening);
    MoveCounts(threads, t, pc, KHolding);
    MoveCounts(threads, t, pc, KReplacing);
    MoveCounts(threads, t, pc, KNotifying);
  }

  lemma WakeTallies(s: Pool, woken: Option<Tid>)
    requires Wakes(s, woken)
    ensures var s' := Wake(s, woken);
      && InUse(s'.threads) == InUse(s.threads)
      && Runners(s'.threads) == Runners(s.threads) + One(woken.Some?)
      && (woken.None? ==> Count(s'.threads, KWaiting) == 0)
      && Count(s'.threads, KWaiting) <= Count(s.threads, KWaiting)
  {
    if woken.Some? {
      MoveTallies(s.threads, woken.value, Woken);
    } else {
      forall t | t in s.threads
        ensures s.threads[t] != Waiting
      {
        assert !Is(s, t, Waiting);
      }
      NoneWaits(s.threads);
    }
  }

  // ---- every step ----------------------------------------------------------

  lemma CheckoutCounts(s: Pool, op: Op)
    requires Accounted(s) && Covered(s) && Enabled(s, op)
    requires op.Enter? || op.Grab? || op.Reserve? || op.Sleep? || op.OpenDone? || op.WakeSpuriously?
    ensures Accounted(Apply(s, op)) && Covered(Apply(s, op))
  {
    MoveTallies(s.threads, op.t, Apply(s, op).threads[op.t]);
  }

  lemma ReturnCounts(s: Pool, op: Op)
    requires Accounted(s) && Covered(s) && Enabled(s, op)
    requires op.GiveBack? || op.Discard? || op.ReplaceDone? || op.ReplaceFailed?
    ensures Accounted(Apply(s, op)) && Covered(Apply(s, op))
  {
    CountIsPositive(s.threads, op.t);
    MoveTallies(s.threads, op.t, Apply(s, op).threads[op.t]);
  }

  lemma NotifyCounts(s: Pool, op: Op)
    requires Accounted(s) && Covered(s) && Enabled(s, op) && (op.OpenFailed? || op.Notify?)
    ensures Accounted(Apply(s, op)) && Covered(Apply(s, op))
  {
    WakeTallies(s, op.woken);
    MoveTallies(Wake(s, op.woken).threads, op.t, Outside);
    assert Apply(s, op).threads == Wake(s, op.woken).threads[op.t := Outside];
  }

  lemma GrabIsExclusive(s: Pool, t: Tid)
    requires Exclusive(s) && Enabled(s, Grab(t))
    ensures Exclusive(Apply(s, Grab(t)))
  {
  }

  lemma GiveBackIsExclusive(s: Pool, t: Tid)
    requires Exclusive(s) && Enabled(s, GiveBack(t))
    ensures Exclusive(Apply(s, GiveBack(t)))
  {
  }

  lemma OpenedIsExclusive(s: Pool, op: Op)
    requires Exclusive(s) && Enabled(s, op) && (op.OpenDone? || op.ReplaceDone?)
    ensures Exclusive(Apply(s, op))
  {
  }

  /** Nobody gains a handle and the free list stays. */
  lemma NothingGained(s: Pool, s': Pool)
    requires Exclusive(s) && s'.available == s.available && s'.nextHandle == s.nextHandle
    requires forall t :: t in s'.threads && s'.threads[t].Holding? ==> t in s.threads && s.threads[t] == s'.threads[t]
    ensures Exclusive(s')
  {
  }

  lemma StepIsExclusive(s: Pool, op: Op)
    requires Exclusive(s) && Enabled(s, op)
    ensures Exclusive(Apply(s, op))
  {
    if op.Grab? {
      GrabIsExclusive(s, op.t);
    } else if op.GiveBack? {
      GiveBackIsExclusive(s, op.t);
    } else if op.OpenDone? || op.ReplaceDone? {
      OpenedIsExclusive(s, op);
    } else {
      NothingGained(s, Apply(s, op));
    }
  }

  /** Every step of every thread keeps the accounting, the wakeups and the exclusive handles. */
  lemma StepKeeps(s: Pool, op: Op)
    requires Inv(s) && Enabled(s, op)
    ensures Inv(Apply(s, op))
  {
    StepIsExclusive(s, op);
    if op.OpenFailed? || op.Notify? {
      NotifyCounts(s, op);
    } else if op.GiveBack? || op.Discard? || op.ReplaceDone? || op.ReplaceFailed? {
      ReturnCounts(s, op);
    } else {
      CheckoutCounts(s, op);
    }
  }

  lemma {:induction false} RunKeeps(s: Pool, ops: seq<Op>)
    requires Inv(s) && IsRun(s, ops)
    ensures Inv(After(s, ops))
    decreases |ops|
  {
    if ops != [] {
      StepKeeps(s, ops[0]);
      RunKeeps(Apply(s, ops[0]), ops[1..]);
    }
  }

  lemma InitHolds(s: Pool)
    requires Init(s)
    ensures Inv(s)
  {
  }

  lemma ReachableIsSafe(s: Pool)
    requires Reachable(s)
    ensures Inv(s)
  {
    var s0, ops :| Init(s0) && IsRun(s0, ops) && After(s0, ops) == s;
    InitHolds(s0);
    RunKeeps(s0, ops);
  }

  // ---- what the pool promises ----------------------------------------------

  /** In every interleaving the counter is exact and bounded. */
  lemma AccountingIsExact(s: Pool)
    requires Reachable(s)
    ensures s.open == |s.available|
              + Count(s.threads, KHolding) + Count(s.threads, KOpening) + Count(s.threads, KReplacing)
    ensures s.open <= s.max
  {
    ReachableIsSafe(s);
  }

  /** No two owners of one handle, and none of them also on the free list. */
  lemma HandlesAreExclusive(s: Pool, t: Tid, u: Tid)
    requires Reachable(s) && t in s.threads && s.threads[t].Holding?
    ensures s.threads[t].handle !in s.available
    ensures u in s.threads && u != t && s.threads[u].Holding? ==> s.threads[u].handle != s.threads[t].handle
  {
    ReachableIsSafe(s);
  }

  lemma CountIsZero(threads: Threads, k: Kind)
    requires forall t :: t in threads ==> KindOf(threads[t]) != k
    ensures Count(threads, k) == 0
  {
  }

  lemma CountIsPositive(threads: Threads, t: Tid)
    requires t in threads
    ensures Count(threads, KindOf(threads[t])) > 0
  {
    assert t in Of(threads, KindOf(threads[t]));
  }

  /**
   No lost wakeup: a thread is left waiting, with no thread woken or about to notify, only when
   every handle is in use.  Newcomers on their way to the mutex do not matter.
   */
  lemma NoLostWakeup(s: Pool, t: Tid)
    requires Reachable(s) && Is(s, t, Waiting)
    requires forall u :: u in s.threads ==> s.threads[u] != Woken && s.threads[u] != Notifying
    ensures s.available == [] && s.open == s.max
  {
    ReachableIsSafe(s);
    CountIsPositive(s.threads, t);
    CountIsZero(s.threads, KWoken);
    CountIsZero(s.threads, KNotifying);
  }

  /** Some thread is woken, about to notify, or has or opens a handle whose return will notify. */
  lemma WaiterHasAWaker(s: Pool, t: Tid)
    requires Reachable(s) && Is(s, t, Waiting)
    ensures exists u :: u in s.threads && KindOf(s.threads[u]) in {KWoken, KNotifying, KHolding, KOpening, KReplacing}
  {
    if forall u :: u in s.threads ==> KindOf(s.threads[u]) !in {KWoken, KNotifying, KHolding, KOpening, KReplacing} {
      NoLostWakeup(s, t);
      ReachableIsSafe(s);
      CountIsZero(s.threads, KHolding);
      CountIsZero(s.threads, KOpening);
      CountIsZero(s.threads, KReplacing);
      assert false;
    }
  }

  /** Discarding always leaves room for the replacement, so the other branch is never taken. */
  lemma DiscardAlwaysReplaces(s: Pool, t: Tid)
    requires Reachable(s) && t in s.threads && s.threads[t].Holding?
    ensures s.open > 0 && AfterDiscard(s, t) == Move(s, t, Replacing)
  {
    ReachableIsSafe(s);
    CountIsPositive(s.threads, t);
  }

  // ---- the critical sections -----------------------------------------------

  datatype Decision = Take(handle: Handle) | OpenNew | MustWait

  function StepOf(d: Decision, t: Tid): Op {
    match d
    case Take(_) => Grab(t)
    case OpenNew => Reserve(t)
    case MustWait => Sleep(t)
  }

  /** The handle is nobody's. */
  ghost predicate Unowned(s: Pool, handle: Handle) {
    forall u :: u in s.threads ==> s.threads[u] != Holding(handle)
  }

  lemma LastIsUnowned(s: Pool)
    requires Exclusive(s) && s.available != []
    ensures var last := |s.available| - 1; Unowned(s, s.available[last]) && s.available[last] !in s.available[..last]
  {
  }

  lemma SleeperSeesAllInUse(s: Pool, t: Tid)
    requires Inv(s) && Enabled(s, Sleep(t))
    ensures Inv(Apply(s, Sleep(t))) && InUse(Apply(s, Sleep(t)).threads) == s.max
  {
    StepKeeps(s, Sleep(t));
  }

  lemma CheckoutKeeps(s: Pool, d: Decision, t: Tid)
    requires Inv(s) && Enabled(s, StepOf(d, t))
    ensures var s' := Apply(s, StepOf(d, t));
            && Inv(s')
            && (d.Take? ==> s'.threads[t].Holding?)
            && (d.Take? ==> Unowned(s, s'.threads[t].handle) && s'.threads[t].handle !in s'.available)
            && (d.MustWait? ==> InUse(s'.threads) == s.max)
  {
    StepKeeps(s, StepOf(d, t));
    match d
    case Take(_) => LastIsUnowned(s);
    case OpenNew =>
    case MustWait => SleeperSeesAllInUse(s, t);
  }

  lemma OwnerCounts(s: Pool, t: Tid)
    requires Inv(s) && t in s.threads && KindOf(s.threads[t]) in {KHolding, KOpening, KReplacing}
    ensures s.open > 0
  {
    CountIsPositive(s.threads, t);
  }

  /**
   `PoolState` behind the mutex; the threads are ghost.  `Valid()` is what every step of every
   thread keeps.
   */
  class Monitor {
    const max: nat
    var available: seq<Handle>
    var open: nat
    ghost var threads: Threads
    ghost var nextHandle: Handle

    ghost function State(): Pool
      reads this
    {
      Pool(max, available, open, threads, nextHandle)
    }

    ghost predicate Valid()
      reads this
    {
      Inv(State())
    }

    constructor (size: nat, ghost threads: Threads)
      requires forall t :: t in threads ==> threads[t] == Outside
      ensures Valid() && max == Max(size, 1) && open == max && this.threads == threads
      ensures available == seq(max, i => i)
    {
      var n := if size >= 1 then size else 1;
      max, open, available := n, n, seq(n, i => i);
      this.threads, nextHandle := threads, n;
      new;
      InitHolds(State());
    }

    /** The statements of one pass through the checkout loop. */
    method Look(ghost t: Tid) returns (d: Decision)
      requires Looks(State(), t)
      modifies this
      ensures Enabled(old(State()), StepOf(d, t)) && State() == Apply(old(State()), StepOf(d, t))
      ensures d.Take? <==> old(available) != []
      ensures d.Take? ==> threads[t] == Holding(d.handle)
      ensures d.Take? ==> old(available) == available + [d.handle] && open == old(open)
      ensures d.OpenNew? ==> old(open) < max && open == old(open) + 1 && available == [] && threads[t] == Opening
      ensures d.MustWait? ==> open == old(open) >= max && available == [] && threads[t] == Waiting
    {
      if available != [] {
        d := Take(available[|available| - 1]);
        available := available[..|available| - 1];
        threads := threads[t := Holding(d.handle)];
      } else if open < max {
        open := open + 1;
        threads := threads[t := Opening];
        d := OpenNew;
      } else {
        threads := threads[t := Waiting];
        d := MustWait;
      }
    }

    /** One pass under the mutex. */
    method Checkout(ghost t: Tid) returns (d: Decision)
      requires Valid() && Looks(State(), t)
      modifies this
      ensures Valid() && Enabled(old(State()), StepOf(d, t)) && State() == Apply(old(State()), StepOf(d, t))
      ensures d.Take? ==> threads[t] == Holding(d.handle) && Unowned(old(State()), d.handle) && d.handle !in available
      ensures d.Take? <==> old(available) != []
      ensures d.Take? ==> old(available) == available + [d.handle] && open == old(open)
      ensures d.OpenNew? ==> old(open) < max && open == old(open) + 1 && available == [] && threads[t] == Opening
      ensures d.MustWait? ==> open == old(open) == max && available == [] && threads[t] == Waiting
      ensures d.MustWait? ==> InUse(threads) == max
    {
      d := Look(t);
      CheckoutKeeps(old(State()), d, t);
    }

    /** Opening failed during checkout: un-count and notify while still holding the mutex. */
    method OpenFails(ghost t: Tid, ghost woken: Option<Tid>)
      requires Valid() && Enabled(State(), OpenFailed(t, woken))
      modifies this
      ensures Valid() && State() == Apply(old(State()), OpenFailed(t, woken))
      ensures open == old(open) - 1 && available == old(available) && threads[t] == Outside
      ensures (exists u :: Is(old(State()), u, Waiting)) ==> woken.Some? && Is(State(), woken.value, Woken)
    {
      StepKeeps(State(), OpenFailed(t, woken));
      OwnerCounts(State(), t);
      open := SaturatingDec(open);
      threads := Wake(State(), woken).threads[t := Outside];
    }

    /** The first critical section of `return_connection`; a lost handle always leaves room for another. */
    method Return(ghost t: Tid, connection: Option<Handle>) returns (replace: bool)
      requires Valid()
      requires t in threads && threads[t].Holding? && (connection.Some? ==> connection.value == threads[t].handle)
      modifies this
      ensures Valid() && State() == Apply(old(State()), if connection.Some? then GiveBack(t) else Discard(t))
      ensures open == old(open) && (replace <==> connection.None?)
      ensures connection.Some? ==> available == old(available) + [connection.value]
      ensures connection.Some? ==> Unowned(State(), connection.value)
      ensures connection.None? ==> available == old(available)
      ensures threads[t] == if replace then Replacing else Notifying
    {
      ghost var s := State();
      OwnerCounts(s, t);
      if connection.Some? {
        StepKeeps(s, GiveBack(t));
        available := available + [connection.value];
        threads := threads[t := Notifying];
        return false;
      }
      StepKeeps(s, Discard(t));
      open := SaturatingDec(open);
      replace := open < max;
      if replace {
        open := open + 1;
      }
      threads := threads[t := if replace then Replacing else Notifying];
    }

    /** The second one, after the replacement was opened or could not be. */
    method Replaced(ghost t: Tid, connection: Option<Handle>)
      requires Valid() && Is(State(), t, Replacing) && (connection.Some? ==> connection.value == nextHandle)
      modifies this
      ensures Valid() && State() == Apply(old(State()), if connection.Some? then ReplaceDone(t) else ReplaceFailed(t))
      ensures open == old(open) - One(connection.None?)
      ensures connection.Some? ==> available == old(available) + [connection.value]
      ensures connection.Some? ==> Unowned(State(), connection.value)
      ensures connection.None? ==> available == old(available)
      ensures threads[t] == Notifying
    {
      StepKeeps(State(), if connection.Some? then ReplaceDone(t) else ReplaceFailed(t));
      OwnerCounts(State(), t);
      if connection.Some? {
        available := available + [connection.value];
        nextHandle := nextHandle + 1;
      } else {
        open := SaturatingDec(open);
      }
      threads := threads[t := Notifying];
    }
  }
}
