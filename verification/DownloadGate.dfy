/**
 The admission gate of src/object_format.rs: one download per client and object, through
 semaphores the limiter remembers only by weak references.

 A semaphore is alive while some stream holds it, waiting or admitted; its identity is a
 number, and new ones get fresh numbers.
 */
module DownloadGate {
  import opened Basics

  const CONCURRENCY: nat := 1
  const MAX_KEYS: nat := 4096

  type Semaphore = nat

  datatype Stream = Stream(key: string, gate: Semaphore, admitted: bool)

  datatype State = State(limits: map<string, Semaphore>, streams: map<nat, Stream>, nextSemaphore: Semaphore)

  const EMPTY: State := State(map[], map[], 0)

  /** Those with `strong_count() > 0`. */
  function LiveSemaphores(s: State): set<Semaphore> {
    set i | i in s.streams.Keys :: s.streams[i].gate
  }

  // ---- the limiter ---------------------------------------------------------

  /** `retain`: forget the entries whose semaphore is gone. */
  function Evict(limits: map<string, Semaphore>, alive: set<Semaphore>): map<string, Semaphore> {
    map key | key in limits && limits[key] in alive :: limits[key]
  }

  /** The limiter after one lookup, and the semaphore it hands out. */
  function Looked(limits: map<string, Semaphore>, next: Semaphore, alive: set<Semaphore>, key: string)
    : (map<string, Semaphore>, Semaphore, Semaphore)
  {
    var kept := if |limits| >= MAX_KEYS then Evict(limits, alive) else limits;
    if key in kept && kept[key] in alive then (kept, next, kept[key]) else (kept[key := next], next + 1, next)
  }

  // ---- steps ---------------------------------------------------------------

  datatype Op =
    | Start(id: nat, key: string)   // a request asks for its gate and waits
    | Admit(id: nat)                // the semaphore hands it the permit
    | Finish(id: nat)               // the stream ends or the client goes away, waiting or not

  predicate HasPermit(s: State, gate: Semaphore) {
    |set i | i in s.streams.Keys && s.streams[i].gate == gate && s.streams[i].admitted| < CONCURRENCY
  }

  predicate Enabled(s: State, op: Op) {
    match op
    case Start(id, _) => id !in s.streams
    case Admit(id) => id in s.streams && !s.streams[id].admitted && HasPermit(s, s.streams[id].gate)
    case Finish(id) => id in s.streams
  }

  function Apply(s: State, op: Op): State
    requires Enabled(s, op)
  {
    match op
    case Start(id, key) =>
      var (limits, next, gate) := Looked(s.limits, s.nextSemaphore, LiveSemaphores(s), key);
      State(limits, s.streams[id := Stream(key, gate, false)], next)
    case Admit(id) => s.(streams := s.streams[id := s.streams[id].(admitted := true)])
    case Finish(id) => s.(streams := s.streams - {id})
  }

  predicate IsRun(s: State, ops: seq<Op>)
    decreases |ops|
  {
    ops == [] || (Enabled(s, ops[0]) && IsRun(Apply(s, ops[0]), ops[1..]))
  }

  function After(s: State, ops: seq<Op>): State
    requires IsRun(s, ops)
    decreases |ops|
  {
    if ops == [] then s else After(Apply(s, ops[0]), ops[1..])
  }

  // ---- the invariant -------------------------------------------------------

  predicate IsAdmitted(s: State, i: nat) {
    i in s.streams && s.streams[i].admitted
  }

  /** Every stream holds the one semaphore the limiter remembers for its key; no two keys share one. */
  ghost predicate Inv(s: State) {
    && (forall i :: i in s.streams ==> s.streams[i].key in s.limits && s.limits[s.streams[i].key] == s.streams[i].gate)
    && (forall a, b :: a in s.limits && b in s.limits && s.limits[a] == s.limits[b] ==> a == b)
    && (forall a :: a in s.limits ==> s.limits[a] < s.nextSemaphore)
    && (forall i, j :: IsAdmitted(s, i) && IsAdmitted(s, j) && s.streams[i].gate == s.streams[j].gate ==> i == j)
  }

  /** Eviction drops no entry that a stream still uses. */
  lemma EvictKeeps(s: State)
    requires Inv(s)
    ensures Inv(s.(limits := Evict(s.limits, LiveSemaphores(s))))
  {
  }

  /** A new semaphore replaces only an entry nobody uses. */
  lemma NewGateKeeps(s: State, id: nat, key: string)
    requires Inv(s) && id !in s.streams && (key in s.limits ==> s.limits[key] !in LiveSemaphores(s))
    ensures Inv(State(s.limits[key := s.nextSemaphore], s.streams[id := Stream(key, s.nextSemaphore, false)],
                      s.nextSemaphore + 1))
  {
  }

  lemma SameGateKeeps(s: State, id: nat, key: string)
    requires Inv(s) && id !in s.streams && key in s.limits
    ensures Inv(s.(streams := s.streams[id := Stream(key, s.limits[key], false)]))
  {
  }

  lemma LookupKeeps(s: State, id: nat, key: string, kept: map<string, Semaphore>)
    requires Inv(s.(limits := kept)) && id !in s.streams
    ensures if key in kept && kept[key] in LiveSemaphores(s)
      then Inv(State(kept, s.streams[id := Stream(key, kept[key], false)], s.nextSemaphore))
      else Inv(State(kept[key := s.nextSemaphore], s.streams[id := Stream(key, s.nextSemaphore, false)],
                     s.nextSemaphore + 1))
  {
    var s1 := s.(limits := kept);
    assert LiveSemaphores(s1) == LiveSemaphores(s);
    if key in kept && kept[key] in LiveSemaphores(s) {
      SameGateKeeps(s1, id, key);
    } else {
      NewGateKeeps(s1, id, key);
    }
  }

  lemma StartKeeps(s: State, id: nat, key: string)
    requires Inv(s) && Enabled(s, Start(id, key))
    ensures Inv(Apply(s, Start(id, key)))
  {
    if |s.limits| >= MAX_KEYS {
      EvictKeeps(s);
      LookupKeeps(s, id, key, Evict(s.limits, LiveSemaphores(s)));
    } else {
      LookupKeeps(s, id, key, s.limits);
    }
  }

  lemma NobodyAdmitted(s: State, gate: Semaphore, i: nat)
    requires HasPermit(s, gate) && i in s.streams && s.streams[i].gate == gate
    ensures !s.streams[i].admitted
  {
    var holders := set j | j in s.streams.Keys && s.streams[j].gate == gate && s.streams[j].admitted;
    assert holders == {};
    assert i !in holders;
  }

  lemma AdmitKeeps(s: State, id: nat)
    requires Inv(s) && Enabled(s, Admit(id))
    ensures Inv(Apply(s, Admit(id)))
  {
    forall i | i in s.streams && s.streams[i].gate == s.streams[id].gate
      ensures !s.streams[i].admitted
    {
      NobodyAdmitted(s, s.streams[id].gate, i);
    }
  }

  lemma StepKeeps(s: State, op: Op)
    requires Inv(s) && Enabled(s, op)
    ensures Inv(Apply(s, op))
  {
    match op
    case Start(id, key) => StartKeeps(s, id, key);
    case Admit(id) => AdmitKeeps(s, id);
    case Finish(id) =>
  }

  lemma {:induction false} RunKeeps(s: State, ops: seq<Op>)
    requires Inv(s) && IsRun(s, ops)
    ensures Inv(After(s, ops))
    decreases |ops|
  {
    if ops != [] {
      StepKeeps(s, ops[0]);
      RunKeeps(Apply(s, ops[0]), ops[1..]);
    }
  }

  // ---- what the gate promises ----------------------------------------------

  /** In every run, two live streams of one key hold the same semaphore, and at most one is admitted. */
  lemma OneStreamPerKey(ops: seq<Op>, i: nat, j: nat)
    requires IsRun(EMPTY, ops)
    requires var s := After(EMPTY, ops); i in s.streams && j in s.streams && s.streams[i].key == s.streams[j].key
    ensures var s := After(EMPTY, ops);
      s.streams[i].gate == s.streams[j].gate && (s.streams[i].admitted && s.streams[j].admitted ==> i == j)
  {
    RunKeeps(EMPTY, ops);
  }

  /** Streams of different keys never share a gate, so they never wait for each other. */
  lemma KeysDoNotShareGates(ops: seq<Op>, i: nat, j: nat)
    requires IsRun(EMPTY, ops)
    requires var s := After(EMPTY, ops); i in s.streams && j in s.streams && s.streams[i].key != s.streams[j].key
    ensures var s := After(EMPTY, ops); s.streams[i].gate != s.streams[j].gate
  {
    RunKeeps(EMPTY, ops);
  }

  /** A waiting stream can be admitted exactly when no stream of its key is. */
  lemma WaitsOnlyForItsKey(ops: seq<Op>, i: nat)
    requires IsRun(EMPTY, ops)
    requires var s := After(EMPTY, ops); i in s.streams && !s.streams[i].admitted
    ensures var s := After(EMPTY, ops);
      Enabled(s, Admit(i)) <==> forall j :: j in s.streams && s.streams[j].key == s.streams[i].key ==>
        !s.streams[j].admitted
  {
    RunKeeps(EMPTY, ops);
    var s := After(EMPTY, ops);
    var gate := s.streams[i].gate;
    var holders := set j | j in s.streams.Keys && s.streams[j].gate == gate && s.streams[j].admitted;
    if HasPermit(s, gate) {
      forall j | j in s.streams && s.streams[j].key == s.streams[i].key
        ensures !s.streams[j].admitted
      {
        NobodyAdmitted(s, gate, j);
      }
    } else {
      assert holders != {};
      var j :| j in holders;
      assert s.streams[j].key == s.streams[i].key;
    }
  }

  // ---- the limiter object --------------------------------------------------

  /** The keys that survive the eviction, which happens from 4096 keys on. */
  function Kept(limits: map<string, Semaphore>, alive: set<Semaphore>): set<string> {
    if |limits| < 4096 then limits.Keys else set k | k in limits.Keys && limits[k] in alive
  }

  /** The limiter beside the streams it has handed gates to. */
  class ClientObjectDownloadLimiter {
    var limits: map<string, Semaphore>
    var nextSemaphore: Semaphore
    ghost var streams: map<nat, Stream>

    ghost function Gates(): State
      reads this
    {
      State(limits, streams, nextSemaphore)
    }

    ghost predicate Valid()
      reads this
    {
      Inv(Gates())
    }

    constructor ()
      ensures Valid() && Gates() == EMPTY
    {
      limits, nextSemaphore, streams := map[], 0, map[];
    }

    /** The statements under the mutex; `alive` are the semaphores somebody still holds. */
    method Lookup(key: string, alive: set<Semaphore>) returns (gate: Semaphore)
      modifies this`limits, this`nextSemaphore
      ensures (limits, nextSemaphore, gate) == Looked(old(limits), old(nextSemaphore), alive, key)
      ensures limits.Keys == Kept(old(limits), alive) + {key}
      ensures forall k :: k in limits && k != key ==> limits[k] == old(limits)[k]
    {
      if |limits| >= MAX_KEYS {
        limits := Evict(limits, alive);
      }
      if key in limits && limits[key] in alive {
        return limits[key];
      }
      gate := nextSemaphore;
      nextSemaphore := nextSemaphore + 1;
      limits := limits[key := gate];
    }

    /**
     Looks the key up for the new stream `id`.  The gate is the one of every live stream of the
     key and of no other; from 4096 keys on, the keys nobody uses are forgotten.
     */
    method GateFor(ghost id: nat, key: string, alive: set<Semaphore>) returns (gate: Semaphore)
      requires Valid() && id !in streams && alive == LiveSemaphores(Gates())
      modifies this
      ensures Valid() && Gates() == Apply(old(Gates()), Start(id, key))
      ensures streams == old(streams)[id := Stream(key, gate, false)]
      ensures forall i :: i in streams ==> (streams[i].gate == gate <==> streams[i].key == key)
      ensures limits.Keys == Kept(old(limits), alive) + {key}
      ensures forall k :: k in limits && k != key ==> limits[k] == old(limits)[k]
    {
      ghost var s := Gates();
      gate := Lookup(key, alive);
      streams := streams[id := Stream(key, gate, false)];
      StartKeeps(s, id, key);
    }

    ghost method Admitted(id: nat)
      requires Valid() && Enabled(Gates(), Admit(id))
      modifies this
      ensures Valid() && Gates() == Apply(old(Gates()), Admit(id))
    {
      AdmitKeeps(Gates(), id);
      streams := streams[id := streams[id].(admitted := true)];
    }

    ghost method Finished(id: nat)
      requires Valid() && Enabled(Gates(), Finish(id))
      modifies this
      ensures Valid() && Gates() == Apply(old(Gates()), Finish(id))
    {
      StepKeeps(Gates(), Finish(id));
      streams := streams - {id};
    }
  }
}
