/**
 The download stream of src/object_format.rs: the first span alone, then either the adaptive
 out-of-order window or the sequential read-ahead worker, cut off after the first error.

 `outcomes[i]` is what reading span i returns.  Which pending read finishes next, whether a
 read counts as slowed down, and how far the worker task runs ahead are left open, so the
 contracts hold for every schedule.
 */
module ReadStream {
  import opened Basics

  datatype Outcome = Fetched(bytes: seq<nat>, retried: bool) | Failed(error: string)

  /** What a plain one-at-a-time reader would emit: everything up to and including the first failure. */
  function UpToFirstFailure(outcomes: seq<Outcome>): seq<Outcome> {
    if outcomes == [] then []
    else if outcomes[0].Failed? then [outcomes[0]]
    else [outcomes[0]] + UpToFirstFailure(outcomes[1..])
  }

  predicate AllFetched(outcomes: seq<Outcome>, n: nat)
    requires n <= |outcomes|
  {
    forall i :: 0 <= i < n ==> outcomes[i].Fetched?
  }

  function At(outcomes: seq<Outcome>, i: nat): Option<Outcome> {
    if i < |outcomes| then Some(outcomes[i]) else None
  }

  lemma {:induction false} CutAtFailure(outcomes: seq<Outcome>, n: nat)
    requires n < |outcomes| && AllFetched(outcomes, n) && outcomes[n].Failed?
    ensures UpToFirstFailure(outcomes) == outcomes[..n + 1]
    decreases n
  {
    if n > 0 {
      assert outcomes[0].Fetched?;
      CutAtFailure(outcomes[1..], n - 1);
      assert outcomes[..n + 1] == [outcomes[0]] + outcomes[1..][..n];
    }
  }

  lemma {:induction false} NothingCut(outcomes: seq<Outcome>)
    requires AllFetched(outcomes, |outcomes|)
    ensures UpToFirstFailure(outcomes) == outcomes
    decreases |outcomes|
  {
    if outcomes != [] {
      assert outcomes[0].Fetched?;
      NothingCut(outcomes[1..]);
    }
  }

  // ---- the adaptive window -------------------------------------------------

  /** Exactly the spans from `emit` to `schedule` are outstanding, each pending or ready with its own outcome. */
  ghost predicate Tracks(outcomes: seq<Outcome>, pending: set<nat>, ready: map<nat, Outcome>, emit: nat, schedule: nat)
  {
    && emit <= schedule <= |outcomes|
    && (forall i :: i in pending ==> emit <= i < schedule && i !in ready)
    && (forall i :: i in ready ==> emit <= i < schedule && ready[i] == outcomes[i])
    && (forall i :: emit <= i < schedule && i !in pending ==> i in ready)
    && |pending| + |ready| == schedule - emit
  }

  lemma ScheduleTracks(outcomes: seq<Outcome>, pending: set<nat>, ready: map<nat, Outcome>, emit: nat, schedule: nat)
    requires Tracks(outcomes, pending, ready, emit, schedule) && schedule < |outcomes|
    ensures Tracks(outcomes, pending + {schedule}, ready, emit, schedule + 1)
  {
    assert schedule !in pending;
  }

  lemma SettleTracks(outcomes: seq<Outcome>, pending: set<nat>, ready: map<nat, Outcome>, emit: nat, schedule: nat,
                     i: nat)
    requires Tracks(outcomes, pending, ready, emit, schedule) && i in pending
    ensures i < |outcomes| && Tracks(outcomes, pending - {i}, ready[i := outcomes[i]], emit, schedule)
  {
  }

  lemma TakeTracks(outcomes: seq<Outcome>, pending: set<nat>, ready: map<nat, Outcome>, emit: nat, schedule: nat)
    requires Tracks(outcomes, pending, ready, emit, schedule) && emit in ready
    ensures Tracks(outcomes, pending, ready - {emit}, emit + 1, schedule) && ready[emit] == outcomes[emit]
  {
  }

  class AdaptiveWindow {
    const outcomes: seq<Outcome>
    const maxWindow: nat
    var nextToSchedule: nat
    var nextToEmit: nat
    var pending: set<nat>
    var ready: map<nat, Outcome>
    var window: nat
    var cleanStreak: nat

    /** Every outstanding span is accounted for, and there are at most `maxWindow` of them. */
    ghost predicate Valid()
      reads this
    {
      && Tracks(outcomes, pending, ready, nextToEmit, nextToSchedule)
      && |pending| + |ready| <= maxWindow
      && 1 <= window <= maxWindow
      && cleanStreak <= 255
    }

    constructor (outcomes: seq<Outcome>, maxWindow: nat)
      requires maxWindow >= 1
      ensures Valid() && this.outcomes == outcomes && this.maxWindow == maxWindow
      ensures nextToEmit == 0 && nextToSchedule == 0 && window == Min(maxWindow, 2) && cleanStreak == 0
    {
      this.outcomes, this.maxWindow := outcomes, maxWindow;
      nextToSchedule, nextToEmit, pending, ready, cleanStreak := 0, 0, {}, map[], 0;
      window := if maxWindow >= 2 then 2 else 1;
    }

    /** Starts the next read. */
    method Schedule()
      requires Valid() && nextToSchedule < |outcomes| && nextToSchedule - nextToEmit < maxWindow
      modifies this`pending, this`nextToSchedule
      ensures Valid() && nextToSchedule == old(nextToSchedule) + 1 && pending == old(pending) + {old(nextToSchedule)}
    {
      ScheduleTracks(outcomes, pending, ready, nextToEmit, nextToSchedule);
      pending := pending + {nextToSchedule};
      nextToSchedule := nextToSchedule + 1;
    }

    /** Schedules until the window is full or no span is left, and no further. */
    method Fill()
      requires Valid()
      modifies this`pending, this`nextToSchedule
      ensures Valid()
      ensures nextToEmit < |outcomes| ==> nextToEmit < nextToSchedule
      ensures nextToSchedule == Max(old(nextToSchedule), Min(|outcomes|, nextToEmit + window))
    {
      while nextToSchedule < |outcomes| && |pending| + |ready| < window
        invariant Valid() && old(nextToSchedule) <= nextToSchedule
        invariant nextToSchedule == old(nextToSchedule) || nextToSchedule <= nextToEmit + window
        decreases |outcomes| - nextToSchedule
      {
        Schedule();
      }
    }

    /** `below70` says the read ran below 70% of the moving average. */
    method Observe(result: Outcome, below70: bool)
      requires Valid()
      modifies this`window, this`cleanStreak
      ensures Valid()
      ensures result.Failed? || (!result.retried && below70 && old(window) > 1) ==>
        window == Max(old(window) / 2, 1) && cleanStreak == 0
      ensures result.Fetched? && result.retried ==> window == Max(old(window) - 1, 1) && cleanStreak == 0
      ensures result.Fetched? && !result.retried && !(below70 && old(window) > 1) ==>
        if old(cleanStreak) >= 1 && old(window) < maxWindow then window == old(window) + 1 && cleanStreak == 0
        else window == old(window) && cleanStreak == Min(old(cleanStreak) + 1, 255)
    {
      if result.Failed? {
        window, cleanStreak := Max(window / 2, 1), 0;
      } else if result.retried {
        window, cleanStreak := Max(window - 1, 1), 0;
      } else if below70 && window > 1 {
        window, cleanStreak := Max(window / 2, 1), 0;
      } else {
        cleanStreak := Min(cleanStreak + 1, 255);
        if cleanStreak >= 2 && window < maxWindow {
          window, cleanStreak := window + 1, 0;
        }
      }
    }

    /** Moves one finished read, whichever it is, from pending to ready. */
    method Settle()
      requires Valid() && pending != {}
      modifies this`pending, this`ready
      ensures Valid() && |pending| == old(|pending|) - 1
      ensures pending < old(pending) && ready.Keys == old(ready).Keys + (old(pending) - pending)
    {
      var i :| i in pending;
      SettleTracks(outcomes, pending, ready, nextToEmit, nextToSchedule, i);
      pending := pending - {i};
      ready := ready[i := outcomes[i]];
    }

    method Take() returns (r: Outcome)
      requires Valid() && nextToEmit in ready
      modifies this`nextToEmit, this`ready
      ensures Valid() && nextToEmit == old(nextToEmit) + 1 && r == outcomes[old(nextToEmit)]
    {
      r := ready[nextToEmit];
      TakeTracks(outcomes, pending, ready, nextToEmit, nextToSchedule);
      ready := ready - {nextToEmit};
      nextToEmit := nextToEmit + 1;
    }

    /** Emits the spans in order, whatever order the reads finish in, and ends only at the end. */
    method Next() returns (r: Option<Outcome>)
      requires Valid()
      modifies this
      ensures Valid() && r == At(outcomes, old(nextToEmit))
      ensures nextToEmit == old(nextToEmit) + if r.Some? then 1 else 0
    {
      Fill();
      while true
        invariant Valid() && nextToEmit == old(nextToEmit)
        invariant nextToEmit < |outcomes| ==> nextToEmit < nextToSchedule
        decreases |pending|
      {
        if nextToEmit in ready {
          var result := Take();
          var below70: bool := *;
          Observe(result, below70);
          Fill();
          return Some(result);
        }
        if pending == {} {
          return None;
        }
        Settle();
      }
    }
  }

  // ---- the sequential read-ahead -------------------------------------------

  /** What the worker has read and nobody has received. */
  function Unclaimed(channel: seq<Outcome>, held: Option<Outcome>): seq<Outcome> {
    if held.Some? then channel + [held.value] else channel
  }

  class SequentialReadAhead {
    const outcomes: seq<Outcome>
    const maxWindow: nat
    var nextToRead: nat
    var channel: seq<Outcome>
    var held: Option<Outcome>
    var stopped: bool
    ghost var emitted: nat

    /** The worker fetches spans in order, keeps at most `maxWindow` unclaimed, and stops after a failure. */
    ghost predicate Valid()
      reads this
    {
      && 1 <= maxWindow && emitted <= nextToRead <= |outcomes|
      && (maxWindow == 1 ==> channel == [] && held.None? && !stopped && emitted == nextToRead)
      && (maxWindow > 1 ==>
          && |channel| <= maxWindow - 1
          && outcomes[emitted..nextToRead] == Unclaimed(channel, held)
          && (held.Some? ==> !stopped && AllFetched(outcomes, nextToRead - 1))
          && (held.None? && !stopped ==> AllFetched(outcomes, nextToRead))
          && (stopped ==> nextToRead == |outcomes| || (nextToRead > 0 && outcomes[nextToRead - 1].Failed?)))
    }

    constructor (outcomes: seq<Outcome>, maxWindow: nat)
      requires maxWindow >= 1
      ensures Valid() && this.outcomes == outcomes && this.maxWindow == maxWindow && emitted == 0
    {
      this.outcomes, this.maxWindow := outcomes, maxWindow;
      nextToRead, channel, held, stopped, emitted := 0, [], None, false, 0;
    }

    /** One step of the spawned task: read the next span, or hand a read one to the bounded channel. */
    method WorkerStep()
      requires Valid() && maxWindow > 1 && !stopped && (held.Some? ==> |channel| < maxWindow - 1)
      modifies this`nextToRead, this`channel, this`held, this`stopped
      ensures Valid()
      ensures Steps() < old(Steps())
    {
      if held.Some? {
        channel := channel + [held.value];
        stopped := held.value.Failed?;
        held := None;
      } else if nextToRead < |outcomes| {
        assert outcomes[emitted..nextToRead + 1] == outcomes[emitted..nextToRead] + [outcomes[nextToRead]];
        held := Some(outcomes[nextToRead]);
        nextToRead := nextToRead + 1;
      } else {
        stopped := true;
      }
    }

    ghost function Steps(): nat
      reads this
      requires Valid()
    {
      2 * (|outcomes| - nextToRead) + (if held.Some? then 1 else 0) + (if stopped then 0 else 1)
    }

    /** The worker runs on its own for up to `steps` steps, as far as the channel lets it. */
    method RunAhead(steps: nat)
      requires Valid() && maxWindow > 1
      modifies this`nextToRead, this`channel, this`held, this`stopped
      ensures Valid()
    {
      for k := 0 to steps
        invariant Valid()
      {
        if !stopped && (held.None? || |channel| < maxWindow - 1) {
          WorkerStep();
        }
      }
    }

    /** The receiver waits until there is something to take or the worker is gone. */
    method Await()
      requires Valid() && maxWindow > 1
      modifies this`nextToRead, this`channel, this`held, this`stopped
      ensures Valid() && (channel != [] || stopped)
    {
      while channel == [] && !stopped
        invariant Valid()
        decreases Steps()
      {
        WorkerStep();
      }
    }

    method Receive() returns (r: Outcome)
      requires Valid() && maxWindow > 1 && channel != []
      modifies this`channel, this`emitted
      ensures Valid() && emitted == old(emitted) + 1 <= |outcomes| && r == outcomes[old(emitted)]
    {
      r := channel[0];
      assert Unclaimed(channel, held)[0] == r;
      assert outcomes[emitted..nextToRead][0] == r;
      assert outcomes[emitted + 1..nextToRead] == outcomes[emitted..nextToRead][1..];
      assert Unclaimed(channel, held)[1..] == Unclaimed(channel[1..], held);
      channel, emitted := channel[1..], emitted + 1;
    }

    /** `steps` is how far the worker happens to run before the receiver looks. */
    method Next(steps: nat) returns (r: Option<Outcome>)
      requires Valid() && AllFetched(outcomes, emitted)
      modifies this
      ensures Valid() && r == At(outcomes, old(emitted))
      ensures emitted == old(emitted) + if r.Some? then 1 else 0
    {
      if maxWindow == 1 {
        if nextToRead == |outcomes| {
          return None;
        }
        nextToRead, emitted := nextToRead + 1, emitted + 1;
        return Some(outcomes[nextToRead - 1]);
      }
      RunAhead(steps);
      Await();
      if channel == [] {
        assert outcomes[emitted..nextToRead] == [];
        return None;
      }
      var result := Receive();
      return Some(result);
    }
  }

  // ---- the pipeline --------------------------------------------------------

  class ReadPipeline {
    const outcomes: seq<Outcome>
    const maxWindow: nat
    const sequential: bool
    var firstTaken: bool
    var window: AdaptiveWindow?
    var ahead: SequentialReadAhead?
    ghost var emitted: nat
    ghost var Repr: set<object>

    /** No tail exists, so no later span is read, until the first span has been fetched. */
    ghost predicate Valid()
      reads this, Repr
    {
      && this in Repr && maxWindow >= 1 && emitted <= |outcomes|
      && (!firstTaken ==> emitted == 0)
      && (window != null ==> window in Repr && ahead == null && !sequential)
      && (ahead != null ==> ahead in Repr && sequential)
      && (window != null || ahead != null <==> firstTaken && outcomes != [] && outcomes[0].Fetched?)
      && (firstTaken ==> (if outcomes == [] then emitted == 0 else emitted >= 1))
      && (firstTaken && outcomes != [] && outcomes[0].Failed? ==> emitted == 1)
      && (window != null ==>
          window.Valid() && window.maxWindow == maxWindow && window.outcomes == outcomes[1..]
            && emitted == 1 + window.nextToEmit)
      && (ahead != null ==>
          ahead.Valid() && ahead.maxWindow == maxWindow && ahead.outcomes == outcomes[1..]
            && emitted == 1 + ahead.emitted)
    }

    constructor (outcomes: seq<Outcome>, maxWindow: nat, sequential: bool)
      requires maxWindow >= 1
      ensures Valid() && fresh(Repr) && emitted == 0
      ensures this.outcomes == outcomes && this.maxWindow == maxWindow && this.sequential == sequential
    {
      this.outcomes, this.maxWindow, this.sequential := outcomes, maxWindow, sequential;
      firstTaken, window, ahead, emitted := false, null, null, 0;
      Repr := {this};
    }

    method First() returns (r: Option<Outcome>)
      requires Valid() && !firstTaken && outcomes != []
      modifies this
      ensures Valid() && fresh(Repr - old(Repr)) && r == Some(outcomes[0]) && emitted == 1
    {
      firstTaken, emitted := true, 1;
      var result := outcomes[0];
      if result.Fetched? {
        if sequential {
          ahead := new SequentialReadAhead(outcomes[1..], maxWindow);
          Repr := Repr + {ahead};
        } else {
          window := new AdaptiveWindow(outcomes[1..], maxWindow);
          Repr := Repr + {window};
        }
      }
      return Some(result);
    }

    method Next(steps: nat) returns (r: Option<Outcome>)
      requires Valid() && AllFetched(outcomes, emitted)
      modifies Repr
      ensures Valid() && fresh(Repr - old(Repr)) && r == At(outcomes, old(emitted))
      ensures emitted == old(emitted) + if r.Some? then 1 else 0
    {
      if !firstTaken && outcomes != [] {
        r := First();
        return;
      }
      firstTaken := true;
      if window != null {
        r := FromWindow();
      } else if ahead != null {
        r := FromWorker(steps);
      } else {
        r := None;
      }
    }

    method FromWindow() returns (r: Option<Outcome>)
      requires Valid() && window != null
      modifies Repr
      ensures Valid() && Repr == old(Repr) && r == At(outcomes, old(emitted))
      ensures emitted == old(emitted) + if r.Some? then 1 else 0
    {
      r := window.Next();
      emitted := if r.Some? then emitted + 1 else emitted;
    }

    method FromWorker(steps: nat) returns (r: Option<Outcome>)
      requires Valid() && ahead != null && AllFetched(outcomes, emitted)
      modifies Repr
      ensures Valid() && Repr == old(Repr) && r == At(outcomes, old(emitted))
      ensures emitted == old(emitted) + if r.Some? then 1 else 0
    {
      r := ahead.Next(steps);
      emitted := if r.Some? then emitted + 1 else emitted;
    }
  }

  /**
   The whole stream, in either mode and for every schedule: exactly what a plain sequential
   reader emits, ended by the first failure or by the last span.
   */
  method Drain(outcomes: seq<Outcome>, maxWindow: nat, sequential: bool, schedule: seq<nat>)
    returns (emitted: seq<Outcome>)
    requires maxWindow >= 1
    ensures emitted == UpToFirstFailure(outcomes)
  {
    var pipeline := new ReadPipeline(outcomes, maxWindow, sequential);
    emitted := [];
    var done := false;
    while !done
      invariant pipeline.Valid() && fresh(pipeline.Repr) && pipeline.outcomes == outcomes
      invariant pipeline.emitted == |emitted| && emitted <= outcomes
      invariant !done ==> AllFetched(outcomes, |emitted|)
      invariant done ==> emitted == UpToFirstFailure(outcomes)
      decreases |outcomes| - |emitted|, !done
    {
      var steps := if |emitted| < |schedule| then schedule[|emitted|] else 0;
      var r := pipeline.Next(steps);
      PrefixStep(outcomes, emitted, r);
      done := r.None? || r.value.Failed?;
      if r.Some? {
        emitted := emitted + [r.value];
      }
    }
  }

  /** One poll of the stream: either it is complete, or the prefix grows by one. */
  lemma PrefixStep(outcomes: seq<Outcome>, emitted: seq<Outcome>, r: Option<Outcome>)
    requires emitted <= outcomes && AllFetched(outcomes, |emitted|) && r == At(outcomes, |emitted|)
    ensures r.None? ==> emitted == UpToFirstFailure(outcomes)
    ensures r.Some? ==> emitted + [r.value] <= outcomes
    ensures r.Some? && r.value.Failed? ==> emitted + [r.value] == UpToFirstFailure(outcomes)
    ensures r.Some? && r.value.Fetched? ==> AllFetched(outcomes, |emitted| + 1)
  {
    if r.None? {
      NothingCut(outcomes);
    } else if r.value.Failed? {
      CutAtFailure(outcomes, |emitted|);
    }
  }
}
