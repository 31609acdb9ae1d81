/**
 How many failed logins pass the limiter in any 300 seconds: eighteen, not eleven, because a
 span of 300 seconds can meet the end of one limiter window and the start of the next; and
 eleven more for every login that succeeds meanwhile.
 */
module LoginBound {
  import opened Basics
  import opened LoginLimiter

  // ---- the upper bound -----------------------------------------------------

  /** Passes from an attempt at `at` that starts a new window and passes itself. */
  function Fresh(at: int, end: int): nat {
    MAX_FAILS + AfterLock(1, at + LockFor(0), end)
  }

  /** Passes left to a locked bucket when the window may also be renewed, by a refused or a passing attempt. */
  function Ahead(step: nat, open: int, now: int, end: int): int
    decreases end - open
  {
    LocksGrow(step);
    if open >= end then Fresh(now, end) - 1
    else Max(Fresh(now, end) - 1, Max(Fresh(open, end), 1 + Ahead(step + 1, open + LockFor(step), open, end)))
  }

  function Bound(b: Bucket, now: int, end: int): int
    requires Produced(b)
  {
    if b.fails < MAX_FAILS then MAX_FAILS - b.fails + Max(Fresh(now, end), Ahead(1, now + LockFor(0), now, end))
    else Ahead(b.lockStep, Max(b.lockedUntil.value, now), now, end)
  }

  lemma FreshShrinks(at: int, at': int, end: int)
    requires at <= at'
    ensures Fresh(at', end) <= Fresh(at, end)
  {
    AfterLockShrinks(1, at + LockFor(0), 1, at' + LockFor(0), end);
  }

  lemma {:induction false} AheadShrinks(step: nat, open: int, now: int, step': nat, open': int, now': int, end: int)
    requires step <= step' && open <= open' && now <= now'
    ensures Ahead(step', open', now', end) <= Ahead(step, open, now, end)
    decreases end - open
  {
    FreshShrinks(now, now', end);
    LocksGrow(step);
    if open' < end {
      FreshShrinks(open, open', end);
      LockIsMonotone(step, step');
      AheadShrinks(step + 1, open + LockFor(step), open, step' + 1, open' + LockFor(step'), open', end);
    }
  }

  /** A renewing attempt and everything after it stay within the bound. */
  lemma RenewalFits(b: Bucket, now: int, l: Login, end: int)
    requires Produced(b) && now <= l.checked <= l.finished < end
    ensures One(!Blocked(Some(b), l.checked)) + Fresh(l.finished, end) - 1 <= Bound(b, now, end)
  {
    FreshShrinks(now, l.finished, end);
    if b.fails >= MAX_FAILS && b.lockedUntil.value <= l.checked {
      FreshShrinks(Max(b.lockedUntil.value, now), l.finished, end);
    }
  }

  /** An attempt within the window uses up its share of the bound. */
  lemma FailureFits(b: Bucket, now: int, l: Login, end: int)
    requires Produced(b) && now <= l.checked <= l.finished < end && l.finished - b.started < WINDOW
    ensures var b' := Recorded(Some(b), l.finished);
      Produced(b') && One(!Blocked(Some(b), l.checked)) + Bound(b', l.finished, end) <= Bound(b, now, end)
  {
    if b.fails < MAX_FAILS {
      FreshShrinks(now, l.finished, end);
      AheadShrinks(1, now + LockFor(0), now, 1, l.finished + LockFor(0), l.finished, end);
      LocksGrow(0);
    } else if b.lockedUntil.value <= l.finished {
      ReopenedFailureFits(b, now, l, end);
    } else {
      RefusedFailureFits(b, now, l, end);
    }
  }

  lemma AheadUnlocked(step: nat, open: int, now: int, end: int)
    requires open < end
    ensures 1 + Ahead(step + 1, open + LockFor(step), open, end) <= Ahead(step, open, now, end)
  {
  }

  lemma RelockedBucket(b: Bucket, l: Login)
    requires Produced(b) && b.fails >= MAX_FAILS && l.finished - b.started < WINDOW && b.lockedUntil.value <= l.finished
    ensures var b' := Recorded(Some(b), l.finished);
      Produced(b') && b'.fails >= MAX_FAILS && b'.lockStep == b.lockStep + 1
        && b'.lockedUntil == Some(l.finished + LockFor(b.lockStep))
  {
  }

  /** The lock is over when the failure is finished: the next, longer lock begins. */
  lemma ReopenedFailureFits(b: Bucket, now: int, l: Login, end: int)
    requires Produced(b) && b.fails >= MAX_FAILS && now <= l.checked <= l.finished < end
      && l.finished - b.started < WINDOW
    requires b.lockedUntil.value <= l.finished
    ensures One(!Blocked(Some(b), l.checked)) + Bound(Recorded(Some(b), l.finished), l.finished, end)
            <= Bound(b, now, end)
  {
    var open, step := Max(b.lockedUntil.value, now), b.lockStep;
    LocksGrow(step);
    RelockedBucket(b, l);
    AheadShrinks(step + 1, open + LockFor(step), open, step + 1, l.finished + LockFor(step), l.finished, end);
    AheadUnlocked(step, open, now, end);
  }

  /** The lock still holds: the attempt was refused and only time has passed. */
  lemma RefusedFailureFits(b: Bucket, now: int, l: Login, end: int)
    requires Produced(b) && b.fails >= MAX_FAILS && now <= l.checked <= l.finished < end
      && l.finished - b.started < WINDOW
    requires b.lockedUntil.value > l.finished
    ensures One(!Blocked(Some(b), l.checked)) + Bound(Recorded(Some(b), l.finished), l.finished, end)
            <= Bound(b, now, end)
  {
    AheadShrinks(b.lockStep, Max(b.lockedUntil.value, now), now, b.lockStep, b.lockedUntil.value, l.finished, end);
  }

  lemma {:induction false} PassesFitBound(b: Bucket, now: int, logins: seq<Login>, end: int)
    requires Produced(b) && InSequence(now, logins) && AllBefore(logins, end) && end <= now + WINDOW
    ensures Passed(Some(b), logins) <= Max(Bound(b, now, end), 0) + 11 * Successes(Some(b), logins)
    decreases |logins|
  {
    if logins != [] {
      var l := logins[0];
      var b' := Recorded(Some(b), l.finished);
      RecordedIsProduced(Some(b), l.finished);
      if Succeeds(Some(b), l) {
        PassesFromNothing(l.finished, logins[1..], end);
      } else if l.finished - b.started >= WINDOW {
        PassesFitWindow(b', l.finished, logins[1..], end);
        RenewalFits(b, now, l, end);
      } else {
        PassesFitBound(b', l.finished, logins[1..], end);
        FailureFits(b, now, l, end);
        BoundIsPositive(b', l.finished, end);
      }
    }
  }

  lemma BoundIsPositive(b: Bucket, now: int, end: int)
    requires Produced(b)
    ensures Bound(b, now, end) >= 0
  {
  }

  // ---- its value -----------------------------------------------------------

  lemma FreshValues(x: int)
    ensures var end := x + WINDOW;
      && Fresh(x, end) == 11 && Fresh(x + 30 * SECOND, end) == 11 && Fresh(x + 60 * SECOND, end) == 11
      && Fresh(x + 90 * SECOND, end) == 10 && Fresh(x + 180 * SECOND, end) == 10 && Fresh(x + 210 * SECOND, end) == 9
  {
    FirstLocks();
    FreshFrom(x, 0);
    FreshFrom(x, 30);
    FreshFrom(x, 60);
    FreshFrom(x, 90);
    FreshFrom(x, 180);
    FreshFrom(x, 210);
  }

  /** The locks of 30, 60 and 120 seconds, counted out. */
  lemma FreshFrom(x: int, d: nat)
    ensures Fresh(x + d * SECOND, x + WINDOW) ==
      if d + 30 >= 300 then 8
      else if d + 90 >= 300 then 9
      else if d + 210 >= 300 then 10
      else if d + 450 >= 300 then 11
      else 0
  {
    var end := x + WINDOW;
    FirstLocks();
    var a := x + d * SECOND;
    assert AfterLock(4, a + 450 * SECOND, end) == 0;
    assert AfterLock(3, a + 210 * SECOND, end) == if d + 210 >= 300 then 0 else 1;
    assert AfterLock(2, a + 90 * SECOND, end) == if d + 90 >= 300 then 0 else 1 + AfterLock(3, a + 210 * SECOND, end);
    assert AfterLock(1, a + 30 * SECOND, end) == if d + 30 >= 300 then 0 else 1 + AfterLock(2, a + 90 * SECOND, end);
  }

  lemma AheadOfFirstLock(x: int)
    ensures Ahead(1, x + 30 * SECOND, x, x + WINDOW) == 11
  {
    var end := x + WINDOW;
    FirstLocks();
    FreshValues(x);
    assert Ahead(4, x + 450 * SECOND, x + 210 * SECOND, end) == 8;
    assert Ahead(3, x + 210 * SECOND, x + 90 * SECOND, end) == 9;
    assert Ahead(2, x + 90 * SECOND, x + 30 * SECOND, end) == 10;
  }

  lemma AheadOfAnyLock(x: int)
    ensures Ahead(1, x, x, x + WINDOW) == 12
  {
    var end := x + WINDOW;
    FirstLocks();
    FreshValues(x);
    assert Ahead(4, x + 420 * SECOND, x + 180 * SECOND, end) == 9;
    assert Ahead(3, x + 180 * SECOND, x + 60 * SECOND, end) == 10;
    assert Ahead(2, x + 60 * SECOND, x, end) == 11;
  }

  lemma BoundIsEighteen(b: Bucket, x: int)
    requires Produced(b)
    ensures Bound(b, x, x + WINDOW) <= 18
  {
    FirstLocks();
    FreshValues(x);
    if b.fails < MAX_FAILS {
      AheadOfFirstLock(x);
    } else {
      AheadOfAnyLock(x);
      AheadShrinks(1, x, x, b.lockStep, Max(b.lockedUntil.value, x), x, x + WINDOW);
    }
  }

  /**
   In any 300 seconds, from any state of the limiter, at most eighteen failed logins pass the
   check, and eleven more for every login that succeeds meanwhile.
   */
  lemma EighteenInAnyWindow(bucket: Option<Bucket>, x: int, logins: seq<Login>)
    requires IsProduced(bucket) && InSequence(x, logins) && AllBefore(logins, x + WINDOW)
    ensures Passed(bucket, logins) <= 18 + 11 * Successes(bucket, logins)
  {
    if bucket.None? {
      PassesFromNothing(x, logins, x + WINDOW);
    } else {
      PassesFitBound(bucket.value, x, logins, x + WINDOW);
      BoundIsEighteen(bucket.value, x);
    }
  }

  // ---- both bounds are reached ---------------------------------------------

  function At(time: int): Login { Login(time, time, false) }

  function Burst(time: int, n: nat): seq<Login> {
    if n == 0 then [] else [At(time)] + Burst(time, n - 1)
  }

  lemma {:induction false} PassedConcat(bucket: Option<Bucket>, p: seq<Login>, q: seq<Login>)
    ensures Passed(bucket, p + q) == Passed(bucket, p) + Passed(BucketAfter(bucket, p), q)
    ensures Successes(bucket, p + q) == Successes(bucket, p) + Successes(BucketAfter(bucket, p), q)
    decreases |p|
  {
    if p == [] {
      assert p + q == q;
    } else {
      assert (p + q)[1..] == p[1..] + q;
      PassedConcat(Next(bucket, p[0]), p[1..], q);
    }
  }

  /** Failures up to the eighth pass at once; the eighth sets the first lock. */
  lemma {:induction false} BurstPasses(b: Bucket, time: int, n: nat)
    requires Produced(b) && b.fails + n == MAX_FAILS && n > 0 && time - b.started < WINDOW
    ensures Passed(Some(b), Burst(time, n)) == n
    ensures BucketAfter(Some(b), Burst(time, n)) == Some(Bucket(b.started, MAX_FAILS, 1, Some(time + LockFor(0))))
    decreases n
  {
    assert Burst(time, n)[1..] == Burst(time, n - 1);
    if n > 1 {
      BurstPasses(Recorded(Some(b), time), time, n - 1);
    }
  }

  function ElevenRun(time: int): seq<Login> {
    [At(time)] + Burst(time, 7) + [At(time + 30 * SECOND), At(time + 90 * SECOND), At(time + 210 * SECOND)]
  }

  lemma ThreeMore(started: int)
    ensures Passed(Some(Bucket(started, MAX_FAILS, 1, Some(started + LockFor(0)))),
                   [At(started + 30 * SECOND), At(started + 90 * SECOND), At(started + 210 * SECOND)]) == 3
  {
    FirstLocks();
    var t1, t2, t3 := started + 30 * SECOND, started + 90 * SECOND, started + 210 * SECOND;
    var b0 := Bucket(started, 8, 1, Some(t1));
    var b1 := Bucket(started, 9, 2, Some(t2));
    var b2 := Bucket(started, 10, 3, Some(t3));
    assert Recorded(Some(b0), t1) == b1 && Recorded(Some(b1), t2) == b2;
    assert [At(t1), At(t2), At(t3)][1..] == [At(t2), At(t3)] && [At(t2), At(t3)][1..] == [At(t3)];
    assert [At(t3)][1..] == [];
    assert Passed(Some(b2), [At(t3)]) == 1;
    assert Passed(Some(b1), [At(t2), At(t3)]) == 2;
  }

  /** One limiter window lets eleven through. */
  lemma ElevenAreReached(bucket: Option<Bucket>, time: int)
    requires StartsWindow(bucket, time) && !Blocked(bucket, time)
    ensures Passed(bucket, ElevenRun(time)) == 11
  {
    var b := Recorded(bucket, time);
    var tail := [At(time + 30 * SECOND), At(time + 90 * SECOND), At(time + 210 * SECOND)];
    assert ElevenRun(time)[0] == At(time) && ElevenRun(time)[1..] == Burst(time, 7) + tail;
    BurstPasses(b, time, 7);
    PassedConcat(Some(b), Burst(time, 7), tail);
    ThreeMore(time);
  }

  lemma {:induction false} BurstThen(time: int, n: nat, rest: seq<Login>, end: int)
    requires InSequence(time, rest) && AllBefore(rest, end) && time < end
    ensures InSequence(time, Burst(time, n) + rest) && AllBefore(Burst(time, n) + rest, end)
    decreases n
  {
    if n == 0 {
      assert Burst(time, n) + rest == rest;
    } else {
      BurstThen(time, n - 1, rest, end);
      var all := Burst(time, n) + rest;
      assert all[0] == At(time) && all[1..] == Burst(time, n - 1) + rest;
      forall i | 0 <= i < |all|
        ensures all[i].finished < end
      {
        if i > 0 {
          assert all[i] == all[1..][i - 1];
        }
      }
    }
  }

  lemma ElevenRunFits(from: int, time: int, end: int)
    requires from <= time && time + 210 * SECOND < end
    ensures InSequence(from, ElevenRun(time)) && AllBefore(ElevenRun(time), end)
  {
    var t1, t2, t3 := time + 30 * SECOND, time + 90 * SECOND, time + 210 * SECOND;
    var tail := [At(t1), At(t2), At(t3)];
    assert tail[1..] == [At(t2), At(t3)] && [At(t2), At(t3)][1..] == [At(t3)] && [At(t3)][1..] == [];
    assert InSequence(t1, [At(t2), At(t3)]);
    assert InSequence(time, tail);
    BurstThen(time, 8, tail, end);
    assert ElevenRun(time) == Burst(time, 8) + tail;
    assert ElevenRun(time)[0] == At(time);
  }

  /** Seven late in one window, eleven from the start of the next. */
  function EighteenRun(late: int): seq<Login> {
    Burst(late, 7) + ElevenRun(late + 30 * SECOND)
  }

  /** Eighteen pass within 300 seconds, although the state before them is one finished failure. */
  lemma EighteenAreReached(t0: int)
    ensures var late := t0 + 299 * SECOND;
      InSequence(late, EighteenRun(late)) && AllBefore(EighteenRun(late), late + WINDOW)
      && Passed(Some(Recorded(None, t0)), EighteenRun(late)) == 18
  {
    FirstLocks();
    var b := Recorded(None, t0);
    var late := t0 + 299 * SECOND;
    ElevenRunFits(late, late + 30 * SECOND, late + WINDOW);
    BurstThen(late, 7, ElevenRun(late + 30 * SECOND), late + WINDOW);
    BurstPasses(b, late, 7);
    PassedConcat(Some(b), Burst(late, 7), ElevenRun(late + 30 * SECOND));
    ElevenAreReached(BucketAfter(Some(b), Burst(late, 7)), late + 30 * SECOND);
  }

  // ---- successes let more through ------------------------------------------

  /** Failures short of the eighth leave the bucket open. */
  lemma {:induction false} BurstStaysOpen(b: Bucket, time: int, n: nat)
    requires b.fails + n < MAX_FAILS && b.lockedUntil.None? && time - b.started < WINDOW
    ensures Passed(Some(b), Burst(time, n)) == n && Successes(Some(b), Burst(time, n)) == 0
    ensures BucketAfter(Some(b), Burst(time, n)) == Some(b.(fails := b.fails + n))
    decreases n
  {
    if n > 0 {
      assert Burst(time, n)[1..] == Burst(time, n - 1);
      BurstStaysOpen(Recorded(Some(b), time), time, n - 1);
    }
  }

  /** Seven failures and a success, all at one instant, `n` times over. */
  function Rounds(time: int, n: nat): seq<Login> {
    if n == 0 then [] else Burst(time, 7) + [Login(time, time, true)] + Rounds(time, n - 1)
  }

  lemma OneRound(time: int)
    ensures var round := Burst(time, 7) + [Login(time, time, true)];
            Passed(None, round) == 7 && Successes(None, round) == 1 && BucketAfter(None, round) == None
  {
    var first := Recorded(None, time);
    var open := Some(first.(fails := 7));
    BurstStaysOpen(first, time, 6);
    assert Burst(time, 7)[1..] == Burst(time, 6);
    assert [Login(time, time, true)][1..] == [];
    assert BucketAfter(None, Burst(time, 7)) == open;
    PassedConcat(None, Burst(time, 7), [Login(time, time, true)]);
    AfterConcat(None, Burst(time, 7), [Login(time, time, true)]);
  }

  lemma {:induction false} AfterConcat(bucket: Option<Bucket>, p: seq<Login>, q: seq<Login>)
    ensures BucketAfter(bucket, p + q) == BucketAfter(BucketAfter(bucket, p), q)
    decreases |p|
  {
    if p == [] {
      assert p + q == q;
    } else {
      assert (p + q)[1..] == p[1..] + q;
      AfterConcat(Next(bucket, p[0]), p[1..], q);
    }
  }

  /**
   Without the successes no bound holds: a client who fails seven times before each of `n`
   successes has `7 * n` failures let through at one instant.
   */
  lemma {:induction false} SuccessesLetMoreThrough(time: int, n: nat)
    ensures Passed(None, Rounds(time, n)) == 7 * n && Successes(None, Rounds(time, n)) == n
    ensures forall i :: 0 <= i < |Rounds(time, n)| ==>
      Rounds(time, n)[i].checked == time && Rounds(time, n)[i].finished == time
    decreases n
  {
    if n > 0 {
      var round := Burst(time, 7) + [Login(time, time, true)];
      SuccessesLetMoreThrough(time, n - 1);
      OneRound(time);
      PassedConcat(None, round, Rounds(time, n - 1));
      BurstIsAt(time, 7);
    }
  }

  lemma {:induction false} BurstIsAt(time: int, n: nat)
    ensures forall i :: 0 <= i < |Burst(time, n)| ==> Burst(time, n)[i] == At(time)
    decreases n
  {
    if n > 0 {
      BurstIsAt(time, n - 1);
    }
  }

  /** So twenty-one pass at one instant with three successes. */
  lemma TwentyOneArePassed(time: int)
    ensures Passed(None, Rounds(time, 3)) == 21 > 18
  {
    SuccessesLetMoreThrough(time, 3);
  }
}
