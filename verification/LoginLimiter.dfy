/** The login limiter of src/auth.rs, as `handle_login` of src/admin.rs drives it.  Times are nanoseconds. */
module LoginLimiter {
  import opened Basics

  const SECOND: nat := 1_000_000_000
  const WINDOW: nat := 300 * SECOND
  const MAX_FAILS: nat := 8

  datatype Bucket = Bucket(started: int, fails: nat, lockStep: nat, lockedUntil: Option<int>)

  function Power2(n: nat): nat { if n == 0 then 1 else 2 * Power2(n - 1) }

  /** `lock_for_step`: 30 seconds doubled per step, at most 900. */
  function LockFor(step: nat): int {
    Min(30 * Power2(Min(step, 10)), 900) * SECOND
  }

  /** What one recorded failure makes of the bucket of a key. */
  function Recorded(bucket: Option<Bucket>, now: int): Bucket {
    var b := if bucket.None? || now - bucket.value.started >= WINDOW then Bucket(now, 0, 0, None) else bucket.value;
    var b := b.(fails := b.fails + 1);
    if b.fails >= MAX_FAILS && (b.lockedUntil.None? || b.lockedUntil.value <= now)
    then b.(lockedUntil := Some(now + LockFor(b.lockStep)), lockStep := b.lockStep + 1)
    else b
  }

  /** The branch of `check` for a bucket that is out of attempts but not locked. */
  predicate LockFreeBranch(b: Bucket, now: int) {
    b.lockedUntil.None? && now - b.started < WINDOW && b.fails >= MAX_FAILS
  }

  predicate Blocked(bucket: Option<Bucket>, now: int) {
    bucket.Some?
    && ((bucket.value.lockedUntil.Some? && bucket.value.lockedUntil.value > now) || LockFreeBranch(bucket.value, now))
  }

  // ---- the logins of one key -----------------------------------------------

  /** One login: `check` at one time, the outcome recorded at a later one, with the right password or not. */
  datatype Login = Login(checked: int, finished: int, correct: bool)

  predicate Succeeds(bucket: Option<Bucket>, l: Login) {
    !Blocked(bucket, l.checked) && l.correct
  }

  /** A success removes the bucket; a refusal counts as a failure. */
  function Next(bucket: Option<Bucket>, l: Login): Option<Bucket> {
    if Succeeds(bucket, l) then None else Some(Recorded(bucket, l.finished))
  }

  /** Logins for the key do not interleave. */
  predicate InSequence(from: int, logins: seq<Login>)
    decreases |logins|
  {
    logins == [] || (from <= logins[0].checked <= logins[0].finished && InSequence(logins[0].finished, logins[1..]))
  }

  predicate AllBefore(logins: seq<Login>, end: int) {
    forall i :: 0 <= i < |logins| ==> logins[i].finished < end
  }

  /** How many of the logins got past `check` and failed. */
  function Passed(bucket: Option<Bucket>, logins: seq<Login>): nat
    decreases |logins|
  {
    if logins == [] then 0
    else One(!Blocked(bucket, logins[0].checked) && !logins[0].correct) + Passed(Next(bucket, logins[0]), logins[1..])
  }

  function Successes(bucket: Option<Bucket>, logins: seq<Login>): nat
    decreases |logins|
  {
    if logins == [] then 0 else One(Succeeds(bucket, logins[0])) + Successes(Next(bucket, logins[0]), logins[1..])
  }

  function BucketAfter(bucket: Option<Bucket>, logins: seq<Login>): Option<Bucket>
    decreases |logins|
  {
    if logins == [] then bucket else BucketAfter(Next(bucket, logins[0]), logins[1..])
  }

  // ---- the buckets the limiter can produce ---------------------------------

  /** Once eight failures are counted there is always a lock, and never before. */
  predicate Produced(b: Bucket) {
    b.fails >= 1 && (b.fails >= MAX_FAILS <==> b.lockedUntil.Some?) && (b.fails >= MAX_FAILS <==> b.lockStep >= 1)
  }

  lemma RecordedIsProduced(bucket: Option<Bucket>, now: int)
    requires bucket.Some? ==> Produced(bucket.value)
    ensures Produced(Recorded(bucket, now))
  {
  }

  ghost predicate IsProduced(bucket: Option<Bucket>) {
    bucket.Some? ==> Produced(bucket.value)
  }

  /** The lock-free rate-limit branch of `check` is unreachable, whatever logins fail or succeed. */
  lemma {:induction false} LockFreeBranchIsUnreachable(logins: seq<Login>, bucket: Option<Bucket>, now: int)
    requires IsProduced(bucket)
    ensures var b := BucketAfter(bucket, logins); b.Some? ==> Produced(b.value) && !LockFreeBranch(b.value, now)
    decreases |logins|
  {
    if logins != [] {
      RecordedIsProduced(bucket, logins[0].finished);
      LockFreeBranchIsUnreachable(logins[1..], Next(bucket, logins[0]), now);
    }
  }

  // ---- locks grow ----------------------------------------------------------

  lemma LocksGrow(step: nat)
    ensures 30 * SECOND <= LockFor(step) <= LockFor(step + 1)
  {
  }

  /** 30, 60, 120, 240 and 480 seconds, then always 900. */
  lemma LockSeconds(step: nat)
    ensures LockFor(step) ==
      (match step case 0 => 30 case 1 => 60 case 2 => 120 case 3 => 240 case 4 => 480 case _ => 900) * SECOND
  {
    if step >= 5 {
      LockIsMonotone(5, step);
      assert Power2(5) == 32;
    }
  }

  lemma FirstLocks()
    ensures LockFor(0) == 30 * SECOND && LockFor(1) == 60 * SECOND && LockFor(2) == 120 * SECOND
      && LockFor(3) == 240 * SECOND
  {
  }

  // ---- one limiter window --------------------------------------------------

  /** Passes left before `end` when the lock of the given step opens at `open`. */
  function AfterLock(step: nat, open: int, end: int): nat
    decreases end - open
  {
    LocksGrow(step);
    if open >= end then 0 else 1 + AfterLock(step + 1, open + LockFor(step), end)
  }

  lemma {:induction false} AfterLockShrinks(step: nat, open: int, step': nat, open': int, end: int)
    requires open <= open' && step <= step'
    ensures AfterLock(step', open', end) <= AfterLock(step, open, end)
    decreases end - open
  {
    LocksGrow(step);
    if open' < end {
      LockIsMonotone(step, step');
      AfterLockShrinks(step + 1, open + LockFor(step), step' + 1, open' + LockFor(step'), end);
    }
  }

  lemma LockIsMonotone(step: nat, step': nat)
    requires step <= step'
    ensures LockFor(step) <= LockFor(step')
  {
  }

  /** Passes left before `end` if the window is not renewed. */
  function Left(b: Bucket, now: int, end: int): nat
    requires Produced(b)
  {
    if b.fails < MAX_FAILS then MAX_FAILS - b.fails + AfterLock(1, now + LockFor(0), end)
    else AfterLock(b.lockStep, b.lockedUntil.value, end)
  }

  lemma EarlyFailureUsesLeft(b: Bucket, now: int, l: Login, end: int)
    requires Produced(b) && now <= l.checked <= l.finished < end && l.finished - b.started < WINDOW
    requires b.fails < MAX_FAILS
    ensures Produced(Recorded(Some(b), l.finished))
    ensures 1 + Left(Recorded(Some(b), l.finished), l.finished, end) <= Left(b, now, end)
  {
    AfterLockShrinks(1, now + LockFor(0), 1, l.finished + LockFor(0), end);
  }

  lemma LateFailureUsesLeft(b: Bucket, now: int, l: Login, end: int)
    requires Produced(b) && now <= l.checked <= l.finished < end && l.finished - b.started < WINDOW
    requires b.fails >= MAX_FAILS && b.lockedUntil.value <= l.finished
    ensures Produced(Recorded(Some(b), l.finished))
    ensures 1 + Left(Recorded(Some(b), l.finished), l.finished, end) <= Left(b, now, end)
  {
    AfterLockShrinks(b.lockStep + 1, b.lockedUntil.value + LockFor(b.lockStep),
                     b.lockStep + 1, l.finished + LockFor(b.lockStep), end);
  }

  lemma FailureUsesLeft(b: Bucket, now: int, l: Login, end: int)
    requires Produced(b) && now <= l.checked <= l.finished < end && l.finished - b.started < WINDOW
    ensures var b' := Recorded(Some(b), l.finished);
            && Produced(b') && b'.started == b.started
            && One(!Blocked(Some(b), l.checked)) + Left(b', l.finished, end) <= Left(b, now, end)
  {
    if b.fails < MAX_FAILS {
      EarlyFailureUsesLeft(b, now, l, end);
    } else if b.lockedUntil.value <= l.finished {
      LateFailureUsesLeft(b, now, l, end);
    }
  }

  /** Every success starts afresh, with eleven more passes at most. */
  lemma {:induction false} PassesFitWindow(b: Bucket, now: int, logins: seq<Login>, end: int)
    requires Produced(b) && b.started <= now && end <= b.started + WINDOW
    requires InSequence(now, logins) && AllBefore(logins, end)
    ensures Passed(Some(b), logins) <= Left(b, now, end) + 11 * Successes(Some(b), logins)
    decreases |logins|
  {
    if logins != [] {
      var l := logins[0];
      if Succeeds(Some(b), l) {
        PassesFromNothing(l.finished, logins[1..], end);
      } else {
        FailureUsesLeft(b, now, l, end);
        PassesFitWindow(Recorded(Some(b), l.finished), l.finished, logins[1..], end);
      }
    }
  }

  lemma {:induction false} PassesFromNothing(now: int, logins: seq<Login>, end: int)
    requires InSequence(now, logins) && AllBefore(logins, end) && end <= now + WINDOW
    ensures Passed(None, logins) <= 11 + 11 * Successes(None, logins)
    decreases |logins|
  {
    if logins != [] {
      var l := logins[0];
      if l.correct {
        PassesFromNothing(l.finished, logins[1..], end);
      } else {
        PassesFitWindow(Recorded(None, l.finished), l.finished, logins[1..], end);
        FreshWindow(l.finished, end);
      }
    }
  }

  /** From a first failure at `at`, at most three more passes follow the lock before the window ends. */
  lemma FreshWindow(at: int, end: int)
    requires end <= at + WINDOW
    ensures AfterLock(1, at + LockFor(0), end) <= 3
  {
    FirstLocks();
    assert AfterLock(4, at + 450 * SECOND, end) == 0;
    assert AfterLock(3, at + 210 * SECOND, end) <= 1;
    assert AfterLock(2, at + 90 * SECOND, end) <= 2;
  }

  predicate StartsWindow(bucket: Option<Bucket>, at: int) {
    bucket.None? || at - bucket.value.started >= WINDOW
  }

  /**
   In one window of the limiter at most eleven failed logins pass the check, and eleven more
   for every success in it: each one removes the bucket.
   */
  lemma ElevenPerWindow(bucket: Option<Bucket>, now: int, logins: seq<Login>, end: int)
    requires IsProduced(bucket)
    requires logins != [] && InSequence(now, logins) && AllBefore(logins, end)
    requires StartsWindow(bucket, logins[0].finished) && end <= logins[0].finished + WINDOW
    ensures Passed(bucket, logins) <= 11 + 11 * Successes(bucket, logins)
  {
    var at := logins[0].finished;
    if Succeeds(bucket, logins[0]) {
      PassesFromNothing(at, logins[1..], end);
    } else {
      PassesFitWindow(Recorded(bucket, at), at, logins[1..], end);
      FreshWindow(at, end);
    }
  }

  // ---- the shared map ------------------------------------------------------

  type Buckets = map<string, Bucket>

  function BucketOf(buckets: Buckets, key: string): Option<Bucket> {
    if key in buckets then Some(buckets[key]) else None
  }

  function RecordAll(buckets: Buckets, keys: seq<string>, times: seq<int>): Buckets
    requires |times| == |keys|
  {
    if keys == [] then buckets
    else
      var n := |keys| - 1;
      var before := RecordAll(buckets, keys[..n], times[..n]);
      before[keys[n] := Recorded(BucketOf(before, keys[n]), times[n])]
  }

  /** Whole seconds until the lock ends, at least one; the whole window in the lock-free branch. */
  function RetryAfter(b: Bucket, now: int): int {
    if b.lockedUntil.Some? then Max((b.lockedUntil.value - now) / SECOND, 1) else WINDOW / SECOND
  }

  /** The key is blocked and would have to wait this many seconds. */
  predicate Waits(buckets: Buckets, key: string, now: int, seconds: int) {
    Blocked(BucketOf(buckets, key), now) && seconds == RetryAfter(buckets[key], now)
  }

  /** The key has a lock that is not over. */
  predicate IsLocked(buckets: Buckets, key: string, now: int) {
    key in buckets && buckets[key].lockedUntil.Some? && now < buckets[key].lockedUntil.value
  }

  /** The lock lasts for at least these seconds more, or for the last one. */
  predicate IsLockedFor(buckets: Buckets, key: string, now: int, seconds: int) {
    && IsLocked(buckets, key, now)
    && (seconds == 1 || seconds * SECOND <= buckets[key].lockedUntil.value - now)
  }

  /** What one recorded failure leaves, field by field. */
  predicate IsFailureOf(before: Option<Bucket>, after: Bucket, now: int) {
    if before.None? || now - before.value.started >= 300 * SECOND
    then after == Bucket(now, 1, 0, None)
    else if before.value.fails + 1 >= 8 && (before.value.lockedUntil.None? || before.value.lockedUntil.value <= now)
    then after == Bucket(before.value.started, before.value.fails + 1, before.value.lockStep + 1,
                         Some(now + LockFor(before.value.lockStep)))
    else after == before.value.(fails := before.value.fails + 1)
  }

  class Limiter {
    var buckets: Buckets

    /** Every bucket is one the limiter can produce. */
    ghost predicate Valid()
      reads this
    {
      forall key :: key in buckets ==> Produced(buckets[key])
    }

    constructor ()
      ensures Valid() && buckets == map[]
    {
      buckets := map[];
    }

    /** `times[i]` is the clock reading for key i. */
    method RecordFailure(keys: seq<string>, times: seq<int>)
      requires Valid() && |times| == |keys|
      modifies this
      ensures Valid() && buckets == RecordAll(old(buckets), keys, times)
    {
      for i := 0 to |keys|
        invariant Valid() && buckets == RecordAll(old(buckets), keys[..i], times[..i])
      {
        RecordedIsProduced(BucketOf(buckets, keys[i]), times[i]);
        assert keys[..i + 1][..i] == keys[..i] && times[..i + 1][..i] == times[..i];
        var now := times[i];
        var b := if keys[i] in buckets then buckets[keys[i]] else Bucket(now, 0, 0, None);
        if now - b.started >= WINDOW {
          b := Bucket(now, 0, 0, None);
        }
        b := b.(fails := b.fails + 1);
        if b.fails >= MAX_FAILS && (b.lockedUntil.None? || b.lockedUntil.value <= now) {
          b := b.(lockedUntil := Some(now + LockFor(b.lockStep)), lockStep := b.lockStep + 1);
        }
        buckets := buckets[keys[i] := b];
      }
      assert keys[..|keys|] == keys && times[..|times|] == times;
    }

    /** Blocked exactly when some key is, with the longest of their waits. */
    method Check(keys: seq<string>, now: int) returns (retryAfter: Option<int>)
      ensures retryAfter.Some? ==> exists i :: 0 <= i < |keys| && Waits(buckets, keys[i], now, retryAfter.value)
      ensures forall i :: 0 <= i < |keys| && Blocked(BucketOf(buckets, keys[i]), now) ==>
        retryAfter.Some? && RetryAfter(buckets[keys[i]], now) <= retryAfter.value
      ensures Valid() ==> (retryAfter.Some? <==> exists i :: 0 <= i < |keys| && IsLocked(buckets, keys[i], now))
      ensures Valid() ==> forall i :: 0 <= i < |keys| && IsLocked(buckets, keys[i], now) ==>
        retryAfter.Some? && buckets[keys[i]].lockedUntil.value - now < (retryAfter.value + 1) * SECOND
      ensures Valid() && retryAfter.Some? ==>
        exists i :: 0 <= i < |keys| && IsLockedFor(buckets, keys[i], now, retryAfter.value)
    {
      retryAfter := None;
      for i := 0 to |keys|
        invariant retryAfter.Some? ==> exists j :: 0 <= j < i && Waits(buckets, keys[j], now, retryAfter.value)
        invariant forall j :: 0 <= j < i && Blocked(BucketOf(buckets, keys[j]), now) ==>
          retryAfter.Some? && RetryAfter(buckets[keys[j]], now) <= retryAfter.value
      {
        if keys[i] in buckets {
          var b := buckets[keys[i]];
          if b.lockedUntil.Some? {
            if b.lockedUntil.value > now {
              var remaining := Max((b.lockedUntil.value - now) / SECOND, 1);
              retryAfter := Some(if retryAfter.Some? then Max(retryAfter.value, remaining) else remaining);
            }
          } else if now - b.started < WINDOW && b.fails >= MAX_FAILS {
            retryAfter := Some(if retryAfter.Some? then Max(retryAfter.value, WINDOW / SECOND) else WINDOW / SECOND);
          }
        }
      }
    }

    method Reset(keys: seq<string>)
      requires Valid()
      modifies this
      ensures Valid()
      ensures forall key :: key in buckets <==> key in old(buckets) && key !in keys
      ensures forall key :: key in buckets ==> buckets[key] == old(buckets)[key]
    {
      for i := 0 to |keys|
        invariant forall key :: key in buckets <==> key in old(buckets) && key !in keys[..i]
        invariant forall key :: key in buckets ==> buckets[key] == old(buckets)[key]
      {
        buckets := buckets - {keys[i]};
      }
    }

    /** `handle_login` for one user name: its bucket takes exactly one step of the run model. */
    method HandleLogin(key: string, l: Login) returns (passed: bool)
      requires Valid()
      modifies this
      ensures Valid()
      ensures passed <==> !Blocked(BucketOf(old(buckets), key), l.checked)
      ensures BucketOf(buckets, key) == Next(BucketOf(old(buckets), key), l)
      ensures passed && l.correct ==> key !in buckets
      ensures !(passed && l.correct) ==>
        key in buckets && IsFailureOf(BucketOf(old(buckets), key), buckets[key], l.finished)
      ensures passed <==> !IsLocked(old(buckets), key, l.checked)
      ensures forall other :: other != key ==> BucketOf(buckets, other) == BucketOf(old(buckets), other)
    {
      var refused := Check([key], l.checked);
      assert [key][0] == key;
      passed := refused.None?;
      if passed && l.correct {
        Reset([key]);
      } else {
        RecordFailure([key], [l.finished]);
        assert [key][..0] == [] && [l.finished][..0] == [];
      }
    }
  }
}
