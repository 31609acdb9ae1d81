/**
 Chunk sampling for verification scans (src/object_format.rs): a bounded random number by
 rejection, and reservoir sampling of chunk indexes.  The operating system's random source
 is a given sequence of 64-bit words.
 */
module Sampling {
  import opened Basics
  import opened Modular

  const WORDS: nat := U64_MAX + 1

  // ---- random_below --------------------------------------------------------

  /** `upper.wrapping_neg() % upper`. */
  function Threshold(upper: U64): nat
    requires upper > 0
  {
    (WORDS - upper) % upper
  }

  /** Where the first accepted word is, from `from` on; the end if there is none. */
  function Accepted(words: seq<U64>, from: nat, upper: U64): (at: nat)
    requires upper > 0 && from <= |words|
    ensures from <= at <= |words|
    decreases |words| - from
  {
    if from == |words| || words[from] >= Threshold(upper) then from else Accepted(words, from + 1, upper)
  }

  /** Every word before it was rejected. */
  lemma {:induction false} AcceptedIsFirst(words: seq<U64>, from: nat, upper: U64, at: nat)
    requires upper > 0 && from <= at <= |words|
    requires forall j :: from <= j < at ==> words[j] < Threshold(upper)
    requires at < |words| ==> words[at] >= Threshold(upper)
    ensures Accepted(words, from, upper) == at
    decreases at - from
  {
    if from < at {
      AcceptedIsFirst(words, from + 1, upper, at);
    }
  }

  method RandomBelow(words: seq<U64>, from: nat, upper: U64) returns (value: Option<nat>, next: nat)
    requires upper > 0 && from <= |words|
    ensures value.Some? <==> Accepted(words, from, upper) < |words|
    ensures value.Some? ==> next == Accepted(words, from, upper) + 1 && value.value == words[next - 1] % upper
    ensures value.None? ==> next == |words|
    ensures forall j :: from <= j < next - One(value.Some?) ==> words[j] < Threshold(upper)
  {
    next := from;
    while next < |words|
      invariant from <= next <= |words|
      invariant forall j :: from <= j < next ==> words[j] < Threshold(upper)
    {
      next := next + 1;
      if words[next - 1] >= Threshold(upper) {
        AcceptedIsFirst(words, from, upper, next - 1);
        return Some(words[next - 1] % upper), next;
      }
    }
    AcceptedIsFirst(words, from, upper, next);
    return None, next;
  }

  /** Of the `n` words from `from` on, how many leave the remainder `r`. */
  function Hits(from: nat, n: nat, upper: nat, r: nat): nat
    requires upper > 0
  {
    if n == 0 then 0 else Hits(from, n - 1, upper, r) + One((from + n - 1) % upper == r)
  }

  lemma {:induction false} NoOtherHit(from: nat, n: nat, upper: nat, d: nat)
    requires d < upper && n <= upper
    ensures Hits(from, n, upper, (from + d) % upper) == One(d < n)
    decreases n
  {
    if n > 0 {
      NoOtherHit(from, n - 1, upper, d);
      if (from + n - 1) % upper == (from + d) % upper {
        SameRemainder(from, n - 1, d, upper);
      }
    }
  }

  /** Any `upper` consecutive words hit each remainder once. */
  lemma OnePerPeriod(from: nat, upper: nat, r: nat)
    requires r < upper
    ensures Hits(from, upper, upper, r) == 1
  {
    var k, e := from / upper, r + upper - from % upper;
    var d := e % upper;
    DivMod(from, upper);
    DivMod(e, upper);
    assert upper * (k + 1 - e / upper) == upper * k + upper - upper * (e / upper);
    RemainderIs(from + d, k + 1 - e / upper, upper, r);
    NoOtherHit(from, upper, upper, d);
  }

  lemma {:induction false} HitsSplit(from: nat, n: nat, m: nat, upper: nat, r: nat)
    requires upper > 0
    ensures Hits(from, n + m, upper, r) == Hits(from, n, upper, r) + Hits(from + n, m, upper, r)
    decreases m
  {
    if m > 0 {
      HitsSplit(from, n, m - 1, upper, r);
    }
  }

  lemma {:induction false} OncePerPeriod(from: nat, q: nat, upper: nat, r: nat)
    requires r < upper
    ensures Hits(from, upper * q, upper, r) == q
    decreases q
  {
    if q > 0 {
      OncePerPeriod(from, q - 1, upper, r);
      var before := upper * (q - 1);
      NextPeriod(upper, q);
      OneMorePeriod(from, before, upper, r);
    }
  }

  lemma NextPeriod(upper: nat, q: nat)
    requires q > 0
    ensures upper * q == upper * (q - 1) + upper
  {
  }

  lemma OneMorePeriod(from: nat, n: nat, upper: nat, r: nat)
    requires r < upper
    ensures Hits(from, n + upper, upper, r) == Hits(from, n, upper, r) + 1
  {
    HitsSplit(from, n, upper, upper, r);
    OnePerPeriod(from + n, upper, r);
  }

  /** A range of whole periods. */
  lemma WholePeriods(from: nat, n: nat, upper: nat, q: nat, r: nat)
    requires r < upper && n == upper * q
    ensures Hits(from, n, upper, r) == q && n / upper == q
  {
    OncePerPeriod(from, q, upper, r);
    RemainderIs(n, q, upper, 0);
  }

  lemma RemainderLeavesPeriods(total: nat, upper: nat)
    requires 0 < upper <= total
    ensures var t := (total - upper) % upper; t < upper && total - t == upper * ((total - upper) / upper + 1)
  {
  }

  /** Among all 2^64 words, the accepted ones hit every remainder equally often. */
  lemma AcceptedWordsAreUniform(upper: U64, r: nat)
    requires r < upper
    ensures Threshold(upper) < upper
    ensures Hits(Threshold(upper), WORDS - Threshold(upper), upper, r) == (WORDS - Threshold(upper)) / upper
  {
    RemainderLeavesPeriods(WORDS, upper);
    WholePeriods(Threshold(upper), WORDS - Threshold(upper), upper, (WORDS - upper) / upper + 1, r);
  }

  // ---- random_chunk_sample -------------------------------------------------

  predicate Distinct(u: seq<nat>) {
    forall i, j :: 0 <= i < j < |u| ==> u[i] != u[j]
  }

  predicate AllBelow(u: seq<nat>, n: nat) {
    forall i :: 0 <= i < |u| ==> u[i] < n
  }

  /** The reservoir after a later index drew the slot. */
  function Step(u: seq<nat>, slot: nat, index: nat): seq<nat> {
    if slot < |u| then u[slot := index] else u
  }

  function Identity(k: nat): seq<nat> { seq(k, i => i) }

  /** The reservoir of size k after index k + |slots| - 1, given the slots drawn from index k on. */
  function Reservoir(k: nat, slots: seq<nat>): seq<nat>
    decreases |slots|
  {
    if slots == [] then Identity(k)
    else Step(Reservoir(k, slots[..|slots| - 1]), slots[|slots| - 1], k + |slots| - 1)
  }

  lemma StepKeeps(u: seq<nat>, slot: nat, index: nat)
    requires Distinct(u) && AllBelow(u, index)
    ensures Distinct(Step(u, slot, index)) && AllBelow(Step(u, slot, index), index + 1)
  {
  }

  /** Slot i is drawn below index k + i + 1. */
  predicate SlotsFit(k: nat, slots: seq<nat>) {
    forall i :: 0 <= i < |slots| ==> slots[i] <= k + i
  }

  /** The slots the indexes from `index` on draw from the words; none if the words run out. */
  function Drawn(words: seq<U64>, from: nat, index: nat, count: U64): Option<seq<nat>>
    requires from <= |words|
    decreases count - index
  {
    if index >= count then Some([])
    else
      var at := Accepted(words, from, index + 1);
      if at == |words| then None else Prepend([words[at] % (index + 1)], Drawn(words, at + 1, index + 1, count))
  }

  function Prepend(slots: seq<nat>, rest: Option<seq<nat>>): Option<seq<nat>> {
    if rest.None? then None else Some(slots + rest.value)
  }

  lemma PrependTwice(a: seq<nat>, b: seq<nat>, rest: Option<seq<nat>>)
    ensures Prepend(a, Prepend(b, rest)) == Prepend(a + b, rest)
  {
    if rest.Some? {
      assert a + (b + rest.value) == a + b + rest.value;
    }
  }

  /** The slots drawn so far, and the words left for those to come. */
  ghost predicate Drawing(words: seq<U64>, k: nat, index: nat, count: U64, next: nat, slots: seq<nat>) {
    && next <= |words|
    && (index < k ==> next == 0 && slots == [])
    && Drawn(words, 0, k, count) == Prepend(slots, Drawn(words, next, if index < k then k else index, count))
  }

  lemma DrawingStarts(words: seq<U64>, k: nat, count: U64)
    requires k > 0
    ensures Drawing(words, k, 0, count, 0, [])
  {
    PrependNothing(Drawn(words, 0, k, count));
  }

  lemma PrependNothing(rest: Option<seq<nat>>)
    ensures Prepend([], rest) == rest
  {
    if rest.Some? {
      assert [] + rest.value == rest.value;
    }
  }

  lemma DrawingStep(words: seq<U64>, k: nat, index: nat, count: U64, next: nat, slots: seq<nat>, slot: nat, from: nat)
    requires k <= index < count && Drawing(words, k, index, count, from, slots)
    requires from < next <= |words| && Accepted(words, from, index + 1) == next - 1
      && slot == words[next - 1] % (index + 1)
    ensures Drawing(words, k, index + 1, count, next, slots + [slot])
  {
    PrependTwice(slots, [slot], Drawn(words, next, index + 1, count));
  }

  /** The loop variables before `index`. */
  ghost predicate Sampled(k: nat, index: nat, selected: seq<nat>, slots: seq<nat>) {
    && |selected| == Min(index, k) && Distinct(selected) && AllBelow(selected, index)
    && |slots| == Max(index - k, 0) && SlotsFit(k, slots)
    && (if index < k then selected == Identity(index) else selected == Reservoir(k, slots))
  }

  lemma FillStep(k: nat, index: nat, selected: seq<nat>)
    requires index < k && Sampled(k, index, selected, [])
    ensures Sampled(k, index + 1, selected + [index], [])
  {
  }

  lemma DrawStep(k: nat, index: nat, selected: seq<nat>, slots: seq<nat>, slot: nat)
    requires k <= index && Sampled(k, index, selected, slots) && slot <= index
    ensures Sampled(k, index + 1, Step(selected, slot, index), slots + [slot])
  {
  }

  lemma DrawingEnds(words: seq<U64>, k: nat, count: U64, next: nat, slots: seq<nat>)
    requires k <= count && Drawing(words, k, count, count, next, slots)
    ensures Drawn(words, 0, k, count) == Some(slots)
  {
    assert slots + [] == slots;
  }

  lemma DrawingFails(words: seq<U64>, k: nat, index: nat, count: U64, from: nat, slots: seq<nat>)
    requires k <= index < count && Drawing(words, k, index, count, from, slots)
    requires Accepted(words, from, index + 1) == |words|
    ensures Drawn(words, 0, k, count) == None
  {
  }

  /** min(requested, count) distinct indexes below count. */
  predicate IsSample(sample: seq<nat>, count: nat, requested: nat) {
    |sample| == Min(requested, count) && Distinct(sample) && AllBelow(sample, count)
  }

  /** The reservoir of the slots the indexes from k on draw; none exactly when the words run out before the last. */
  ghost predicate IsReservoir(words: seq<U64>, count: U64, k: nat, sample: Option<seq<nat>>) {
    match Drawn(words, 0, k, count)
    case None => sample == None
    case Some(slots) => sample == Some(Reservoir(k, slots)) && |slots| == count - k && SlotsFit(k, slots)
  }

  method RandomChunkSample(words: seq<U64>, count: U64, requested: nat) returns (sample: Option<seq<nat>>)
    ensures Min(requested, count) == 0 ==> sample == Some([])
    ensures Min(requested, count) > 0 ==> IsReservoir(words, count, Min(requested, count), sample)
    ensures sample.Some? ==> IsSample(sample.value, count, requested)
  {
    var k := Min(requested, count);
    if k == 0 {
      return Some([]);
    }
    var selected: seq<nat> := [];
    var next := 0;
    ghost var slots: seq<nat> := [];
    DrawingStarts(words, k, count);
    for index := 0 to count
      invariant Sampled(k, index, selected, slots) && Drawing(words, k, index, count, next, slots)
    {
      if |selected| < k {
        FillStep(k, index, selected);
        selected := selected + [index];
        continue;
      }
      ghost var from := next;
      var slot;
      slot, next := RandomBelow(words, next, index + 1);
      if slot.None? {
        DrawingFails(words, k, index, count, from, slots);
        return None;
      }
      DrawingStep(words, k, index, count, next, slots, slot.value, from);
      DrawStep(k, index, selected, slots, slot.value);
      slots := slots + [slot.value];
      if slot.value < k {
        selected := selected[slot.value := index];
      }
    }
    DrawingEnds(words, k, count, next, slots);
    return Some(selected);
  }
}
