/**
 Reservoir sampling is uniform: every set of k of the n indexes results from the same number
 of slot sequences, (n - k)!.
 */
module SamplingUniformity {
  import opened Basics
  import opened Sampling

  function Elements(u: seq<nat>): set<nat> {
    set x | x in u
  }

  /** Over all slots the indexes i to n - 1 can draw, how many runs from reservoir u end in the set. */
  function Runs(u: seq<nat>, i: nat, n: nat, target: set<nat>): nat
    decreases n - i, i + 2
  {
    if i >= n then One(Elements(u) == target) else RunsBySlot(u, i, n, target, i + 1)
  }

  /** Those where index i draws a slot below c. */
  function RunsBySlot(u: seq<nat>, i: nat, n: nat, target: set<nat>, c: nat): nat
    requires i < n && c <= i + 1
    decreases n - i, c
  {
    if c == 0 then 0 else RunsBySlot(u, i, n, target, c - 1) + Runs(Step(u, c - 1, i), i + 1, n, target)
  }

  function Factorial(n: nat): nat { if n == 0 then 1 else n * Factorial(n - 1) }

  /** (m + 1) * ... * n. */
  function Rising(m: nat, n: nat): nat
    decreases n - m
  {
    if m >= n then 1 else (m + 1) * Rising(m + 1, n)
  }

  // ---- which slots keep the target in reach --------------------------------

  /** No index below i that the target needs has been lost. */
  predicate InReach(u: seq<nat>, i: nat, target: set<nat>) {
    forall x :: x in target && x < i ==> x in u
  }

  predicate Good(u: seq<nat>, i: nat, target: set<nat>, slot: nat) {
    InReach(Step(u, slot, i), i + 1, target)
  }

  lemma GoodSlot(u: seq<nat>, i: nat, target: set<nat>, slot: nat)
    requires Distinct(u) && AllBelow(u, i)
    ensures !InReach(u, i, target) ==> !Good(u, i, target, slot)
    ensures InReach(u, i, target) ==>
      (Good(u, i, target, slot) <==> if slot < |u| then u[slot] !in target else i !in target)
  {
  }

  function GoodSlots(u: seq<nat>, i: nat, target: set<nat>, c: nat): nat {
    if c == 0 then 0 else GoodSlots(u, i, target, c - 1) + One(Good(u, i, target, c - 1))
  }

  lemma Distribute(f: nat, x: nat, y: nat)
    ensures f * (x + y) == f * x + f * y
  {
  }

  /** If every good slot leads to F runs and every other to none, the runs are F per good slot. */
  lemma {:induction false} RunsPerGoodSlot(u: seq<nat>, i: nat, n: nat, target: set<nat>, c: nat, f: nat)
    requires i < n && c <= i + 1
    requires forall slot :: 0 <= slot < c ==>
      Runs(Step(u, slot, i), i + 1, n, target) == if Good(u, i, target, slot) then f else 0
    ensures RunsBySlot(u, i, n, target, c) == f * GoodSlots(u, i, target, c)
    decreases c
  {
    if c > 0 {
      RunsPerGoodSlot(u, i, n, target, c - 1, f);
      var last := Runs(Step(u, c - 1, i), i + 1, n, target);
      assert last == if Good(u, i, target, c - 1) then f else 0;
      Distribute(f, GoodSlots(u, i, target, c - 1), One(Good(u, i, target, c - 1)));
    }
  }

  // ---- counting them -------------------------------------------------------

  /** Slots below c whose index the target does not want. */
  function Unwanted(u: seq<nat>, target: set<nat>, c: nat): nat
    requires c <= |u|
  {
    if c == 0 then 0 else Unwanted(u, target, c - 1) + One(u[c - 1] !in target)
  }

  /** The elements in the first c slots. */
  function ElementsBefore(u: seq<nat>, c: nat): set<nat>
    requires c <= |u|
  {
    if c == 0 then {} else ElementsBefore(u, c - 1) + {u[c - 1]}
  }

  lemma {:induction false} InElementsBefore(u: seq<nat>, c: nat, x: nat)
    requires c <= |u|
    ensures x in ElementsBefore(u, c) <==> exists i :: 0 <= i < c && u[i] == x
    decreases c
  {
    if c > 0 {
      InElementsBefore(u, c - 1, x);
    }
  }

  lemma AllElements(u: seq<nat>)
    ensures ElementsBefore(u, |u|) == Elements(u)
  {
    forall x
      ensures x in ElementsBefore(u, |u|) <==> x in Elements(u)
    {
      InElementsBefore(u, |u|, x);
    }
  }

  lemma OneMoreWanted(target: set<nat>, before: set<nat>, x: nat)
    requires x !in before
    ensures |target * (before + {x})| == |target * before| + One(x in target)
  {
    if x in target {
      assert target * (before + {x}) == target * before + {x};
    } else {
      assert target * (before + {x}) == target * before;
    }
  }

  lemma {:induction false} UnwantedCount(u: seq<nat>, target: set<nat>, c: nat)
    requires c <= |u| && Distinct(u)
    ensures Unwanted(u, target, c) + |target * ElementsBefore(u, c)| == c
    decreases c
  {
    if c > 0 {
      UnwantedCount(u, target, c - 1);
      InElementsBefore(u, c - 1, u[c - 1]);
      OneMoreWanted(target, ElementsBefore(u, c - 1), u[c - 1]);
    } else {
      assert target * {} == {};
    }
  }

  /** The wanted indexes still to come. */
  function Coming(target: set<nat>, i: nat): set<nat> {
    set x | x in target && x >= i
  }

  lemma UnwantedAreComing(u: seq<nat>, i: nat, target: set<nat>)
    requires Distinct(u) && AllBelow(u, i) && |target| == |u| && InReach(u, i, target)
    ensures Unwanted(u, target, |u|) == |Coming(target, i)|
  {
    UnwantedCount(u, target, |u|);
    AllElements(u);
    var here := target * Elements(u);
    assert here + Coming(target, i) == target && here !! Coming(target, i);
    assert |target| == |here| + |Coming(target, i)|;
  }

  lemma {:induction false} GoodSlotsBelow(u: seq<nat>, i: nat, target: set<nat>, c: nat)
    requires Distinct(u) && AllBelow(u, i) && InReach(u, i, target) && c <= |u|
    ensures GoodSlots(u, i, target, c) == Unwanted(u, target, c)
    decreases c
  {
    if c > 0 {
      GoodSlotsBelow(u, i, target, c - 1);
      GoodSlot(u, i, target, c - 1);
    }
  }

  lemma {:induction false} GoodSlotsAbove(u: seq<nat>, i: nat, target: set<nat>, c: nat)
    requires Distinct(u) && AllBelow(u, i) && InReach(u, i, target) && c >= |u|
    ensures GoodSlots(u, i, target, c) == Unwanted(u, target, |u|) + if i in target then 0 else c - |u|
    decreases c
  {
    if c == |u| {
      GoodSlotsBelow(u, i, target, c);
    } else {
      GoodSlotsAbove(u, i, target, c - 1);
      GoodSlot(u, i, target, c - 1);
    }
  }

  /** Of the i + 1 slots, as many are good as indexes are to come, plus those that change nothing. */
  lemma GoodSlotsTotal(u: seq<nat>, i: nat, target: set<nat>)
    requires Distinct(u) && AllBelow(u, i) && |target| == |u| <= i && InReach(u, i, target)
    ensures GoodSlots(u, i, target, i + 1) == |Coming(target, i)| + if i in target then 0 else i + 1 - |u|
  {
    GoodSlotsAbove(u, i, target, i + 1);
    UnwantedAreComing(u, i, target);
  }

  lemma ComingNext(target: set<nat>, i: nat)
    ensures |Coming(target, i)| == |Coming(target, i + 1)| + One(i in target)
  {
    if i in target {
      assert Coming(target, i) == Coming(target, i + 1) + {i};
    } else {
      assert Coming(target, i) == Coming(target, i + 1);
    }
  }

  lemma {:induction false} ComingFits(target: set<nat>, i: nat, n: nat)
    requires i <= n && forall x :: x in target ==> x < n
    ensures |Coming(target, i)| <= n - i
    decreases n - i
  {
    if i == n {
      assert Coming(target, i) == {};
    } else {
      ComingFits(target, i + 1, n);
      ComingNext(target, i);
    }
  }

  // ---- the count -----------------------------------------------------------

  lemma LostIsLost(u: seq<nat>, i: nat, n: nat, target: set<nat>)
    requires Distinct(u) && AllBelow(u, i) && |target| == |u| <= i <= n && !InReach(u, i, target)
    requires forall x :: x in target ==> x < n
    ensures Runs(u, i, n, target) == 0
    decreases n - i
  {
    if i == n {
      var x :| x in target && x < i && x !in u;
      assert x !in Elements(u);
    } else {
      forall slot | 0 <= slot < i + 1
        ensures Runs(Step(u, slot, i), i + 1, n, target) == if Good(u, i, target, slot) then 0 else 0
      {
        GoodSlot(u, i, target, slot);
        StepKeeps(u, slot, i);
        LostIsLost(Step(u, slot, i), i + 1, n, target);
      }
      RunsPerGoodSlot(u, i, n, target, i + 1, 0);
    }
  }

  lemma DoneIsDone(u: seq<nat>, n: nat, target: set<nat>)
    requires Distinct(u) && |target| == |u| && InReach(u, n, target) && forall x :: x in target ==> x < n
    ensures Elements(u) == target
  {
    UnwantedCount(u, target, |u|);
    AllElements(u);
    assert target <= Elements(u);
    assert target * Elements(u) == target;
    SizeOfElements(u);
    assert Elements(u) == target + (Elements(u) - target);
    assert |Elements(u)| == |target| + |Elements(u) - target|;
  }

  lemma {:induction false} SizeOfElements(u: seq<nat>)
    requires Distinct(u)
    ensures |Elements(u)| == |u|
    decreases |u|
  {
    if u != [] {
      var front, last := u[..|u| - 1], u[|u| - 1];
      SizeOfElements(front);
      assert u == front + [last];
      assert Elements(u) == Elements(front) + {last};
      assert last !in Elements(front);
    }
  }

  /** Runs from a reservoir that has lost nothing: a! for the wanted indexes to come, and the rest of the product. */
  lemma {:induction false} RunsInReach(u: seq<nat>, i: nat, n: nat, target: set<nat>)
    requires Distinct(u) && AllBelow(u, i) && |target| == |u| <= i <= n && InReach(u, i, target)
    requires forall x :: x in target ==> x < n
    ensures var a := |Coming(target, i)|; Runs(u, i, n, target) == Factorial(a) * Rising(i - |u| + a, n - |u|)
    decreases n - i
  {
    var k, a := |u|, |Coming(target, i)|;
    ComingFits(target, i, n);
    if i == n {
      DoneIsDone(u, n, target);
    } else {
      ComingNext(target, i);
      ComingFits(target, i + 1, n);
      var a' := |Coming(target, i + 1)|;
      var f := Factorial(a') * Rising(i + 1 - k + a', n - k);
      forall slot | 0 <= slot < i + 1
        ensures Runs(Step(u, slot, i), i + 1, n, target) == if Good(u, i, target, slot) then f else 0
      {
        StepKeeps(u, slot, i);
        if Good(u, i, target, slot) {
          RunsInReach(Step(u, slot, i), i + 1, n, target);
        } else {
          LostIsLost(Step(u, slot, i), i + 1, n, target);
        }
      }
      RunsPerGoodSlot(u, i, n, target, i + 1, f);
      GoodSlotsTotal(u, i, target);
      OneStepOfProduct(a, a', i, k, n, i in target, f);
    }
  }

  lemma OneStepOfProduct(a: nat, a': nat, i: nat, k: nat, n: nat, wanted: bool, f: nat)
    requires k <= i < n && a == a' + One(wanted) && a' <= n - i - 1
    requires f == Factorial(a') * Rising(i + 1 - k + a', n - k)
    ensures f * (a + if wanted then 0 else i + 1 - k) == Factorial(a) * Rising(i - k + a, n - k)
  {
    var m := i - k + a;
    if wanted {
      assert Factorial(a) == a * Factorial(a');
      Regroup(Factorial(a'), Rising(m, n - k), a);
    } else {
      assert Rising(m, n - k) == (m + 1) * Rising(m + 1, n - k);
      Regroup(Factorial(a), Rising(m + 1, n - k), m + 1);
    }
  }

  lemma Regroup(x: nat, y: nat, z: nat)
    ensures x * y * z == (z * x) * y && x * y * z == x * (z * y)
  {
  }

  lemma {:induction false} RisingCompletes(a: nat, n: nat)
    requires a <= n
    ensures Factorial(a) * Rising(a, n) == Factorial(n)
    decreases n - a
  {
    if a < n {
      RisingCompletes(a + 1, n);
      Regroup(Factorial(a), Rising(a + 1, n), a + 1);
    }
  }

  lemma RunsFromStart(k: nat, n: nat, target: set<nat>)
    requires k <= n && |target| == k && forall x :: x in target ==> x < n
    ensures Runs(Sampling.Identity(k), k, n, target) == Factorial(n - k)
  {
    var u := Sampling.Identity(k);
    forall x | x in target && x < k
      ensures x in u
    {
      assert u[x] == x;
    }
    RunsInReach(u, k, n, target);
    ComingFits(target, k, n);
    RisingCompletes(|Coming(target, k)|, n - k);
  }

  // ---- runs are slot sequences ---------------------------------------------

  /** All slot sequences the indexes i to n - 1 can draw. */
  ghost function Draws(i: nat, n: nat): set<seq<nat>>
    decreases n - i
  {
    if i >= n then {[]} else set x, s | 0 <= x < i + 1 && s in Draws(i + 1, n) :: [x] + s
  }

  /** The slots are the ones the sampling loop can draw. */
  lemma {:induction false} DrawsAreFitting(i: nat, n: nat, s: seq<nat>)
    requires i <= n
    ensures s in Draws(i, n) <==> |s| == n - i && SlotsFit(i, s)
    decreases n - i
  {
    if i < n && s != [] {
      DrawsAreFitting(i + 1, n, s[1..]);
      assert s == [s[0]] + s[1..];
      assert SlotsFit(i, s) <==> s[0] <= i && SlotsFit(i + 1, s[1..]) by {
        forall j | 1 <= j < |s|
          ensures s[1..][j - 1] == s[j]
        {
        }
        if SlotsFit(i, s) {
          forall j | 0 <= j < |s[1..]|
            ensures s[1..][j] <= i + 1 + j
          {
            assert s[1..][j] == s[j + 1];
          }
        }
      }
    }
  }

  /** The reservoir after the slots, drawn from index i on. */
  function From(u: seq<nat>, i: nat, slots: seq<nat>): seq<nat>
    decreases |slots|
  {
    if slots == [] then u else From(Step(u, slots[0], i), i + 1, slots[1..])
  }

  lemma {:induction false} FromAppends(u: seq<nat>, i: nat, slots: seq<nat>, x: nat)
    ensures From(u, i, slots + [x]) == Step(From(u, i, slots), x, i + |slots|)
    decreases |slots|
  {
    if slots == [] {
      assert slots + [x] == [x] && [x][1..] == [];
    } else {
      assert (slots + [x])[0] == slots[0] && (slots + [x])[1..] == slots[1..] + [x];
      FromAppends(Step(u, slots[0], i), i + 1, slots[1..], x);
    }
  }

  lemma {:induction false} FromIsReservoir(k: nat, slots: seq<nat>)
    ensures From(Sampling.Identity(k), k, slots) == Reservoir(k, slots)
    decreases |slots|
  {
    if slots != [] {
      var front, last := slots[..|slots| - 1], slots[|slots| - 1];
      FromIsReservoir(k, front);
      FromAppends(Sampling.Identity(k), k, front, last);
      assert front + [last] == slots;
    }
  }

  ghost function Prefixed(x: nat, seqs: set<seq<nat>>): set<seq<nat>> {
    set s | s in seqs :: [x] + s
  }

  lemma {:induction false} PrefixedCount(x: nat, seqs: set<seq<nat>>)
    ensures |Prefixed(x, seqs)| == |seqs|
    decreases |seqs|
  {
    if seqs != {} {
      var s :| s in seqs;
      var rest := seqs - {s};
      PrefixedCount(x, rest);
      forall s' | s' in rest
        ensures [x] + s' != [x] + s
      {
        assert ([x] + s')[1..] == s' && ([x] + s)[1..] == s;
      }
      assert Prefixed(x, seqs) == Prefixed(x, rest) + {[x] + s};
    }
  }

  /** The slot sequences that lead from reservoir u to the set. */
  ghost function Leading(u: seq<nat>, i: nat, n: nat, target: set<nat>): set<seq<nat>> {
    set s | s in Draws(i, n) && Elements(From(u, i, s)) == target
  }

  /** Those with a first slot below c. */
  ghost function LeadingBySlot(u: seq<nat>, i: nat, n: nat, target: set<nat>, c: nat): set<seq<nat>> {
    set s | s in Leading(u, i, n, target) && s != [] && s[0] < c
  }

  lemma DisjointSum(a: set<seq<nat>>, b: set<seq<nat>>)
    requires a !! b
    ensures |a + b| == |a| + |b|
  {
  }

  lemma SlotSplits(u: seq<nat>, i: nat, n: nat, target: set<nat>, c: nat)
    requires i < n && 0 < c <= i + 1
    ensures LeadingBySlot(u, i, n, target, c)
            == LeadingBySlot(u, i, n, target, c - 1) + Prefixed(c - 1, Leading(Step(u, c - 1, i), i + 1, n, target))
    ensures LeadingBySlot(u, i, n, target, c - 1) !! Prefixed(c - 1, Leading(Step(u, c - 1, i), i + 1, n, target))
  {
    var rest := Leading(Step(u, c - 1, i), i + 1, n, target);
    forall s | s in rest
      ensures [c - 1] + s in LeadingBySlot(u, i, n, target, c)
    {
      assert ([c - 1] + s)[1..] == s;
    }
  }

  lemma OneMoreSlot(u: seq<nat>, i: nat, n: nat, target: set<nat>, c: nat)
    requires i < n && 0 < c <= i + 1
    ensures |LeadingBySlot(u, i, n, target, c)|
            == |LeadingBySlot(u, i, n, target, c - 1)| + |Leading(Step(u, c - 1, i), i + 1, n, target)|
  {
    var rest := Leading(Step(u, c - 1, i), i + 1, n, target);
    SlotSplits(u, i, n, target, c);
    DisjointSum(LeadingBySlot(u, i, n, target, c - 1), Prefixed(c - 1, rest));
    PrefixedCount(c - 1, rest);
  }

  lemma {:induction false} SlotRunsCount(u: seq<nat>, i: nat, n: nat, target: set<nat>, c: nat)
    requires i < n && c <= i + 1
    ensures |LeadingBySlot(u, i, n, target, c)| == RunsBySlot(u, i, n, target, c)
    decreases n - i, c
  {
    if c == 0 {
      assert LeadingBySlot(u, i, n, target, c) == {};
    } else {
      SlotRunsCount(u, i, n, target, c - 1);
      RunsCount(Step(u, c - 1, i), i + 1, n, target);
      OneMoreSlot(u, i, n, target, c);
    }
  }

  lemma {:induction false} RunsCount(u: seq<nat>, i: nat, n: nat, target: set<nat>)
    requires i <= n
    ensures |Leading(u, i, n, target)| == Runs(u, i, n, target)
    decreases n - i, i + 2
  {
    if i == n {
      assert Leading(u, i, n, target) == if Elements(u) == target then {[]} else {};
    } else {
      SlotRunsCount(u, i, n, target, i + 1);
      forall s | s in Leading(u, i, n, target)
        ensures s in LeadingBySlot(u, i, n, target, i + 1)
      {
        DrawsAreFitting(i, n, s);
      }
      assert LeadingBySlot(u, i, n, target, i + 1) == Leading(u, i, n, target);
    }
  }

  /** The slot sequences with a first slot below c. */
  ghost function DrawsBySlot(i: nat, n: nat, c: nat): set<seq<nat>> {
    set s | s in Draws(i, n) && s != [] && s[0] < c
  }

  lemma OneMoreDraw(i: nat, n: nat, c: nat)
    requires i < n && 0 < c <= i + 1
    ensures |DrawsBySlot(i, n, c)| == |DrawsBySlot(i, n, c - 1)| + |Draws(i + 1, n)|
  {
    assert DrawsBySlot(i, n, c) == DrawsBySlot(i, n, c - 1) + Prefixed(c - 1, Draws(i + 1, n));
    DisjointSum(DrawsBySlot(i, n, c - 1), Prefixed(c - 1, Draws(i + 1, n)));
    PrefixedCount(c - 1, Draws(i + 1, n));
  }

  lemma {:induction false} SlotDrawsCount(i: nat, n: nat, c: nat)
    requires i < n && c <= i + 1
    ensures |DrawsBySlot(i, n, c)| == c * |Draws(i + 1, n)|
    decreases c
  {
    if c == 0 {
      assert DrawsBySlot(i, n, c) == {};
    } else {
      SlotDrawsCount(i, n, c - 1);
      OneMoreDraw(i, n, c);
      Distribute(|Draws(i + 1, n)|, c - 1, 1);
    }
  }

  /** There are n!/k! of them in all. */
  lemma {:induction false} DrawsCount(i: nat, n: nat)
    requires i <= n
    ensures Factorial(i) * |Draws(i, n)| == Factorial(n)
    decreases n - i
  {
    if i < n {
      DrawsCount(i + 1, n);
      SlotDrawsCount(i, n, i + 1);
      forall s | s in Draws(i, n)
        ensures s in DrawsBySlot(i, n, i + 1)
      {
        DrawsAreFitting(i, n, s);
      }
      assert DrawsBySlot(i, n, i + 1) == Draws(i, n);
      Regroup(Factorial(i), |Draws(i + 1, n)|, i + 1);
    }
  }

  /** The slot sequences of a sampling of k out of n whose sample is the set. */
  ghost function SlotsFor(k: nat, n: nat, target: set<nat>): set<seq<nat>> {
    set s | s in Draws(k, n) && Elements(Reservoir(k, s)) == target
  }

  lemma SlotsForIsLeading(k: nat, n: nat, target: set<nat>)
    ensures SlotsFor(k, n, target) == Leading(Sampling.Identity(k), k, n, target)
  {
    forall s | s in Draws(k, n)
      ensures From(Sampling.Identity(k), k, s) == Reservoir(k, s)
    {
      FromIsReservoir(k, s);
    }
  }

  lemma SlotsForAreFitting(k: nat, n: nat, target: set<nat>, s: seq<nat>)
    requires k <= n
    ensures s in SlotsFor(k, n, target) <==> |s| == n - k && SlotsFit(k, s) && Elements(Reservoir(k, s)) == target
  {
    DrawsAreFitting(k, n, s);
  }

  /**
   Every set of k indexes below n is the sample of exactly (n - k)! of the n!/k! slot sequences
   that `RandomChunkSample` can draw.
   */
  lemma SampleIsUniform(k: nat, n: nat, target: set<nat>)
    requires k <= n && |target| == k && forall x :: x in target ==> x < n
    ensures |SlotsFor(k, n, target)| == Factorial(n - k) && Factorial(k) * |Draws(k, n)| == Factorial(n)
    ensures forall s :: s in SlotsFor(k, n, target) <==>
      |s| == n - k && SlotsFit(k, s) && Elements(Reservoir(k, s)) == target
  {
    DrawsCount(k, n);
    UniformCount(k, n, target);
    forall s
      ensures s in SlotsFor(k, n, target) <==> |s| == n - k && SlotsFit(k, s) && Elements(Reservoir(k, s)) == target
    {
      SlotsForAreFitting(k, n, target, s);
    }
  }

  lemma UniformCount(k: nat, n: nat, target: set<nat>)
    requires k <= n && |target| == k && forall x :: x in target ==> x < n
    ensures |SlotsFor(k, n, target)| == Factorial(n - k)
  {
    RunsFromStart(k, n, target);
    RunsCount(Sampling.Identity(k), k, n, target);
    SlotsForIsLeading(k, n, target);
  }
}
