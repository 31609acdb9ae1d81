/**
 Account failover of `read_stream_span` (src/object_format.rs): every enabled location of a
 chunk is tried a fixed number of times in a row, in rotation from a selected one.
 */
module Failover {
  import opened Basics
  import opened Modular
  import opened Manifest

  datatype Candidate = Candidate(account: string, message: int, primary: bool)

  /** The primary location if its account is enabled, then the enabled replicas in order. */
  function Candidates(primaryEnabled: bool, primary: Candidate, replicas: seq<Replica>,
                      enabled: set<string>): seq<Candidate>
    decreases |replicas|
  {
    if replicas == [] then (if primaryEnabled then [primary] else [])
    else
      var front := Candidates(primaryEnabled, primary, replicas[..|replicas| - 1], enabled);
      var last := replicas[|replicas| - 1];
      if last.account in enabled then front + [Candidate(last.account, last.message, false)] else front
  }

  predicate IsEnabledReplica(c: Candidate, replicas: seq<Replica>, enabled: set<string>) {
    exists i :: 0 <= i < |replicas| && replicas[i].account in enabled
      && c == Candidate(replicas[i].account, replicas[i].message, false)
  }

  lemma OneMoreReplica(c: Candidate, front: seq<Replica>, last: Replica, enabled: set<string>)
    ensures IsEnabledReplica(c, front + [last], enabled) <==>
      IsEnabledReplica(c, front, enabled)
        || (last.account in enabled && c == Candidate(last.account, last.message, false))
  {
    var all := front + [last];
    if IsEnabledReplica(c, front, enabled) {
      var i :| 0 <= i < |front| && front[i].account in enabled
        && c == Candidate(front[i].account, front[i].message, false);
      assert all[i] == front[i];
    }
    if last.account in enabled && c == Candidate(last.account, last.message, false) {
      assert all[|front|] == last;
    }
  }

  /** Every enabled location is a candidate and nothing else is; the enabled primary comes first. */
  lemma {:induction false} CandidatesAreEnabled(primaryEnabled: bool, primary: Candidate, replicas: seq<Replica>,
                                                enabled: set<string>)
    requires primary.primary
    ensures var cs := Candidates(primaryEnabled, primary, replicas, enabled);
      && (primaryEnabled ==> cs != [] && cs[0] == primary)
      && (forall c :: c in cs <==> (primaryEnabled && c == primary) || IsEnabledReplica(c, replicas, enabled))
    decreases |replicas|
  {
    if replicas != [] {
      var front, last := replicas[..|replicas| - 1], replicas[|replicas| - 1];
      CandidatesAreEnabled(primaryEnabled, primary, front, enabled);
      forall c
        ensures IsEnabledReplica(c, replicas, enabled) <==>
          IsEnabledReplica(c, front, enabled)
            || (last.account in enabled && c == Candidate(last.account, last.message, false))
      {
        OneMoreReplica(c, front, last, enabled);
        assert replicas == front + [last];
      }
    }
  }

  /** Where the enabled replicas stand. */
  ghost function Places(replicas: seq<Replica>, enabled: set<string>): seq<nat> {
    if replicas == [] then []
    else
      var n := |replicas| - 1;
      Places(replicas[..n], enabled) + if replicas[n].account in enabled then [n] else []
  }

  lemma {:induction false} PlacesAreExact(replicas: seq<Replica>, enabled: set<string>)
    ensures forall i: nat :: i in Places(replicas, enabled) <==> i < |replicas| && replicas[i].account in enabled
    ensures forall i, j :: 0 <= i < j < |Places(replicas, enabled)| ==>
      Places(replicas, enabled)[i] < Places(replicas, enabled)[j]
    decreases |replicas|
  {
    if replicas != [] {
      var n := |replicas| - 1;
      PlacesAreExact(replicas[..n], enabled);
      var front := Places(replicas[..n], enabled);
      assert forall i :: 0 <= i < |front| ==> front[i] in front;
    }
  }

  lemma {:induction false} CandidateAt(primaryEnabled: bool, primary: Candidate, replicas: seq<Replica>,
                                       enabled: set<string>, k: nat)
    ensures |Candidates(primaryEnabled, primary, replicas, enabled)|
            == One(primaryEnabled) + |Places(replicas, enabled)|
    ensures k < |Places(replicas, enabled)| ==>
      var i := Places(replicas, enabled)[k];
      && i < |replicas|
      && Candidates(primaryEnabled, primary, replicas, enabled)[One(primaryEnabled) + k]
         == Candidate(replicas[i].account, replicas[i].message, false)
    decreases |replicas|
  {
    if replicas != [] {
      CandidateAt(primaryEnabled, primary, replicas[..|replicas| - 1], enabled, k);
    }
  }

  predicate IsCopyOf(c: Candidate, r: Replica) {
    c == Candidate(r.account, r.message, false)
  }

  /** The enabled primary, then every enabled replica once, in the stored order. */
  lemma CandidatesKeepOrder(primaryEnabled: bool, primary: Candidate, replicas: seq<Replica>, enabled: set<string>,
                            j: nat, k: nat)
    requires primary.primary
    requires j < k < |Candidates(primaryEnabled, primary, replicas, enabled)|
    ensures var cs := Candidates(primaryEnabled, primary, replicas, enabled);
      && (cs[j].primary ==> primaryEnabled && j == 0 && cs[0] == primary)
      && (!cs[j].primary ==>
            exists a, b :: 0 <= a < b < |replicas| && IsCopyOf(cs[j], replicas[a]) && IsCopyOf(cs[k], replicas[b]))
  {
    PlacesAreExact(replicas, enabled);
    CandidatesAreEnabled(primaryEnabled, primary, replicas, enabled);
    CandidateAt(primaryEnabled, primary, replicas, enabled, k - One(primaryEnabled));
    if j >= One(primaryEnabled) {
      CandidateAt(primaryEnabled, primary, replicas, enabled, j - One(primaryEnabled));
      var places := Places(replicas, enabled);
      var a, b := places[j - One(primaryEnabled)], places[k - One(primaryEnabled)];
      assert 0 <= a < b < |replicas|;
      assert IsCopyOf(Candidates(primaryEnabled, primary, replicas, enabled)[j], replicas[a]);
    }
  }

  /** `account_failover_candidate_index`. */
  function CandidateIndex(selected: nat, count: nat, perAccount: nat, attempt: nat): (index: nat)
    requires count > 0
    ensures index < count
  {
    (selected + attempt / Max(perAccount, 1)) % count
  }

  predicate FitsI32(message: int) { -0x8000_0000 <= message <= 0x7FFF_FFFF }

  /** The attempt reaches a location whose message id is usable, and the download succeeds. */
  predicate Works(candidates: seq<Candidate>, order: nat, perAccount: nat, replies: seq<Option<seq<nat>>>, attempt: nat)
    requires candidates != [] && attempt < |replies|
  {
    FitsI32(candidates[CandidateIndex(order % |candidates|, |candidates|, perAccount, attempt)].message)
      && replies[attempt].Some?
  }

  datatype Outcome = NoLocation | Served(attempt: nat, index: nat, bytes: seq<nat>) | AllFailed

  function TotalAttempts(perAccount: nat, count: nat): nat {
    Min(perAccount * count, U64_MAX)
  }

  /** The attempt loop; `replies[a]` is what the download of attempt `a` returns. */
  method Download(order: nat, candidates: seq<Candidate>, retries: U64, replies: seq<Option<seq<nat>>>)
    returns (r: Outcome)
    requires |replies| >= TotalAttempts(Min(retries + 1, U64_MAX), |candidates|)
    ensures r.NoLocation? <==> candidates == []
    ensures r.Served? ==>
      var perAccount := Min(retries + 1, U64_MAX);
      && r.attempt < TotalAttempts(perAccount, |candidates|)
      && r.index == CandidateIndex(order % |candidates|, |candidates|, perAccount, r.attempt)
      && Works(candidates, order, perAccount, replies, r.attempt) && replies[r.attempt] == Some(r.bytes)
      && forall a :: 0 <= a < r.attempt ==> !Works(candidates, order, perAccount, replies, a)
    ensures r.AllFailed? ==>
      var perAccount := Min(retries + 1, U64_MAX);
      forall a :: 0 <= a < TotalAttempts(perAccount, |candidates|) ==> !Works(candidates, order, perAccount, replies, a)
  {
    if candidates == [] {
      return NoLocation;
    }
    var perAccount := Min(retries + 1, U64_MAX);
    var selected := order % |candidates|;
    var total := TotalAttempts(perAccount, |candidates|);
    for attempt := 0 to total
      invariant forall a :: 0 <= a < attempt ==> !Works(candidates, order, perAccount, replies, a)
    {
      var index := CandidateIndex(selected, |candidates|, perAccount, attempt);
      if !FitsI32(candidates[index].message) {
        continue;
      }
      if replies[attempt].Some? {
        return Served(attempt, index, replies[attempt].value);
      }
    }
    return AllFailed;
  }

  // ---- every location gets its turn ----------------------------------------

  /** How many locations come before this one in the rotation from `selected`. */
  function Turn(selected: nat, count: nat, index: nat): nat
    requires selected < count && index < count
  {
    if index >= selected then index - selected else index + count - selected
  }

  lemma RotationReaches(selected: nat, count: nat, turn: nat, index: nat)
    requires selected < count && index < count && turn < count
    ensures (selected + turn) % count == index <==> turn == Turn(selected, count, index)
  {
    var t := Turn(selected, count, index);
    assert (selected + t) % count == index by {
      if index >= selected {
        RemainderIs(selected + t, 0, count, index);
      } else {
        RemainderIs(selected + t, 1, count, index);
      }
    }
    if (selected + turn) % count == index {
      SameRemainder(selected, turn, t, count);
    }
  }

  lemma BlockOf(attempt: nat, perAccount: nat, block: nat)
    requires perAccount > 0
    ensures attempt / perAccount == block <==> block * perAccount <= attempt < (block + 1) * perAccount
  {
    DivMod(attempt, perAccount);
    assert (block + 1) * perAccount == perAccount * block + perAccount;
    if block * perAccount <= attempt < (block + 1) * perAccount {
      RemainderIs(attempt, block, perAccount, attempt - block * perAccount);
    }
  }

  lemma BlocksFit(attempt: nat, perAccount: nat, count: nat)
    requires perAccount > 0 && attempt < perAccount * count
    ensures attempt / perAccount < count
  {
  }

  /**
   Within the loop, the attempts on one location are exactly one run of `perAccount`
   consecutive attempts, and the locations take turns in rotation from the selected one.
   */
  lemma EveryLocationInTurn(selected: nat, count: nat, perAccount: nat, index: nat, attempt: nat)
    requires selected < count && index < count && perAccount > 0 && attempt < perAccount * count
    ensures var turn := Turn(selected, count, index);
      CandidateIndex(selected, count, perAccount, attempt) == index <==>
        turn * perAccount <= attempt < (turn + 1) * perAccount
  {
    var turn := Turn(selected, count, index);
    BlocksFit(attempt, perAccount, count);
    RotationReaches(selected, count, attempt / perAccount, index);
    BlockOf(attempt, perAccount, turn);
  }

  lemma TurnFits(selected: nat, count: nat, perAccount: nat, index: nat)
    requires selected < count && index < count && perAccount > 0
    ensures (Turn(selected, count, index) + 1) * perAccount <= perAccount * count
  {
  }

  /** A download fails only after every location has failed all its attempts. */
  lemma FailureMeansAllExhausted(order: nat, candidates: seq<Candidate>, perAccount: nat,
                                 replies: seq<Option<seq<nat>>>, index: nat, j: nat)
    requires candidates != [] && perAccount > 0 && perAccount * |candidates| <= U64_MAX
      && |replies| >= perAccount * |candidates|
    requires forall a :: 0 <= a < TotalAttempts(perAccount, |candidates|) ==>
      !Works(candidates, order, perAccount, replies, a)
    requires index < |candidates| && j < perAccount
    ensures var a := Turn(order % |candidates|, |candidates|, index) * perAccount + j;
      && a < |replies| && CandidateIndex(order % |candidates|, |candidates|, perAccount, a) == index
      && !(-0x8000_0000 <= candidates[index].message <= 0x7FFF_FFFF && replies[a].Some?)
  {
    var selected, count := order % |candidates|, |candidates|;
    var turn := Turn(selected, count, index);
    var a := turn * perAccount + j;
    TurnFits(selected, count, perAccount, index);
    assert (turn + 1) * perAccount == turn * perAccount + perAccount;
    EveryLocationInTurn(selected, count, perAccount, index, a);
    assert !Works(candidates, order, perAccount, replies, a);
  }

  /** With the configured bound of eight retries the attempt count cannot saturate. */
  lemma ConfiguredAttemptsFit(retries: nat, count: nat)
    requires retries <= 8 && count <= U32_MAX + 1
    ensures Min(retries + 1, U64_MAX) * count <= U64_MAX
  {
  }
}
