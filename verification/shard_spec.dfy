/** What `Rebalance` (src/shardmaster/server.go:64-128) computes, for any number of shards, and what
    makes that assignment a good one. */
module ShardSpec {
  import opened Collections

  /** An assignment gives every shard the id of a group; 0 is no group. */
  type Assignment = seq<int>

  ghost predicate Increasing(s: seq<int>) {
    forall i, j :: 0 <= i < j < |s| ==> s[i] < s[j]
  }

  /** The elements of a set in increasing order, as the source gets them by sorting the map's keys. */
  ghost function Sorted(s: set<int>): (r: seq<int>)
    ensures Increasing(r) && |r| == |s|
    ensures forall x :: x in r <==> x in s
  {
    if s == {} then []
    else
      MaxExists(s);
      var m :| m in s && forall x :: x in s ==> x <= m;
      Sorted(s - {m}) + [m]
  }

  lemma Pick<T>(s: set<T>) returns (x: T)
    requires s != {}
    ensures x in s
  {
    x :| x in s;
  }

  lemma {:induction false} MaxExists(s: set<int>)
    requires s != {}
    ensures exists m :: m in s && forall x :: x in s ==> x <= m
  {
    var y := Pick(s);
    var rest := s - {y};
    if rest != {} {
      MaxExists(rest);
      var m :| m in rest && forall x :: x in rest ==> x <= m;
      var top := if m < y then y else m;
      assert top in s && forall x :: x in s ==> x == y || x in rest;
    } else {
      assert forall x :: x in s ==> x == y || x in rest;
    }
  }

  /** Two increasing sequences with the same elements are the same. */
  lemma {:induction false} IncreasingUnique(a: seq<int>, b: seq<int>)
    requires Increasing(a) && Increasing(b) && forall x :: x in a <==> x in b
    ensures a == b
    decreases |a|
  {
    assert (|a| > 0 ==> a[0] in a) && (|b| > 0 ==> b[0] in b);
    if |a| > 0 && |b| > 0 {
      var x, y := a[|a| - 1], b[|b| - 1];
      assert x in b && y in a;
      assert x == y;
      var a', b' := a[..|a| - 1], b[..|b| - 1];
      forall z ensures z in a' <==> z in b' {
        if z in a' { assert z in a && z != x; }
        if z in b' { assert z in b && z != y; }
      }
      IncreasingUnique(a', b');
    }
  }

  function Position(gids: seq<int>, g: int): (i: nat)
    requires g in gids
    ensures i < |gids| && gids[i] == g
  {
    if gids[|gids| - 1] == g then |gids| - 1 else Position(gids[..|gids| - 1], g)
  }

  /** The share of the i-th of `groups` groups. */
  function Target(shards: nat, groups: nat, i: nat): nat
    requires groups > 0
  {
    if i < shards % groups then shards / groups + 1 else shards / groups
  }

  /** The share of group `g`: 0 when it is not among the groups. */
  function Quota(shards: nat, gids: seq<int>, g: int): nat {
    if g in gids then Target(shards, |gids|, Position(gids, g)) else 0
  }

  /** How many shards `g` owns. */
  function Owned(a: Assignment, g: int): (n: nat)
    ensures n <= |a|
  {
    if |a| == 0 then 0 else Owned(a[..|a| - 1], g) + if a[|a| - 1] == g then 1 else 0
  }

  /** A shard stays when its group is live and it is among the first of that group's share. */
  predicate Keeps(a: Assignment, gids: seq<int>, s: nat)
    requires s < |a|
  {
    Owned(a[..s], a[s]) < Quota(|a|, gids, a[s])
  }

  /** The shards before `k` that do not stay, in order. */
  function Freed(a: Assignment, gids: seq<int>, k: nat): seq<int>
    requires k <= |a|
  {
    if k == 0 then []
    else Freed(a, gids, k - 1) + if Keeps(a, gids, k - 1) then [] else [k - 1]
  }

  lemma {:induction false} FreedMeaning(a: Assignment, gids: seq<int>, k: nat)
    requires k <= |a|
    ensures Increasing(Freed(a, gids, k))
    ensures forall s :: s in Freed(a, gids, k) <==> 0 <= s < k && !Keeps(a, gids, s)
  {
    hide Keeps;
    if k > 0 {
      FreedMeaning(a, gids, k - 1);
      var rest := Freed(a, gids, k - 1);
      assert forall i :: 0 <= i < |rest| ==> rest[i] in rest;
    }
  }

  function Repeat(g: int, n: nat): (r: seq<int>)
    ensures |r| == n && forall i :: 0 <= i < n ==> r[i] == g
  {
    seq(n, _ => g)
  }

  /** How many shards the i-th group keeps. */
  function Stays(a: Assignment, gids: seq<int>, i: nat): nat
    requires i < |gids|
  {
    Min(Owned(a, gids[i]), Target(|a|, |gids|, i))
  }

  /** The receivers: each of the first `m` groups as often as it is short of its share. */
  function Needed(a: Assignment, gids: seq<int>, m: nat): seq<int>
    requires m <= |gids|
  {
    if m == 0 then []
    else Needed(a, gids, m - 1) + Repeat(gids[m - 1], Target(|a|, |gids|, m - 1) - Stays(a, gids, m - 1))
  }

  /** The assignment `Rebalance` leaves: what stays, stays; the freed shards go to the receivers in order. */
  function Rebalanced(a: Assignment, gids: seq<int>): (r: Assignment)
    ensures |r| == |a|
  {
    if gids == [] then Repeat(0, |a|)
    else
      var need := Needed(a, gids, |gids|);
      seq(|a|, s requires 0 <= s < |a| =>
        var k := |Freed(a, gids, s)|;
        if Keeps(a, gids, s) then a[s] else if k < |need| then need[k] else 0)
  }

  // ---------------------------------------------------------------- sums

  function Sum(s: seq<nat>): nat {
    if |s| == 0 then 0 else Sum(s[..|s| - 1]) + s[|s| - 1]
  }

  lemma {:induction false} SumUpdate(s: seq<nat>, i: nat, v: nat)
    requires i < |s|
    ensures Sum(s[i := v]) == Sum(s) - s[i] + v
  {
    var last := |s| - 1;
    if i == last {
      assert s[i := v][..last] == s[..last];
    } else {
      assert s[i := v][..last] == s[..last][i := v];
      SumUpdate(s[..last], i, v);
    }
  }

  lemma {:induction false} SumLess(a: seq<nat>, b: seq<nat>)
    requires |a| == |b| && forall i :: 0 <= i < |a| ==> a[i] <= b[i]
    ensures Sum(a) <= Sum(b)
  {
    if |a| > 0 { SumLess(a[..|a| - 1], b[..|b| - 1]); }
  }

  lemma {:induction false} SumZero(n: nat)
    ensures Sum(seq(n, _ => 0)) == 0
  {
    if n > 0 {
      assert seq(n, _ => 0)[..n - 1] == seq(n - 1, _ => 0);
      SumZero(n - 1);
    }
  }

  /** The shares of the first `m` groups. */
  function Targets(shards: nat, groups: nat, m: nat): seq<nat>
    requires groups > 0
  {
    seq(m, (i: nat) => Target(shards, groups, i))
  }

  /** The shares add up to the number of shards. */
  lemma SharesAddUp(shards: nat, groups: nat)
    requires groups > 0
    ensures Sum(Targets(shards, groups, groups)) == shards
  {
    FirstShares(shards, groups, groups);
    assert shards == groups * (shards / groups) + shards % groups;
  }

  lemma {:induction false} FirstShares(shards: nat, groups: nat, m: nat)
    requires groups > 0
    ensures Sum(Targets(shards, groups, m)) == m * (shards / groups) + Min(m, shards % groups)
  {
    if m > 0 {
      assert Targets(shards, groups, m)[..m - 1] == Targets(shards, groups, m - 1);
      FirstShares(shards, groups, m - 1);
      assert m * (shards / groups) == (m - 1) * (shards / groups) + shards / groups;
    }
  }

  // ---------------------------------------------------------------- counting what stays

  ghost predicate Gids(gids: seq<int>) {
    gids != [] && Increasing(gids)
  }

  lemma {:induction false} PositionUnique(gids: seq<int>, i: nat)
    requires Increasing(gids) && i < |gids|
    ensures Position(gids, gids[i]) == i
  {
  }

  /** Per group, how many of the first `k` shards stay with it. */
  function StayCounts(a: Assignment, gids: seq<int>, k: nat): seq<nat>
    requires k <= |a|
  {
    seq(|gids|, i requires 0 <= i < |gids| => Min(Owned(a[..k], gids[i]), Target(|a|, |gids|, i)))
  }

  lemma {:induction false} OwnedNext(a: Assignment, k: nat, g: int)
    requires k < |a|
    ensures Owned(a[..k + 1], g) == Owned(a[..k], g) + if a[k] == g then 1 else 0
  {
    assert a[..k + 1][..k] == a[..k];
  }

  lemma OneMore(a: Assignment, gids: seq<int>, k: nat, i: nat)
    requires Gids(gids) && k < |a| && i < |gids|
    ensures var t := Target(|a|, |gids|, i);
            Min(Owned(a[..k + 1], gids[i]), t) ==
            Min(Owned(a[..k], gids[i]), t) + if Keeps(a, gids, k) && a[k] == gids[i] then 1 else 0
  {
    PositionUnique(gids, i);
    OwnedNext(a, k, gids[i]);
  }

  /** Looking at one more shard: exactly one count goes up, or the shard is freed. */
  lemma StayCountsNext(a: Assignment, gids: seq<int>, k: nat)
    requires Gids(gids) && k < |a|
    ensures Sum(StayCounts(a, gids, k + 1)) == Sum(StayCounts(a, gids, k)) + if Keeps(a, gids, k) then 1 else 0
  {
    hide Sum, Target, Owned;
    var before, now := StayCounts(a, gids, k), StayCounts(a, gids, k + 1);
    forall i | 0 <= i < |gids| ensures now[i] == before[i] + if Keeps(a, gids, k) && a[k] == gids[i] then 1 else 0 {
      OneMore(a, gids, k, i);
    }
    if Keeps(a, gids, k) {
      KeptIsLive(a, gids, k);
      var i := Position(gids, a[k]);
      assert forall j :: 0 <= j < |gids| && j != i ==> gids[j] != a[k];
      assert now == before[i := before[i] + 1];
      SumUpdate(before, i, before[i] + 1);
    } else {
      assert now == before;
    }
  }

  lemma KeptIsLive(a: Assignment, gids: seq<int>, k: nat)
    requires k < |a| && Keeps(a, gids, k)
    ensures a[k] in gids
  {
  }

  /** Every shard either stays with its group or is freed. */
  lemma {:induction false} StayOrFreed(a: Assignment, gids: seq<int>, k: nat)
    requires Gids(gids) && k <= |a|
    ensures |Freed(a, gids, k)| + Sum(StayCounts(a, gids, k)) == k
  {
    hide Keeps, StayCounts, Sum;
    if k == 0 {
      NothingStays(a, gids);
    } else {
      StayOrFreed(a, gids, k - 1);
      StayCountsNext(a, gids, k - 1);
    }
  }

  lemma NothingStays(a: Assignment, gids: seq<int>)
    requires gids != []
    ensures Sum(StayCounts(a, gids, 0)) == 0
  {
    assert StayCounts(a, gids, 0) == seq(|gids|, _ => 0);
    SumZero(|gids|);
  }

  lemma {:induction false} NeededLength(a: Assignment, gids: seq<int>, m: nat)
    requires gids != [] && m <= |gids|
    ensures |Needed(a, gids, m)| + Sum(StayCounts(a, gids, |a|)[..m]) == Sum(Targets(|a|, |gids|, m))
  {
    var stay := StayCounts(a, gids, |a|);
    assert a[..|a|] == a;
    if m > 0 {
      assert stay[..m][..m - 1] == stay[..m - 1];
      assert Targets(|a|, |gids|, m)[..m - 1] == Targets(|a|, |gids|, m - 1);
      NeededLength(a, gids, m - 1);
    }
  }

  /** There are exactly as many receivers as freed shards, so `need[i]` is never out of range. */
  lemma {:induction false} FreedMatchesNeeded(a: Assignment, gids: seq<int>)
    requires Gids(gids)
    ensures |Freed(a, gids, |a|)| == |Needed(a, gids, |gids|)|
  {
    StayOrFreed(a, gids, |a|);
    NeededLength(a, gids, |gids|);
    assert StayCounts(a, gids, |a|)[..|gids|] == StayCounts(a, gids, |a|);
    SharesAddUp(|a|, |gids|);
  }

  lemma {:induction false} FreedGrows(a: Assignment, gids: seq<int>, j: nat, k: nat)
    requires j <= k <= |a|
    ensures |Freed(a, gids, j)| <= |Freed(a, gids, k)|
    ensures Freed(a, gids, j) == Freed(a, gids, k)[..|Freed(a, gids, j)|]
    decreases k
  {
    hide Keeps;
    if j < k { FreedGrows(a, gids, j, k - 1); }
  }

  /** A freed shard is the next in the pool and gets the next receiver. */
  lemma {:induction false} FreedShard(a: Assignment, gids: seq<int>, s: nat)
    requires Gids(gids) && s < |a| && !Keeps(a, gids, s)
    ensures |Freed(a, gids, s)| < |Freed(a, gids, |a|)| == |Needed(a, gids, |gids|)|
    ensures Freed(a, gids, |a|)[|Freed(a, gids, s)|] == s
    ensures Rebalanced(a, gids)[s] == Needed(a, gids, |gids|)[|Freed(a, gids, s)|]
  {
    hide Keeps, Needed;
    FreedMatchesNeeded(a, gids);
    FreedPlace(a, gids, s);
  }

  lemma {:induction false} FreedPlace(a: Assignment, gids: seq<int>, s: nat)
    requires s < |a| && !Keeps(a, gids, s)
    ensures |Freed(a, gids, s)| < |Freed(a, gids, |a|)|
    ensures Freed(a, gids, |a|)[|Freed(a, gids, s)|] == s
  {
    hide Keeps, Freed;
    FreedGrows(a, gids, s + 1, |a|);
    FreedNext(a, gids, s);
    var next := Freed(a, gids, s + 1);
    assert next[|Freed(a, gids, s)|] == s;
  }

  lemma FreedNext(a: Assignment, gids: seq<int>, s: nat)
    requires s < |a|
    ensures Freed(a, gids, s + 1) == Freed(a, gids, s) + if Keeps(a, gids, s) then [] else [s]
  {
    hide Keeps;
  }

  // ---------------------------------------------------------------- exactness

  lemma {:induction false} OwnedAppend(a: Assignment, b: Assignment, g: int)
    ensures Owned(a + b, g) == Owned(a, g) + Owned(b, g)
  {
    if |b| == 0 {
      assert a + b == a;
    } else {
      assert (a + b)[..|a + b| - 1] == a + b[..|b| - 1];
      OwnedAppend(a, b[..|b| - 1], g);
    }
  }

  lemma {:induction false} OwnedRepeat(g: int, n: nat, x: int)
    ensures Owned(Repeat(g, n), x) == if x == g then n else 0
  {
    if n > 0 {
      assert Repeat(g, n)[..n - 1] == Repeat(g, n - 1);
      OwnedRepeat(g, n - 1, x);
    }
  }

  lemma {:induction false} OwnedNeeded(a: Assignment, gids: seq<int>, m: nat, i: nat)
    requires Gids(gids) && m <= |gids| && i < |gids|
    ensures Owned(Needed(a, gids, m), gids[i]) == if i < m then Target(|a|, |gids|, i) - Stays(a, gids, i) else 0
  {
    if m > 0 {
      OwnedNeeded(a, gids, m - 1, i);
      var n := Target(|a|, |gids|, m - 1) - Stays(a, gids, m - 1);
      OwnedAppend(Needed(a, gids, m - 1), Repeat(gids[m - 1], n), gids[i]);
      OwnedRepeat(gids[m - 1], n, gids[i]);
    }
  }

  /** Group by group: what stays among the first `k` shards, and what the freed ones receive. */
  lemma {:induction false} OwnedAfter(a: Assignment, gids: seq<int>, k: nat, i: nat)
    requires Gids(gids) && k <= |a| && i < |gids|
    ensures |Freed(a, gids, k)| <= |Needed(a, gids, |gids|)|
    ensures Owned(Rebalanced(a, gids)[..k], gids[i])
         == Min(Owned(a[..k], gids[i]), Target(|a|, |gids|, i))
           + Owned(Needed(a, gids, |gids|)[..|Freed(a, gids, k)|], gids[i])
  {
    hide Keeps, Needed, Target, Rebalanced;
    FreedMatchesNeeded(a, gids);
    FreedGrows(a, gids, k, |a|);
    if k > 0 {
      OwnedAfter(a, gids, k - 1, i);
      OwnedNext(Rebalanced(a, gids), k - 1, gids[i]);
      OneMore(a, gids, k - 1, i);
      if !Keeps(a, gids, k - 1) {
        FreedShard(a, gids, k - 1);
        OwnedNext(Needed(a, gids, |gids|), |Freed(a, gids, k - 1)|, gids[i]);
      } else {
        KeptShard(a, gids, k - 1);
      }
    }
  }

  lemma KeptShard(a: Assignment, gids: seq<int>, s: nat)
    requires Gids(gids) && s < |a| && Keeps(a, gids, s)
    ensures Rebalanced(a, gids)[s] == a[s]
  {
    hide Keeps, Needed;
  }

  /** Rebalance is exact: the group with the i-th smallest id owns exactly its target. */
  lemma ExactShares(a: Assignment, gids: seq<int>, i: nat)
    requires Gids(gids) && i < |gids|
    ensures Owned(Rebalanced(a, gids), gids[i]) == Target(|a|, |gids|, i)
  {
    hide Rebalanced, Needed, Freed;
    var r, need := Rebalanced(a, gids), Needed(a, gids, |gids|);
    OwnedAfter(a, gids, |a|, i);
    FreedMatchesNeeded(a, gids);
    OwnedNeeded(a, gids, |gids|, i);
    assert r[..|a|] == r && a[..|a|] == a && need[..|need|] == need;
  }

  lemma {:induction false} NeededAreGroups(a: Assignment, gids: seq<int>, m: nat, g: int)
    requires Gids(gids) && m <= |gids| && g in Needed(a, gids, m)
    ensures g in gids && Owned(a, g) < Quota(|a|, gids, g)
  {
    if g in Needed(a, gids, m - 1) {
      NeededAreGroups(a, gids, m - 1, g);
    } else {
      PositionUnique(gids, m - 1);
    }
  }

  /** Rebalance is safe: every shard ends with a live group. */
  lemma EveryShardLive(a: Assignment, gids: seq<int>, s: nat)
    requires Gids(gids) && s < |a|
    ensures Rebalanced(a, gids)[s] in gids
  {
    if !Keeps(a, gids, s) {
      FreedShard(a, gids, s);
      NeededAreGroups(a, gids, |gids|, Rebalanced(a, gids)[s]);
    }
  }

  /** No two groups' shares differ by more than one. */
  lemma SharesEven(a: Assignment, gids: seq<int>, i: nat, j: nat)
    requires Gids(gids) && i < |gids| && j < |gids|
    ensures Owned(Rebalanced(a, gids), gids[i]) <= Owned(Rebalanced(a, gids), gids[j]) + 1
  {
    ExactShares(a, gids, i);
    ExactShares(a, gids, j);
  }

  // ---------------------------------------------------------------- which shards move

  lemma {:induction false} OwnedPrefix(a: Assignment, k: nat, g: int)
    requires k <= |a|
    ensures Owned(a[..k], g) <= Owned(a, g)
    decreases |a| - k
  {
    if k == |a| {
      assert a[..k] == a;
    } else {
      OwnedNext(a, k, g);
      OwnedPrefix(a, k + 1, g);
    }
  }

  /** A shard moves exactly when it was not among the first of its group's share. */
  lemma MovesExactly(a: Assignment, gids: seq<int>, s: nat)
    requires Gids(gids) && s < |a|
    ensures Rebalanced(a, gids)[s] != a[s] <==> !Keeps(a, gids, s)
  {
    if !Keeps(a, gids, s) {
      FreedShard(a, gids, s);
      NeededAreGroups(a, gids, |gids|, Rebalanced(a, gids)[s]);
      OwnedPrefix(a, s, a[s]);
    }
  }

  /** A shard with a live owner moves only if that owner had more than its share, and it only moves to
      a group that had less. */
  lemma {:induction false} MovesForAReason(a: Assignment, gids: seq<int>, s: nat)
    requires Gids(gids) && s < |a| && Rebalanced(a, gids)[s] != a[s]
    ensures a[s] in gids ==> Owned(a, a[s]) > Quota(|a|, gids, a[s])
    ensures Rebalanced(a, gids)[s] in gids
    ensures Owned(a, Rebalanced(a, gids)[s]) < Quota(|a|, gids, Rebalanced(a, gids)[s])
  {
    MovesExactly(a, gids, s);
    FreedShard(a, gids, s);
    NeededAreGroups(a, gids, |gids|, Rebalanced(a, gids)[s]);
    OwnedNext(a, s, a[s]);
    OwnedPrefix(a, s + 1, a[s]);
  }

  /** How many of the first `k` shards two assignments disagree on. */
  function Moved(a: Assignment, b: Assignment, k: nat): nat
    requires k <= |a| && k <= |b|
  {
    if k == 0 then 0 else Moved(a, b, k - 1) + if a[k - 1] != b[k - 1] then 1 else 0
  }

  lemma {:induction false} MovedIsFreed(a: Assignment, gids: seq<int>, k: nat)
    requires Gids(gids) && k <= |a|
    ensures Moved(a, Rebalanced(a, gids), k) == |Freed(a, gids, k)|
  {
    hide Keeps, Rebalanced;
    if k > 0 {
      MovedIsFreed(a, gids, k - 1);
      MovesExactly(a, gids, k - 1);
    }
  }

  /** Per group, how many of the first `k` shards it could have kept in going from `a` to `b`. */
  function Common(a: Assignment, b: Assignment, gids: seq<int>, k: nat): seq<nat>
    requires k <= |a| && k <= |b|
  {
    seq(|gids|, i requires 0 <= i < |gids| => Min(Owned(a[..k], gids[i]), Owned(b[..k], gids[i])))
  }

  lemma CommonNext(a: Assignment, b: Assignment, gids: seq<int>, k: nat)
    requires Gids(gids) && k < |a| && k < |b| && b[k] in gids
    ensures Sum(Common(a, b, gids, k)) + (if a[k] == b[k] then 1 else 0) <= Sum(Common(a, b, gids, k + 1))
  {
    hide Sum, Owned;
    var before, now := Common(a, b, gids, k), Common(a, b, gids, k + 1);
    forall i | 0 <= i < |gids| ensures before[i] + (if a[k] == b[k] == gids[i] then 1 else 0) <= now[i] {
      OwnedNext(a, k, gids[i]);
      OwnedNext(b, k, gids[i]);
    }
    if a[k] == b[k] {
      var i := Position(gids, b[k]);
      SumUpdate(before, i, before[i] + 1);
      SumLess(before[i := before[i] + 1], now);
    } else {
      SumLess(before, now);
    }
  }

  lemma {:induction false} UnmovedAreCommon(a: Assignment, b: Assignment, gids: seq<int>, k: nat)
    requires Gids(gids) && k <= |a| == |b|
    requires forall s :: 0 <= s < |b| ==> b[s] in gids
    ensures k <= Moved(a, b, k) + Sum(Common(a, b, gids, k))
  {
    hide Common, Sum;
    if k > 0 {
      UnmovedAreCommon(a, b, gids, k - 1);
      CommonNext(a, b, gids, k - 1);
    }
  }

  /** Rebalance is minimal: no assignment of all shards to live groups that gives every group the same
      share moves fewer shards. */
  lemma {:induction false} MovesLeast(a: Assignment, gids: seq<int>, b: Assignment)
    requires Gids(gids) && |b| == |a|
    requires forall s :: 0 <= s < |b| ==> b[s] in gids
    requires forall i :: 0 <= i < |gids| ==> Owned(b, gids[i]) == Owned(Rebalanced(a, gids), gids[i])
    ensures Moved(a, Rebalanced(a, gids), |a|) <= Moved(a, b, |a|)
  {
    hide Rebalanced;
    MovedIsFreed(a, gids, |a|);
    StayOrFreed(a, gids, |a|);
    UnmovedAreCommon(a, b, gids, |a|);
    assert a[..|a|] == a && b[..|a|] == b;
    forall i | 0 <= i < |gids| ensures Common(a, b, gids, |a|)[i] <= StayCounts(a, gids, |a|)[i] {
      ExactShares(a, gids, i);
    }
    SumLess(Common(a, b, gids, |a|), StayCounts(a, gids, |a|));
  }

  // ---------------------------------------------------------------- directional transfers

  lemma QuotientShrinks(shards: nat, groups: nat, groups': nat)
    requires 0 < groups <= groups'
    ensures shards / groups' <= shards / groups
    ensures shards / groups' == shards / groups ==> shards % groups' <= shards % groups
  {
    var q, r := Divided(shards, groups);
    var q', r' := Divided(shards, groups');
    Quotients(shards, groups, q, r, groups', q', r');
  }

  lemma Divided(x: nat, d: nat) returns (q: nat, r: nat)
    requires d > 0
    ensures q == x / d && r == x % d && x == d * q + r && r < d
  {
    q, r := x / d, x % d;
  }

  /** Dividing by more gives no greater quotient, and with the same quotient no greater remainder. */
  lemma Quotients(x: nat, d: nat, q: nat, r: nat, d': nat, q': nat, r': nat)
    requires x == d * q + r && r < d && x == d' * q' + r' && d <= d'
    ensures q' <= q && (q' == q ==> r' <= r)
  {
    MulLess(d, d', q');
    if q' > q {
      MulLess(q + 1, q', d);
    }
  }

  lemma MulLess(a: nat, b: nat, c: nat)
    requires a <= b
    ensures a * c <= b * c && c * a <= c * b
  {
  }

  /** Shares shrink when groups are added and ranks go up. */
  lemma TargetShrinks(shards: nat, groups: nat, i: nat, groups': nat, i': nat)
    requires 0 < groups <= groups' && i <= i'
    ensures Target(shards, groups', i') <= Target(shards, groups, i)
  {
    QuotientShrinks(shards, groups, groups');
  }

  /** The position of a group is the number of smaller ones. */
  lemma {:induction false} PositionCounts(gids: seq<int>, g: int)
    requires Increasing(gids) && g in gids
    ensures |set x | x in gids && x < g| == Position(gids, g)
  {
    DistinctSize(gids[..Position(gids, g)]);
    assert (set x | x in gids && x < g) == Elements(gids[..Position(gids, g)]);
  }

  ghost function Elements(s: seq<int>): set<int> {
    set x | x in s
  }

  lemma {:induction false} DistinctSize(s: seq<int>)
    requires Increasing(s)
    ensures |Elements(s)| == |s|
  {
    hide Increasing;
    if s != [] {
      var rest, last := s[..|s| - 1], s[|s| - 1];
      LastIsNew(s);
      DistinctSize(rest);
      ElementsNext(rest, last);
      assert s == rest + [last];
    }
  }

  lemma LastIsNew(s: seq<int>)
    requires Increasing(s) && s != []
    ensures Increasing(s[..|s| - 1]) && s[|s| - 1] !in s[..|s| - 1]
  {
  }

  lemma ElementsNext(rest: seq<int>, last: int)
    ensures Elements(rest + [last]) == Elements(rest) + {last}
  {
  }

  /** Adding groups never raises the share of one that was there. */
  lemma QuotaShrinks(shards: nat, gids: seq<int>, more: seq<int>, g: int)
    requires Increasing(gids) && Increasing(more) && g in gids && forall x :: x in gids ==> x in more
    ensures Quota(shards, more, g) <= Quota(shards, gids, g)
  {
    PositionCounts(gids, g);
    PositionCounts(more, g);
    SubsetSize(set x | x in gids && x < g, set x | x in more && x < g);
    DistinctSize(gids);
    DistinctSize(more);
    SubsetSize(Elements(gids), Elements(more));
    TargetShrinks(shards, |gids|, Position(gids, g), |more|, Position(more, g));
  }

  /** Every group owns exactly its share: what `Rebalance` leaves. */
  ghost predicate Exact(a: Assignment, gids: seq<int>) {
    forall g :: g in gids ==> Owned(a, g) == Quota(|a|, gids, g)
  }

  lemma RebalancedIsExact(a: Assignment, gids: seq<int>)
    requires Increasing(gids)
    ensures Exact(Rebalanced(a, gids), gids)
  {
    forall g | g in gids ensures Owned(Rebalanced(a, gids), g) == Quota(|a|, gids, g) {
      ExactShares(a, gids, Position(gids, g));
    }
  }

  /** After a Join no group that was already there receives a shard. */
  lemma JoinGivesOnlyToNew(a: Assignment, gids: seq<int>, more: seq<int>, s: nat)
    requires Increasing(gids) && Gids(more) && (forall x :: x in gids ==> x in more)
    requires Exact(a, gids) && s < |a| && Rebalanced(a, more)[s] != a[s]
    ensures Rebalanced(a, more)[s] in more && Rebalanced(a, more)[s] !in gids
  {
    var g := Rebalanced(a, more)[s];
    MovesForAReason(a, more, s);
    if g in gids { QuotaShrinks(|a|, gids, more, g); }
  }

  /** After a Leave no group that is still there loses a shard. */
  lemma LeaveTakesOnlyFromGone(a: Assignment, gids: seq<int>, fewer: seq<int>, s: nat)
    requires Increasing(gids) && Gids(fewer) && (forall x :: x in fewer ==> x in gids)
    requires Exact(a, gids) && s < |a| && Rebalanced(a, fewer)[s] != a[s]
    ensures a[s] !in fewer
  {
    MovesForAReason(a, fewer, s);
    if a[s] in fewer { QuotaShrinks(|a|, fewer, gids, a[s]); }
  }

  // ---------------------------------------------------------------- which shards, and to whom

  /** Among the shards of one group the low ones stay: high shards are donated first. */
  lemma HighestMoveFirst(a: Assignment, gids: seq<int>, s: nat, t: nat)
    requires Gids(gids) && s < t < |a| && a[s] == a[t] && Rebalanced(a, gids)[t] == a[t]
    ensures Rebalanced(a, gids)[s] == a[s]
  {
    MovesExactly(a, gids, s);
    MovesExactly(a, gids, t);
    OwnedGrows(a, s, t, a[s]);
  }

  lemma {:induction false} OwnedGrows(a: Assignment, j: nat, k: nat, g: int)
    requires j <= k <= |a|
    ensures Owned(a[..j], g) <= Owned(a[..k], g)
    decreases k
  {
    if j < k {
      OwnedNext(a, k - 1, g);
      OwnedGrows(a, j, k - 1, g);
    }
  }

  /** The shards that move go to their new groups in order: a lower shard to a group with no greater id. */
  lemma ReceiversInOrder(a: Assignment, gids: seq<int>, s: nat, t: nat)
    requires Gids(gids) && s < t < |a| && Rebalanced(a, gids)[s] != a[s] && Rebalanced(a, gids)[t] != a[t]
    ensures Rebalanced(a, gids)[s] <= Rebalanced(a, gids)[t]
  {
    hide Keeps, Rebalanced, Needed;
    MovesExactly(a, gids, s);
    MovesExactly(a, gids, t);
    FreedShard(a, gids, s);
    FreedShard(a, gids, t);
    FreedGrows(a, gids, s, t);
    NeededAscends(a, gids, |gids|, |Freed(a, gids, s)|, |Freed(a, gids, t)|);
  }

  lemma {:induction false} NeededAscends(a: Assignment, gids: seq<int>, m: nat, i: nat, j: nat)
    requires Gids(gids) && m <= |gids| && i <= j < |Needed(a, gids, m)|
    ensures Needed(a, gids, m)[i] <= Needed(a, gids, m)[j]
  {
    var rest := Needed(a, gids, m - 1);
    if j < |rest| {
      NeededAscends(a, gids, m - 1, i, j);
    } else if i < |rest| {
      NeededBelow(a, gids, m - 1, i);
    }
  }

  lemma {:induction false} NeededBelow(a: Assignment, gids: seq<int>, m: nat, i: nat)
    requires Gids(gids) && m < |gids| && i < |Needed(a, gids, m)|
    ensures Needed(a, gids, m)[i] < gids[m]
  {
    if i < |Needed(a, gids, m - 1)| { NeededBelow(a, gids, m - 1, i); }
  }
}
