/** `Rebalance` of src/shardmaster/server.go with its loops, on the shard array it rewrites in place.
    It leaves exactly the assignment of `ShardSpec.Rebalanced`, whatever order the map of groups is
    iterated in. */
module ShardRebalance {
  import opened Collections
  import opened ShardSpec

  // ---------------------------------------------------------------- sort.Ints

  ghost predicate Ascending(s: seq<int>) {
    forall i, j :: 0 <= i < j < |s| ==> s[i] <= s[j]
  }

  /** `sort.Ints`; only its contract is used. */
  method SortInts(s: seq<int>) returns (r: seq<int>)
    ensures Ascending(r) && multiset(r) == multiset(s)
  {
    r := [];
    var i := 0;
    while i < |s|
      invariant 0 <= i <= |s| && Ascending(r) && multiset(r) == multiset(s[..i])
    {
      r := Insert(r, s[i]);
      assert s[..i + 1] == s[..i] + [s[i]];
      i := i + 1;
    }
    assert s[..|s|] == s;
  }

  method Insert(s: seq<int>, x: int) returns (r: seq<int>)
    requires Ascending(s)
    ensures Ascending(r) && multiset(r) == multiset(s) + multiset{x}
  {
    var k := |s|;
    while k > 0 && s[k - 1] > x
      invariant 0 <= k <= |s|
      invariant forall i :: k <= i < |s| ==> s[i] > x
    {
      k := k - 1;
    }
    Inserted(s, k, x);
    r := s[..k] + [x] + s[k..];
  }

  lemma Inserted(s: seq<int>, k: nat, x: int)
    requires Ascending(s) && k <= |s| && (k > 0 ==> s[k - 1] <= x) && forall i :: k <= i < |s| ==> s[i] > x
    ensures Ascending(s[..k] + [x] + s[k..]) && multiset(s[..k] + [x] + s[k..]) == multiset(s) + multiset{x}
  {
    hide Ascending;
    Halves(s, k);
    Joined(s[..k], x, s[k..]);
    PutBetween(s[..k], x, s[k..]);
    assert s == s[..k] + s[k..];
  }

  lemma Halves(s: seq<int>, k: nat)
    requires Ascending(s) && k <= |s|
    ensures Ascending(s[..k]) && Ascending(s[k..])
  {
  }

  lemma Joined(front: seq<int>, x: int, back: seq<int>)
    requires Ascending(front) && Ascending(back)
    requires (|front| > 0 ==> front[|front| - 1] <= x) && forall i :: 0 <= i < |back| ==> back[i] > x
    ensures Ascending(front + [x] + back)
  {
    var r := front + [x] + back;
    forall i, j | 0 <= i < j < |r| ensures r[i] <= r[j] {
      assert i < |front| ==> r[i] == front[i] <= front[|front| - 1];
      assert i > |front| ==> r[i] == back[i - |front| - 1];
      assert j < |front| ==> r[j] == front[j];
      assert j > |front| ==> r[j] == back[j - |front| - 1];
    }
  }

  /** Sorting a list that holds every element of a set once. */
  lemma {:induction false} SortedOnce(r: seq<int>, s: set<int>)
    requires Ascending(r) && multiset(r) == multiset(s)
    ensures r == Sorted(s)
  {
    forall i, j | 0 <= i < j < |r| ensures r[i] < r[j] {
      if r[i] == r[j] {
        Twice(r, i, j);
      }
    }
    forall x ensures x in r <==> x in Sorted(s) {
      assert x in r <==> x in multiset(r);
    }
    IncreasingUnique(r, Sorted(s));
  }

  // ---------------------------------------------------------------- the state between the loops

  /** Every group keeps only its first `count` shards; the others are marked with 0. */
  ghost predicate Cleared(shards: Assignment, a: Assignment, count: map<int, nat>) {
    |shards| == |a| && forall s {:trigger shards[s]} :: 0 <= s < |a| ==>
      shards[s] == if a[s] in count && Owned(a[..s], a[s]) >= count[a[s]] then 0 else a[s]
  }

  /** The shards that no group of `gids` owns. */
  ghost function Unowned(shards: Assignment, gids: seq<int>): set<int> {
    set s | 0 <= s < |shards| && shards[s] !in gids
  }

  ghost predicate Counts(count: map<int, nat>, gids: seq<int>) {
    forall g :: g in count <==> g in gids
  }

  ghost predicate Is(count: map<int, nat>, g: int, n: nat) {
    g in count && count[g] == n
  }

  lemma {:induction false} OwnedBefore(a: Assignment, s: nat)
    requires s < |a|
    ensures Owned(a[..s], a[s]) < Owned(a, a[s])
  {
    OwnedNext(a, s, a[s]);
    OwnedPrefix(a, s + 1, a[s]);
  }

  lemma {:induction false} NothingCleared(a: Assignment, gids: seq<int>, count: map<int, nat>)
    requires Counts(count, gids) && forall g :: g in count ==> count[g] == Owned(a, g)
    ensures Cleared(a, a, count)
  {
    forall s | 0 <= s < |a| && a[s] in count ensures Owned(a[..s], a[s]) < count[a[s]] {
      OwnedBefore(a, s);
    }
  }

  /** Among the shards of `g` there is one with exactly `n` of them before it. */
  lemma {:induction false} NthExists(a: Assignment, g: int, n: nat) returns (s: nat)
    requires n < Owned(a, g)
    ensures s < |a| && a[s] == g && Owned(a[..s], g) == n
  {
    var last := |a| - 1;
    if a[last] == g && Owned(a[..last], g) == n {
      s := last;
    } else {
      s := NthExists(a[..last], g, n);
      assert a[..last][..s] == a[..s];
    }
  }

  lemma {:induction false} OwnedUpTo(a: Assignment, j: nat, k: nat, g: int)
    requires j <= k <= |a|
    ensures Owned(a[..j], g) <= Owned(a[..k], g)
  {
    assert a[..k][..j] == a[..j];
    OwnedPrefix(a[..k], j, g);
  }

  /** The shard a donor gives up next: the last one it still shows. */
  lemma NextDonated(shards: Assignment, a: Assignment, count: map<int, nat>, g: int) returns (s: nat)
    requires Cleared(shards, a, count) && g in count && 0 !in count && 0 < count[g] <= Owned(a, g)
    ensures s < |a| && shards[s] == a[s] == g && Owned(a[..s], g) == count[g] - 1
    ensures forall j :: s < j < |a| ==> shards[j] != g
  {
    s := NthExists(a, g, count[g] - 1);
    assert shards[s] == g;
    forall j | s < j < |a| ensures shards[j] != g {
      if a[j] == g {
        OwnedNext(a, s, g);
        OwnedUpTo(a, s + 1, j, g);
      }
    }
  }

  lemma {:induction false} DonatedOne(shards: Assignment, a: Assignment, count: map<int, nat>, g: int, s: nat,
                                      gids: seq<int>)
    requires Cleared(shards, a, count) && Counts(count, gids) && g in count && 0 !in count && 0 < count[g]
    requires s < |a| && shards[s] == a[s] == g && Owned(a[..s], g) == count[g] - 1
    ensures Cleared(shards[s := 0], a, count[g := count[g] - 1])
    ensures Unowned(shards[s := 0], gids) == Unowned(shards, gids) + {s} && s !in Unowned(shards, gids)
  {
    var count' := count[g := count[g] - 1];
    forall j {:trigger shards[s := 0][j]} | 0 <= j < |a|
      ensures shards[s := 0][j] == if a[j] in count' && Owned(a[..j], a[j]) >= count'[a[j]] then 0 else a[j]
    {
      if j != s && a[j] == g {
        if j < s {
          OwnedNext(a, j, g);
          OwnedUpTo(a, j + 1, s, g);
        } else {
          OwnedNext(a, s, g);
          OwnedUpTo(a, s + 1, j, g);
        }
        assert shards[j] == if Owned(a[..j], g) >= count[g] then 0 else g;
      } else if j != s {
        assert shards[j] == if a[j] in count && Owned(a[..j], a[j]) >= count[a[j]] then 0 else a[j];
      }
    }
  }

  /** When every group is down to what it keeps, the unowned shards are the freed ones. */
  lemma {:induction false} ClearedIsFreed(shards: Assignment, a: Assignment, count: map<int, nat>, gids: seq<int>)
    requires Gids(gids) && 0 !in gids && Counts(count, gids) && Cleared(shards, a, count)
    requires forall i :: 0 <= i < |gids| ==> Is(count, gids[i], Stays(a, gids, i))
    ensures forall s :: 0 <= s < |a| ==>
        shards[s] == if Keeps(a, gids, s) then a[s] else if a[s] in gids then 0 else a[s]
    ensures forall s :: s in Unowned(shards, gids) <==> s in Freed(a, gids, |a|)
  {
    forall s | 0 <= s < |a|
      ensures shards[s] == if Keeps(a, gids, s) then a[s] else if a[s] in gids then 0 else a[s]
      ensures shards[s] in gids <==> Keeps(a, gids, s)
    {
      var g := a[s];
      if g in gids {
        OwnedBefore(a, s);
        var i := Position(gids, g);
        assert Is(count, gids[i], Stays(a, gids, i));
      }
    }
    FreedMeaning(a, gids, |a|);
  }

  // ---------------------------------------------------------------- the loops

  /** Step 1: the ids of the groups, in whatever order the map yields them, sorted. */
  method SortedGids(groups: map<int, seq<string>>) returns (gids: seq<int>)
    ensures gids == Sorted(groups.Keys)
  {
    gids := [];
    var rest := groups.Keys;
    while rest != {}
      invariant rest <= groups.Keys
      invariant multiset(gids) == multiset(groups.Keys - rest)
    {
      ghost var some := Pick(rest);
      assert some in rest;
      var gid :| gid in rest;
      gids := gids + [gid];
      assert groups.Keys - (rest - {gid}) == (groups.Keys - rest) + {gid};
      rest := rest - {gid};
    }
    assert groups.Keys - rest == groups.Keys;
    gids := SortInts(gids);
    SortedOnce(gids, groups.Keys);
  }

  /** Step 2: count what every group owns and collect the shards nobody owns. */
  method CountOwned(shards: array<int>, gids: seq<int>) returns (count: map<int, nat>, pool: seq<int>)
    ensures Counts(count, gids) && forall g :: g in count ==> count[g] == Owned(shards[..], g)
    ensures multiset(pool) == multiset(Unowned(shards[..], gids))
  {
    count := map[];
    var i := 0;
    while i < |gids|
      invariant 0 <= i <= |gids|
      invariant Counts(count, gids[..i]) && forall g :: g in count ==> count[g] == 0
    {
      count := count[gids[i] := 0];
      assert gids[..i + 1] == gids[..i] + [gids[i]];
      i := i + 1;
    }
    assert gids[..|gids|] == gids;
    pool := [];
    var s := 0;
    while s < shards.Length
      invariant 0 <= s <= shards.Length && Counts(count, gids)
      invariant forall g :: g in count ==> count[g] == Owned(shards[..s], g)
      invariant multiset(pool) == multiset(Unowned(shards[..s], gids))
    {
      var gid := shards[s];
      assert shards[..s + 1] == shards[..s] + [gid];
      assert shards[..s + 1][..s] == shards[..s];
      if gid !in gids {
        assert Unowned(shards[..s + 1], gids) == Unowned(shards[..s], gids) + {s};
        pool := pool + [s];
      } else {
        assert Unowned(shards[..s + 1], gids) == Unowned(shards[..s], gids);
        count := count[gid := count[gid] + 1];
      }
      s := s + 1;
    }
    assert shards[..shards.Length] == shards[..];
  }

  /** The inner loop of step 3: the donor `gid` gives up the last shard it shows. */
  method DonateOne(shards: array<int>, gid: int, ghost a: Assignment, ghost count: map<int, nat>, ghost gids: seq<int>)
    returns (s: int)
    requires Cleared(shards[..], a, count) && Counts(count, gids) && gid in count && 0 !in count
    requires 0 < count[gid] <= Owned(a, gid)
    modifies shards
    ensures 0 <= s < shards.Length && Cleared(shards[..], a, count[gid := count[gid] - 1])
    ensures Unowned(shards[..], gids) == old(Unowned(shards[..], gids)) + {s} && s !in old(Unowned(shards[..], gids))
  {
    ghost var donated := NextDonated(shards[..], a, count, gid);
    s := shards.Length - 1;
    while shards[s] != gid
      invariant donated <= s < shards.Length
      decreases s
    {
      assert shards[..][s] == shards[s];
      assert s != donated;
      s := s - 1;
    }
    assert shards[..][s] == gid;
    assert s == donated;
    ghost var before := shards[..];
    DonatedOne(before, a, count, gid, s, gids);
    shards[s] := 0;
    assert shards[..] == before[s := 0];
  }

  /** The middle loop of step 3: the i-th group donates until it is down to its target. */
  method DonateExcess(shards: array<int>, gids: seq<int>, i: nat, count0: map<int, nat>, pool0: seq<int>,
                      ghost a: Assignment)
    returns (count: map<int, nat>, pool: seq<int>)
    requires Gids(gids) && 0 !in gids && i < |gids| && Counts(count0, gids)
    requires Cleared(shards[..], a, count0) && Is(count0, gids[i], Owned(a, gids[i]))
    requires multiset(pool0) == multiset(Unowned(shards[..], gids))
    modifies shards
    ensures Counts(count, gids) && Cleared(shards[..], a, count)
    ensures count == count0[gids[i] := Stays(a, gids, i)]
    ensures multiset(pool) == multiset(Unowned(shards[..], gids))
  {
    count, pool := count0, pool0;
    var gid, target := gids[i], Target(shards.Length, |gids|, i);
    while count[gid] > target
      invariant gid in count && count == count0[gid := count[gid]] && Cleared(shards[..], a, count)
      invariant Stays(a, gids, i) <= count[gid] <= Owned(a, gid)
      invariant multiset(pool) == multiset(Unowned(shards[..], gids))
      decreases count[gid]
    {
      var s := DonateOne(shards, gid, a, count, gids);
      count := count[gid := count[gid] - 1];
      pool := pool + [s];
    }
  }

  /** Step 3: groups with too many shards donate, high shards first. */
  method Donate(shards: array<int>, gids: seq<int>, count0: map<int, nat>, pool0: seq<int>, ghost a: Assignment)
    returns (count: map<int, nat>, pool: seq<int>)
    requires Gids(gids) && 0 !in gids && a == shards[..] && Counts(count0, gids)
    requires forall g :: g in count0 ==> count0[g] == Owned(a, g)
    requires multiset(pool0) == multiset(Unowned(a, gids))
    modifies shards
    ensures Counts(count, gids) && Cleared(shards[..], a, count)
    ensures forall i :: 0 <= i < |gids| ==> Is(count, gids[i], Stays(a, gids, i))
    ensures multiset(pool) == multiset(Unowned(shards[..], gids))
  {
    hide Cleared, Unowned, Stays, Owned;
    count, pool := count0, pool0;
    NothingCleared(a, gids, count);
    var i := 0;
    while i < |gids|
      invariant 0 <= i <= |gids| && Counts(count, gids) && Cleared(shards[..], a, count)
      invariant forall j :: 0 <= j < i ==> Is(count, gids[j], Stays(a, gids, j))
      invariant forall j :: i <= j < |gids| ==> Is(count, gids[j], Owned(a, gids[j]))
      invariant multiset(pool) == multiset(Unowned(shards[..], gids))
    {
      count, pool := DonateExcess(shards, gids, i, count, pool, a);
      i := i + 1;
    }
  }

  /** Step 4: groups with too few shards are listed once for every shard they are short of. */
  method Receivers(gids: seq<int>, count0: map<int, nat>, shards: nat, ghost a: Assignment) returns (need: seq<int>)
    requires Gids(gids) && Counts(count0, gids) && |a| == shards
    requires forall i :: 0 <= i < |gids| ==> Is(count0, gids[i], Stays(a, gids, i))
    ensures need == Needed(a, gids, |gids|)
  {
    hide Owned, Target;
    need := [];
    var count := count0;
    var i := 0;
    while i < |gids|
      invariant 0 <= i <= |gids| && Counts(count, gids) && need == Needed(a, gids, i)
      invariant forall j :: i <= j < |gids| ==> Is(count, gids[j], Stays(a, gids, j))
    {
      var gid, start := gids[i], count[gids[i]];
      var t := Target(shards, |gids|, i);
      ghost var before := need;
      while count[gid] < t
        invariant Counts(count, gids) && start <= count[gid] <= t
        invariant need == before + Repeat(gid, count[gid] - start)
        invariant forall j :: i < j < |gids| ==> Is(count, gids[j], Stays(a, gids, j))
        decreases t - count[gid]
      {
        assert Repeat(gid, count[gid] + 1 - start) == Repeat(gid, count[gid] - start) + [gid];
        need := need + [gid];
        count := count[gid := count[gid] + 1];
      }
      i := i + 1;
    }
  }

  /** Step 5: the sorted pool is handed out in order. */
  method Assign(shards: array<int>, pool0: seq<int>, need: seq<int>, gids: seq<int>, ghost a: Assignment)
    requires Gids(gids) && |a| == shards.Length && need == Needed(a, gids, |gids|)
    requires multiset(pool0) == multiset(Unowned(shards[..], gids))
    requires forall s :: s in Unowned(shards[..], gids) <==> s in Freed(a, gids, |a|)
    requires forall s :: 0 <= s < |a| && Keeps(a, gids, s) ==> shards[s] == a[s]
    modifies shards
    ensures shards[..] == Rebalanced(a, gids)
  {
    hide Keeps, Rebalanced, Needed, Freed;
    var pool := SortInts(pool0);
    PoolIsFreed(pool, shards[..], a, gids);
    FreedMatchesNeeded(a, gids);
    FreedMeaning(a, gids, |a|);
    assert forall j :: 0 <= j < |pool| ==> pool[j] in pool;
    var i := 0;
    while i < |pool|
      invariant 0 <= i <= |pool| && |pool| == |need|
      invariant forall j :: 0 <= j < |pool| ==> 0 <= pool[j] < |a|
      invariant forall s :: 0 <= s < |a| && Keeps(a, gids, s) ==> shards[s] == a[s]
      invariant forall j :: 0 <= j < i ==> shards[pool[j]] == need[j]
    {
      assert pool[i] in pool;
      shards[pool[i]] := need[i];
      i := i + 1;
    }
    forall s | 0 <= s < |a| ensures shards[s] == Rebalanced(a, gids)[s] {
      if Keeps(a, gids, s) {
        KeptShard(a, gids, s);
      } else {
        FreedShard(a, gids, s);
      }
    }
  }

  lemma {:induction false} PoolIsFreed(pool: seq<int>, shards: Assignment, a: Assignment, gids: seq<int>)
    requires Ascending(pool) && multiset(pool) == multiset(Unowned(shards, gids))
    requires forall s :: s in Unowned(shards, gids) <==> s in Freed(a, gids, |a|)
    ensures pool == Freed(a, gids, |a|)
  {
    hide Freed, Unowned;
    SortedOnce(pool, Unowned(shards, gids));
    FreedMeaning(a, gids, |a|);
    IncreasingUnique(pool, Freed(a, gids, |a|));
  }

  /** `Rebalance`: for any number of shards, any groups (0 is never one) and any starting assignment. */
  method Rebalance(shards: array<int>, groups: map<int, seq<string>>)
    requires 0 !in groups
    modifies shards
    ensures shards[..] == Rebalanced(old(shards[..]), Sorted(groups.Keys))
  {
    ghost var a := shards[..];
    if |groups| == 0 {
      var s := 0;
      while s < shards.Length
        invariant 0 <= s <= shards.Length && forall j :: 0 <= j < s ==> shards[j] == 0
      {
        shards[s] := 0;
        s := s + 1;
      }
      assert groups.Keys == {};
      return;
    }
    var gids := SortedGids(groups);
    var count, pool := CountOwned(shards, gids);
    assert |groups.Keys| == |groups|;
    count, pool := Donate(shards, gids, count, pool, a);
    ClearedIsFreed(shards[..], a, count, gids);
    var need := Receivers(gids, count, shards.Length, a);
    Assign(shards, pool, need, gids, a);
  }
}
