/** The configuration history as a function of the committed log, over whole logs. */
module ShardHistory {
  import opened ShardSpec
  import opened ShardMaster
  import Dedup = Deduplication

  ghost predicate LegalLog(log: seq<Op>, shards: nat) {
    forall k :: 0 <= k < |log| ==> Legal(log[k], shards)
  }

  /** The state of any replica that has applied exactly this log. */
  ghost function Run(log: seq<Op>, shards: nat): (m: Master)
    requires LegalLog(log, shards)
    ensures MasterOK(m, shards)
  {
    if log == [] then Initial(shards)
    else
      var before := Run(log[..|log| - 1], shards);
      assert ConfigOK(Latest(before), shards);
      Applied(before, log[|log| - 1])
  }

  lemma {:induction false} RunNext(log: seq<Op>, shards: nat, k: nat)
    requires LegalLog(log, shards) && k < |log|
    ensures |Latest(Run(log[..k], shards)).shards| == shards
    ensures Run(log[..k + 1], shards) == Applied(Run(log[..k], shards), log[k])
  {
    assert log[..k + 1][..k] == log[..k];
    assert ConfigOK(Latest(Run(log[..k], shards)), shards);
  }

  // ---------------------------------------------------------------- deduplication

  function AsRequest(op: Op): Dedup.Request {
    Dedup.Request(!op.Query?, op.client, op.reqId)
  }

  function Requests(log: seq<Op>): (r: seq<Dedup.Request>)
    ensures |r| == |log| && forall i :: 0 <= i < |log| ==> r[i] == AsRequest(log[i])
  {
    seq(|log|, i requires 0 <= i < |log| => AsRequest(log[i]))
  }

  predicate Effective(log: seq<Op>, k: nat)
    requires k < |log|
  {
    Dedup.Effective(Requests(log), k)
  }

  /** The table of the shardmaster is the table of its log. */
  lemma {:induction false} TableOfRun(log: seq<Op>, shards: nat, k: nat)
    requires LegalLog(log, shards) && k <= |log|
    ensures Run(log[..k], shards).lastApplied == Dedup.TableAt(Requests(log), k)
  {
    hide Successor;
    if k > 0 {
      TableOfRun(log, shards, k - 1);
      RunNext(log, shards, k - 1);
    }
  }

  /** The effective writes are exactly each client's strict running maxima. */
  lemma {:induction false} EffectiveExactly(log: seq<Op>, shards: nat, k: nat)
    requires LegalLog(log, shards) && k < |log|
    ensures Effective(log, k) <==> !log[k].Query? && !Duplicate(Run(log[..k], shards), log[k])
  {
    TableOfRun(log, shards, k);
    Dedup.EffectiveExactly(Requests(log), k);
  }

  /** Exactly the first uses of each id take effect if and only if every client's ids first appear in
      order; otherwise some Join, Leave or Move is dropped. */
  lemma {:induction false} ExactlyOnceIffInOrder(log: seq<Op>)
    ensures Dedup.InOrder(Requests(log)) <==>
            forall k :: 0 <= k < |log| ==> (Effective(log, k) <==> Dedup.FirstTime(Requests(log), k))
  {
    Dedup.ExactlyOnceIffInOrder(Requests(log));
  }

  function EffectiveBefore(log: seq<Op>, k: nat): set<nat>
    requires k <= |log|
  {
    set j: nat | j < k && Effective(log, j)
  }

  // ---------------------------------------------------------------- the history

  /** One more entry: an effective write adds the successor of the latest configuration, anything else
      leaves the history alone. */
  lemma {:induction false} HistoryNext(log: seq<Op>, shards: nat, k: nat)
    requires LegalLog(log, shards) && k < |log|
    ensures Legal(log[k], |Latest(Run(log[..k], shards)).shards|)
    ensures Effective(log, k) ==>
              Run(log[..k + 1], shards).configs ==
              Run(log[..k], shards).configs + [Successor(Latest(Run(log[..k], shards)), log[k])]
    ensures !Effective(log, k) ==> Run(log[..k + 1], shards) == Run(log[..k], shards)
  {
    RunNext(log, shards, k);
    EffectiveExactly(log, shards, k);
  }

  /** There is one configuration for every effective Join, Leave and Move, and the initial one. */
  lemma {:induction false} HistoryLength(log: seq<Op>, shards: nat, k: nat)
    requires LegalLog(log, shards) && k <= |log|
    ensures |Run(log[..k], shards).configs| == 1 + |EffectiveBefore(log, k)|
  {
    hide Effective, Successor, Applied;
    if k == 0 {
      assert EffectiveBefore(log, 0) == {};
    } else {
      hide Run;
      HistoryLength(log, shards, k - 1);
      HistoryNext(log, shards, k - 1);
      var before, now := EffectiveBefore(log, k - 1), EffectiveBefore(log, k);
      assert now == if Effective(log, k - 1) then before + {k - 1} else before;
    }
  }

  lemma SuccessorNumber(c: Config, op: Op)
    requires !op.Query? && Legal(op, |c.shards|)
    ensures Successor(c, op).num == c.num + 1
  {
    hide Rebalanced, Sorted;
  }

  /** Configurations are numbered by their position. */
  lemma {:induction false} HistoryNumbered(log: seq<Op>, shards: nat, k: nat, i: nat)
    requires LegalLog(log, shards) && k <= |log| && i < |Run(log[..k], shards).configs|
    ensures Run(log[..k], shards).configs[i].num == i
  {
    hide Successor, Applied;
    if k > 0 {
      hide Run;
      HistoryNext(log, shards, k - 1);
      var before := Run(log[..k - 1], shards).configs;
      if Effective(log, k - 1) { SuccessorNumber(Latest(Run(log[..k - 1], shards)), log[k - 1]); }
      if i < |before| {
        HistoryNumbered(log, shards, k - 1, i);
      } else {
        HistoryNumbered(log, shards, k - 1, |before| - 1);
      }
    }
  }

  /** Old configurations never change. */
  lemma {:induction false} HistoryAppendOnly(log: seq<Op>, shards: nat, j: nat, k: nat)
    requires LegalLog(log, shards) && j <= k <= |log|
    ensures Run(log[..j], shards).configs <= Run(log[..k], shards).configs
    decreases k
  {
    hide Run, Effective, Successor;
    if j < k {
      HistoryAppendOnly(log, shards, j, k - 1);
      HistoryNext(log, shards, k - 1);
    }
  }

  /** Once a numbered configuration has been answered, every later Query for it gets the same answer. */
  lemma {:induction false} AnswersStand(log: seq<Op>, shards: nat, j: nat, k: nat, num: int)
    requires LegalLog(log, shards) && j <= k <= |log| && 0 <= num < |Run(log[..j], shards).configs|
    ensures Answer(Run(log[..j], shards), num) == Answer(Run(log[..k], shards), num)
    ensures Answer(Run(log[..j], shards), num).num == num
  {
    HistoryAppendOnly(log, shards, j, k);
    HistoryNumbered(log, shards, j, num);
  }

  /** A Query for a number that does not exist, such as -1, gets the configuration that the latest effective
      write made, whose number is the number of effective writes. */
  lemma {:induction false} LatestAnswered(log: seq<Op>, shards: nat, k: nat, num: int)
    requires LegalLog(log, shards) && k <= |log| && (num < 0 || num > |EffectiveBefore(log, k)|)
    ensures |Run(log[..k], shards).configs| == |EffectiveBefore(log, k)| + 1
    ensures Answer(Run(log[..k], shards), num).num == |EffectiveBefore(log, k)|
    ensures Answer(Run(log[..k], shards), num) == Run(log[..k], shards).configs[|EffectiveBefore(log, k)|]
  {
    HistoryLength(log, shards, k);
    HistoryNumbered(log, shards, k, |EffectiveBefore(log, k)|);
  }

  /** Configuration 0 has no groups and all shards with group 0, at every moment. */
  lemma {:induction false} FirstConfig(log: seq<Op>, shards: nat, k: nat)
    requires LegalLog(log, shards) && k <= |log|
    ensures var c := Answer(Run(log[..k], shards), 0);
            c.num == 0 && c.groups == map[] && |c.shards| == shards && forall s :: 0 <= s < shards ==> c.shards[s] == 0
  {
    assert log[..0] == [];
    HistoryAppendOnly(log, shards, 0, k);
  }

  // ---------------------------------------------------------------- what one operation makes

  /** After a Join the groups are those that were there and those that joined, with the servers of the latter
      where both name a group. */
  lemma JoinMakes(c: Config, op: Op, g: int)
    requires op.Join? && Legal(op, |c.shards|)
    ensures g in Successor(c, op).groups <==> g in c.groups || g in op.servers
    ensures g in op.servers ==> Successor(c, op).groups[g] == op.servers[g]
    ensures g in c.groups && g !in op.servers ==> Successor(c, op).groups[g] == c.groups[g]
  {
    hide Rebalanced, Sorted;
  }

  /** After a Leave the groups are those that were there and did not leave, with their servers. */
  lemma LeaveMakes(c: Config, op: Op, g: int)
    requires op.Leave? && Legal(op, |c.shards|)
    ensures g in Successor(c, op).groups <==> g in c.groups && g !in op.gids
    ensures g in Successor(c, op).groups ==> Successor(c, op).groups[g] == c.groups[g]
  {
    hide Rebalanced, Sorted;
  }

  /** After a Move the shard belongs to the group, and every other shard and all groups are as they were. */
  lemma MoveMakes(c: Config, op: Op, s: nat)
    requires op.Move? && Legal(op, |c.shards|) && s < |c.shards|
    ensures Successor(c, op).groups == c.groups && |Successor(c, op).shards| == |c.shards|
    ensures Successor(c, op).shards[s] == if s == op.shard then op.gid else c.shards[s]
  {
  }

  /** A retried write, and a Query, leave no trace: with or without the entry at `k` the replicas end in
      the same state. */
  lemma {:induction false} RepeatsAbsorbed(log: seq<Op>, shards: nat, k: nat)
    requires LegalLog(log, shards) && k < |log| && !Effective(log, k)
    ensures LegalLog(log[..k] + log[k + 1..], shards)
    ensures Run(log, shards) == Run(log[..k] + log[k + 1..], shards)
    decreases |log|
  {
    hide Run, Applied, Effective;
    var without, last := log[..k] + log[k + 1..], |log| - 1;
    forall j | 0 <= j < |without| ensures Legal(without[j], shards) {
      assert without[j] == if j < k then log[j] else log[j + 1];
    }
    if k == last {
      assert log[..k + 1] == log && without == log[..k];
      HistoryNext(log, shards, k);
    } else {
      var shorter, shorter' := log[..last], without[..|without| - 1];
      assert shorter' == shorter[..k] + shorter[k + 1..];
      EarlierEffective(log, last, k);
      RepeatsAbsorbed(shorter, shards, k);
      RunNext(log, shards, last);
      RunNext(without, shards, |without| - 1);
      assert log[..last + 1] == log && without[..|without|] == without;
    }
  }

  lemma EarlierEffective(log: seq<Op>, l: nat, k: nat)
    requires k < l <= |log|
    ensures Effective(log[..l], k) <==> Effective(log, k)
  {
    assert forall j :: 0 <= j < l ==> log[..l][j] == log[j];
  }

  // ---------------------------------------------------------------- balance over the history

  /** Every shard belongs to a live group and every group owns exactly its share; without groups every
      shard is unassigned. */
  ghost predicate FullyBalanced(c: Config) {
    var gids := Sorted(c.groups.Keys);
    && Exact(c.shards, gids)
    && forall s :: 0 <= s < |c.shards| ==> if gids == [] then c.shards[s] == 0 else c.shards[s] in c.groups
  }

  /** Every Join and Leave leaves the shards fully balanced, whatever Moves went before. */
  lemma RebalancedFully(c: Config, op: Op)
    requires (op.Join? || op.Leave?) && Legal(op, |c.shards|)
    ensures FullyBalanced(Successor(c, op)) && |Successor(c, op).shards| == |c.shards|
  {
    var next := Successor(c, op);
    var gids := Sorted(next.groups.Keys);
    RebalancedIsExact(c.shards, gids);
    forall s | 0 <= s < |next.shards|
      ensures if gids == [] then next.shards[s] == 0 else next.shards[s] in next.groups
    {
      if gids != [] { EveryShardLive(c.shards, gids, s); }
    }
  }

  /** As long as no Move takes effect every configuration of the history is fully balanced. */
  lemma {:induction false} HistoryBalanced(log: seq<Op>, shards: nat, k: nat)
    requires LegalLog(log, shards) && k <= |log|
    requires forall j :: 0 <= j < k && Effective(log, j) ==> !log[j].Move?
    ensures forall i :: 0 <= i < |Run(log[..k], shards).configs| ==> FullyBalanced(Run(log[..k], shards).configs[i])
  {
    hide Run, Successor, FullyBalanced;
    if k == 0 {
      InitialBalanced(log, shards);
    } else {
      HistoryBalanced(log, shards, k - 1);
      HistoryNext(log, shards, k - 1);
      if Effective(log, k - 1) {
        RebalancedFully(Latest(Run(log[..k - 1], shards)), log[k - 1]);
      }
    }
  }

  lemma {:induction false} InitialBalanced(log: seq<Op>, shards: nat)
    ensures log[..0] == [] && Run([], shards) == Initial(shards)
    ensures |Initial(shards).configs| == 1 && FullyBalanced(Initial(shards).configs[0])
  {
    assert Sorted({}) == [];
  }

  /** From a balanced configuration a Join moves shards only to groups that are new, and a Leave only
      shards whose group is gone. */
  lemma TransfersAreDirected(c: Config, op: Op, s: nat)
    requires FullyBalanced(c) && Legal(op, |c.shards|) && s < |c.shards| && !op.Query?
    requires |Successor(c, op).shards| == |c.shards| && Successor(c, op).shards[s] != c.shards[s]
    ensures op.Join? ==> Successor(c, op).shards[s] !in c.groups
    ensures op.Leave? ==> c.shards[s] !in Successor(c, op).groups
  {
    var next := Successor(c, op);
    var was, now := Sorted(c.groups.Keys), Sorted(next.groups.Keys);
    if op.Join? && now != [] {
      JoinGivesOnlyToNew(c.shards, was, now, s);
    }
    if op.Leave? && now != [] {
      LeaveTakesOnlyFromGone(c.shards, was, now, s);
    }
  }
}
