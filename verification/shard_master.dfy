/** The replicated configuration history of src/shardmaster/server.go: what a log of committed
    operations does to it, and the object that does it. */
module ShardMaster {
  import opened ShardSpec
  import opened ShardRebalance

  type Groups = map<int, seq<string>>

  datatype Config = Config(num: nat, shards: seq<int>, groups: Groups)

  datatype Op =
    | Join(client: int, reqId: int, servers: Groups)
    | Leave(client: int, reqId: int, gids: seq<int>)
    | Move(client: int, reqId: int, shard: int, gid: int)
    | Query(client: int, reqId: int, num: int)

  datatype Master = Master(configs: seq<Config>, lastApplied: map<int, int>)

  /** What a client must respect: 0 is not the id of a group (src/shardmaster/common.go:14-17), and a
      Move names an existing shard (anything else makes the source panic). */
  predicate Legal(op: Op, shards: nat) {
    (op.Join? ==> 0 !in op.servers) && (op.Move? ==> 0 <= op.shard < shards)
  }

  ghost predicate ConfigOK(c: Config, shards: nat) {
    |c.shards| == shards && 0 !in c.groups
  }

  ghost predicate MasterOK(m: Master, shards: nat) {
    m.configs != [] && forall i :: 0 <= i < |m.configs| ==> ConfigOK(m.configs[i], shards)
  }

  function Initial(shards: nat): Master {
    Master([Config(0, Repeat(0, shards), map[])], map[])
  }

  function Latest(m: Master): Config
    requires m.configs != []
  {
    m.configs[|m.configs| - 1]
  }

  predicate Duplicate(m: Master, op: Op) {
    op.client in m.lastApplied && m.lastApplied[op.client] >= op.reqId
  }

  ghost function Balanced(num: nat, shards: seq<int>, groups: Groups): Config {
    Config(num, Rebalanced(shards, Sorted(groups.Keys)), groups)
  }

  ghost function Successor(c: Config, op: Op): Config
    requires !op.Query? && Legal(op, |c.shards|)
  {
    match op
    case Join(_, _, servers) => Balanced(c.num + 1, c.shards, c.groups + servers)
    case Leave(_, _, gids) => Balanced(c.num + 1, c.shards, c.groups - (set g | g in gids))
    case Move(_, _, shard, gid) => Config(c.num + 1, c.shards[shard := gid], c.groups)
  }

  /** One committed operation. */
  ghost function Applied(m: Master, op: Op): Master
    requires m.configs != [] && Legal(op, |Latest(m).shards|)
  {
    if op.Query? || Duplicate(m, op) then m
    else Master(m.configs + [Successor(Latest(m), op)], m.lastApplied[op.client := op.reqId])
  }

  function Answer(m: Master, num: int): Config
    requires m.configs != []
  {
    if 0 <= num < |m.configs| then m.configs[num] else Latest(m)
  }

  // ---------------------------------------------------------------- the object

  datatype Reply = NoConfig | Found(config: Config)

  /** `Config.Copy`: a map of its own with the same groups. */
  method CopyGroups(groups: Groups) returns (copy: Groups)
    ensures copy == groups
  {
    copy := map[];
    var rest := groups.Keys;
    while rest != {}
      invariant rest <= groups.Keys
      invariant copy.Keys == groups.Keys - rest && forall g :: g in copy ==> copy[g] == groups[g]
    {
      ghost var some := Pick(rest);
      assert some in rest;
      var gid :| gid in rest;
      copy := copy[gid := groups[gid]];
      rest := rest - {gid};
    }
    assert rest == {} && copy.Keys == groups.Keys;
    assert forall g :: g in groups.Keys ==> g in copy && copy[g] == groups[g];
  }

  class ShardMaster {
    var configs: seq<Config>
    var lastApplied: map<int, int>
    const shards: nat

    ghost function State(): Master
      reads this
    {
      Master(configs, lastApplied)
    }

    ghost predicate Valid()
      reads this
    {
      MasterOK(State(), shards)
    }

    constructor (shards: nat)
      ensures Valid() && this.shards == shards && State() == Initial(shards)
    {
      this.shards := shards;
      configs := [Config(0, Repeat(0, shards), map[])];
      lastApplied := map[];
    }

    method IsDuplicateOp(op: Op) returns (dup: bool)
      modifies this`lastApplied
      ensures dup == Duplicate(old(State()), op)
      ensures lastApplied == if dup then old(lastApplied) else old(lastApplied)[op.client := op.reqId]
    {
      if op.client !in lastApplied || lastApplied[op.client] < op.reqId {
        lastApplied := lastApplied[op.client := op.reqId];
        return false;
      }
      return true;
    }

    method HandleJoin(servers: Groups) returns (groups: Groups)
      requires configs != []
      ensures groups == Latest(State()).groups + servers
    {
      groups := CopyGroups(configs[|configs| - 1].groups);
      var rest := servers.Keys;
      while rest != {}
        invariant rest <= servers.Keys
        invariant groups == Latest(State()).groups + (servers - rest)
      {
        ghost var some := Pick(rest);
        assert some in rest;
        var gid :| gid in rest;
        groups := groups[gid := servers[gid]];
        rest := rest - {gid};
      }
    }

    method HandleLeave(gids: seq<int>) returns (groups: Groups)
      requires configs != []
      ensures groups == Latest(State()).groups - (set g | g in gids)
    {
      groups := CopyGroups(configs[|configs| - 1].groups);
      var i := 0;
      while i < |gids|
        invariant 0 <= i <= |gids|
        invariant groups == Latest(State()).groups - (set g | g in gids[..i])
      {
        groups := groups - {gids[i]};
        assert gids[..i + 1] == gids[..i] + [gids[i]];
        i := i + 1;
      }
      assert gids[..|gids|] == gids;
    }

    /** The new configuration of a Join or Leave: a copy of the assignment, rebalanced in place. */
    method NewBalanced(groups: Groups) returns (c: Config)
      requires configs != [] && 0 !in groups
      ensures c == Balanced(Latest(State()).num + 1, Latest(State()).shards, groups)
      ensures |c.shards| == |Latest(State()).shards| && c.groups == groups
    {
      var prev := configs[|configs| - 1];
      var a := new int[|prev.shards|](i requires 0 <= i < |prev.shards| => prev.shards[i]);
      assert a[..] == prev.shards;
      Rebalance(a, groups);
      c := Config(prev.num + 1, a[..], groups);
    }

    /** One turn of `ApplyRoutine`. */
    method Apply(op: Op) returns (reply: Reply)
      requires Valid() && Legal(op, shards)
      modifies this
      ensures Valid() && State() == Applied(old(State()), op)
      ensures reply == if op.Query? then Found(Answer(State(), op.num)) else NoConfig
    {
      hide Balanced, Sorted, Rebalanced;
      reply := NoConfig;
      assert ConfigOK(Latest(State()), shards);
      if !op.Query? {
        var dup := IsDuplicateOp(op);
        if dup {
          return;
        }
      }
      match op
      case Join(_, _, servers) =>
        var groups := HandleJoin(servers);
        var c := NewBalanced(groups);
        configs := configs + [c];
      case Leave(_, _, gids) =>
        var groups := HandleLeave(gids);
        var c := NewBalanced(groups);
        configs := configs + [c];
      case Move(_, _, shard, gid) =>
        var prev := configs[|configs| - 1];
        var groups := CopyGroups(prev.groups);
        configs := configs + [Config(prev.num + 1, prev.shards[shard := gid], groups)];
      case Query(_, _, num) =>
        if num < 0 || num >= |configs| {
          reply := Found(configs[|configs| - 1]);
        } else {
          reply := Found(configs[num]);
        }
    }
  }
}
