/** Runs of three servers, with no crash, that break what `RaftSafety` and `RaftRanges` prove under a
    hypothesis.

    State Machine Safety: server 0 leads term 1, sends a heartbeat that is delayed, then replicates and
    commits `x` with server 1. The heartbeat arrives and empties the log of server 1
    (src/raft/raft.go:419-422), which then wins term 2 with the vote of server 2 and commits `y` at the
    same index.

    Indices inside the log: server 0 commits `x` and `y` with server 1, compacts at index 1 and sends
    server 2 first both entries and then the snapshot. The snapshot arrives after server 2 has applied both
    entries, and empties its log (src/raft/raft.go:157-167).

    The broadcast of a server that stopped leading: at the end of the first run server 0 follows, with an
    empty log and a `nextIndex` of 2 for server 1. */
module RaftCounterexample {
  import opened RaftTypes
  import opened RaftSteps
  import opened RaftCluster
  import opened RaftInvariant
  import opened RaftTheorems

  // ---------------------------------------------------------------- single servers

  /** One of three servers, without snapshot, with everything saved. */
  function Peer(me: nat, term: nat, votedFor: int, log: seq<Entry>, commit: nat, applied: nat, role: Role,
                next: seq<nat>, acked: seq<nat>, votes: nat): Server {
    Server(me, 3, term, votedFor, log, commit, applied, 0, 0, role, next, acked, votes,
      Durable(votedFor, term, log, 0, 0))
  }

  function Quiet(me: nat, term: nat, votedFor: int, log: seq<Entry>): Server {
    Peer(me, term, votedFor, log, 0, 0, Follower, [0, 0, 0], [0, 0, 0], 0)
  }

  lemma FreshIsQuiet(me: nat)
    ensures Fresh(me, 3) == Quiet(me, 0, NOBODY, [])
  {
    assert seq(3, _ => 0) == [0, 0, 0];
  }

  lemma Stands(me: nat, term: nat, votedFor: int)
    ensures OnTimeout(Quiet(me, term, votedFor, [])) ==
            (Peer(me, term + 1, me, [], 0, 0, Candidate, [0, 0, 0], [0, 0, 0], 1), VoteArgs(term + 1, me, 0, 0))
  {
  }

  lemma Grants(me: nat, term: nat, votedFor: int, candidate: nat, newTerm: nat)
    requires term < newTerm
    ensures OnRequestVote(Quiet(me, term, votedFor, []), VoteArgs(newTerm, candidate, 0, 0)) ==
            (Quiet(me, newTerm, candidate, []), VoteReply(newTerm, true))
  {
  }

  lemma Wins(me: nat, term: nat)
    ensures var s := Peer(me, term, me, [], 0, 0, Candidate, [0, 0, 0], [0, 0, 0], 1);
            OnVoteReply(s, term, VoteReply(term, true)) ==
            Peer(me, term, me, [], 0, 0, Leader, [1, 1, 1], [0, 0, 0], 2)
  {
    assert seq(3, _ => 1) == [1, 1, 1];
    assert seq(3, i => if i == me then 0 else 0) == [0, 0, 0];
  }

  lemma Appends(me: nat, term: nat, command: Command)
    requires me < 3
    ensures OnStart(Peer(me, term, me, [], 0, 0, Leader, [1, 1, 1], [0, 0, 0], 2), command) ==
            Peer(me, term, me, [Entry(term, command)], 0, 0, Leader, [1, 1, 1], [0, 0, 0][me := 1], 2)
  {
    assert [] + [Entry(term, command)] == [Entry(term, command)];
  }

  lemma Sends(me: nat, term: nat, log: seq<Entry>, acked: seq<nat>, peer: nat)
    requires peer < 3
    ensures var s := Peer(me, term, me, log, 0, 0, Leader, [1, 1, 1], acked, 2);
            InRange(s, peer) && AppendFor(s, peer) == AppendArgs(term, 0, 0, log, 0)
  {
    assert log[0..] == log;
  }

  lemma Replaces(me: nat, term: nat, votedFor: int, log: seq<Entry>, entries: seq<Entry>)
    ensures OnAppend(Quiet(me, term, votedFor, log), AppendArgs(term, 0, 0, entries, 0)) ==
            (Quiet(me, term, votedFor, entries), AppendReply(term, true, 0, 0, 0))
  {
    assert log[..0] + entries == entries;
  }

  lemma Commits(me: nat, peer: nat, e: Entry, acked: seq<nat>)
    requires me < 3 && peer < 3 && peer != me && acked == [0, 0, 0][me := 1][peer := 1]
    ensures OnAppendReply(Peer(me, e.term, me, [e], 0, 0, Leader, [1, 1, 1], [0, 0, 0][me := 1], 2), peer,
                          AppendArgs(e.term, 0, 0, [e], 0), AppendReply(e.term, true, 0, 0, 0)) ==
            Peer(me, e.term, me, [e], 1, 0, Leader, [1, 1, 1][peer := 2], acked, 2)
  {
    TwoOfThree(acked, 1);
    assert Committable(Peer(me, e.term, me, [e], 0, 0, Leader, [1, 1, 1][peer := 2], acked, 2), 1);
  }

  lemma {:induction false} TwoOfThree(acked: seq<nat>, index: nat)
    requires |acked| == 3
    ensures Agreeing(acked, index) ==
            (if acked[0] >= index then 1 else 0) + (if acked[1] >= index then 1 else 0)
            + (if acked[2] >= index then 1 else 0)
  {
    var two, one := acked[..2], acked[..2][..1];
    assert Agreeing(one[..0], index) == 0;
    assert Agreeing(one, index) == if acked[0] >= index then 1 else 0;
    assert Agreeing(two, index) == Agreeing(one, index) + if acked[1] >= index then 1 else 0;
  }

  // ---------------------------------------------------------------- the run

  /** `c` is the last state of a run of three servers. */
  ghost predicate Reachable(c: Cluster) {
    exists states: seq<Cluster>, steps: seq<Step> :: IsRun(3, states, steps) && states[|steps|] == c
  }

  lemma ReachableFacts(c: Cluster)
    requires Reachable(c)
    ensures WellFormed(c) && |c.servers| == |c.vlogs| == 3
    ensures forall i :: 0 <= i < 3 && c.servers[i].snapIndex == 0 ==> c.vlogs[i] == c.servers[i].log
  {
    hide HistoryOK, LogOK, NotAhead, VoteOK, CandidateOK, LeaderOK, MsgOK;
    var states: seq<Cluster>, steps: seq<Step> :| IsRun(3, states, steps) && states[|steps|] == c;
    RunInv(3, states, steps, |steps|);
    forall i: nat | i < 3 && c.servers[i].snapIndex == 0 ensures c.vlogs[i] == c.servers[i].log {
      assert ServerOK(3, c.history, i, c.servers[i], c.vlogs[i], c.tallies[i], c.answered);
      assert c.vlogs[i][0..] == c.vlogs[i];
    }
  }

  lemma StepReaches(c: Cluster, step: Step)
    requires Reachable(c) && WellFormed(c) && Enabled(c, step)
    ensures Reachable(Do(c, step))
  {
    hide Do, Enabled, WellFormed;
    var states, steps := OneMore(c, step);
    assert IsRun(3, states, steps) && states[|steps|] == Do(c, step);
  }

  lemma StartReaches()
    ensures Reachable(Init(3))
  {
    var steps: seq<Step> := [];
    assert IsRun(3, [Init(3)], steps) && [Init(3)][|steps|] == Init(3);
  }

  /** A candidate is elected by the vote of one other server. */
  lemma Election(c: Cluster, me: nat, voter: nat, term: nat, votedFor: int, oldTerm: nat, oldVote: int)
    returns (c': Cluster)
    requires Reachable(c) && |c.servers| == 3 && me < 3 && voter < 3 && me != voter && oldTerm <= term
    requires c.servers[me] == Quiet(me, term, votedFor, []) && c.servers[voter] == Quiet(voter, oldTerm, oldVote, [])
    requires VoteCall(me, voter, term + 1) !in c.answered
    ensures Reachable(c') && |c'.servers| == 3 && c'.delivered == c.delivered
    ensures c'.answered == c.answered + {VoteCall(me, voter, term + 1)}
    ensures c'.servers[me] == Peer(me, term + 1, me, [], 0, 0, Leader, [1, 1, 1], [0, 0, 0], 2)
    ensures c'.servers[voter] == Quiet(voter, term + 1, me, [])
    ensures forall i :: 0 <= i < 3 && i != me && i != voter ==> c'.servers[i] == c.servers[i]
  {
    hide Reachable, WellFormed, OnTimeout, OnRequestVote, OnVoteReply, Quiet;
    ReachableFacts(c);
    Stands(me, term, votedFor);
    QuietFields(me, term, votedFor, []);
    StepReaches(c, Timeout(me));
    var c1 := DoTimeout(c, me);
    var ask := VoteReq(me, voter, VoteArgs(term + 1, me, 0, 0));
    assert ask in c1.net;
    ReachableFacts(c1);
    Grants(voter, oldTerm, oldVote, me, term + 1);
    StepReaches(c1, HandleVote(ask));
    var c2 := DoVote(c1, ask);
    var answer := VoteRep(me, voter, ask.va, VoteReply(term + 1, true));
    assert answer in c2.net;
    ReachableFacts(c2);
    Wins(me, term + 1);
    StepReaches(c2, HandleVoteReply(answer));
    c' := DoVoteReply(c2, answer);
  }

  lemma QuietFields(me: nat, term: nat, votedFor: int, log: seq<Entry>)
    ensures var s := Quiet(me, term, votedFor, log);
            s.role == Follower && s.currentTerm == term && s.snapIndex == 0 && s.log == log
  {
  }

  /** A leader with an empty log sends a heartbeat to `peer`. */
  lemma Heartbeat(c: Cluster, me: nat, peer: nat, term: nat) returns (c': Cluster)
    requires Reachable(c) && |c.servers| == 3 && me < 3 && peer < 3 && me != peer
    requires c.servers[me] == Peer(me, term, me, [], 0, 0, Leader, [1, 1, 1], [0, 0, 0], 2)
    ensures Reachable(c') && c'.servers == c.servers && c'.answered == c.answered
    ensures AppendReq(me, peer, AppendArgs(term, 0, 0, [], 0), []) in c'.net
  {
    hide Reachable, WellFormed, AppendFor, InRange;
    ReachableFacts(c);
    Sends(me, term, [], [0, 0, 0], peer);
    StepReaches(c, SendAppend(me, peer));
    c' := DoSendAppend(c, me, peer);
  }

  /** A leader appends a command and sends it to one server, which stores it and acknowledges it. */
  lemma Replication(c: Cluster, me: nat, peer: nat, term: nat, votedFor: int, command: Command) returns (c': Cluster)
    requires Reachable(c) && |c.servers| == 3 && me < 3 && peer < 3 && me != peer
    requires c.servers[me] == Peer(me, term, me, [], 0, 0, Leader, [1, 1, 1], [0, 0, 0], 2)
    requires c.servers[peer] == Quiet(peer, term, votedFor, [])
    ensures Reachable(c') && |c'.servers| == 3 && c.net <= c'.net
    ensures c'.answered == c.answered && c'.delivered == c.delivered
    ensures var e := Entry(term, command);
            && c'.servers[me] == Peer(me, term, me, [e], 0, 0, Leader, [1, 1, 1], [0, 0, 0][me := 1], 2)
            && c'.servers[peer] == Quiet(peer, term, votedFor, [e])
            && AppendRep(me, peer, AppendArgs(term, 0, 0, [e], 0), [e], AppendReply(term, true, 0, 0, 0)) in c'.net
    ensures forall i :: 0 <= i < 3 && i != me && i != peer ==> c'.servers[i] == c.servers[i]
  {
    hide Reachable, WellFormed, AppendFor, InRange, OnStart, OnAppend, Quiet;
    var e := Entry(term, command);
    ReachableFacts(c);
    Appends(me, term, command);
    StepReaches(c, Step.Start(me, command));
    var c1 := DoStart(c, me, command);
    ReachableFacts(c1);
    Sends(me, term, [e], [0, 0, 0][me := 1], peer);
    StepReaches(c1, SendAppend(me, peer));
    var c2 := DoSendAppend(c1, me, peer);
    var request := AppendReq(me, peer, AppendArgs(term, 0, 0, [e], 0), [e]);
    assert request in c2.net;
    ReachableFacts(c2);
    Replaces(peer, term, votedFor, [], [e]);
    StepReaches(c2, HandleAppend(request));
    c' := DoAppend(c2, request);
  }

  /** The leader counts the acknowledgement, commits the entry and applies it. */
  lemma Commitment(c: Cluster, me: nat, peer: nat, e: Entry) returns (c': Cluster)
    requires Reachable(c) && |c.servers| == 3 && me < 3 && peer < 3 && me != peer
    requires c.servers[me] == Peer(me, e.term, me, [e], 0, 0, Leader, [1, 1, 1], [0, 0, 0][me := 1], 2)
    requires AppendRep(me, peer, AppendArgs(e.term, 0, 0, [e], 0), [e], AppendReply(e.term, true, 0, 0, 0)) in c.net
    ensures Reachable(c') && |c'.servers| == 3 && c.net <= c'.net && c'.answered == c.answered
    ensures c'.delivered == c.delivered + {Delivery(me, 1, e.command)}
    ensures c'.servers[me] ==
            Peer(me, e.term, me, [e], 1, 1, Leader, [1, 1, 1][peer := 2], [0, 0, 0][me := 1][peer := 1], 2)
    ensures forall i :: 0 <= i < 3 && i != me ==> c'.servers[i] == c.servers[i]
  {
    hide Reachable, WellFormed, OnAppendReply;
    var reply := AppendRep(me, peer, AppendArgs(e.term, 0, 0, [e], 0), [e], AppendReply(e.term, true, 0, 0, 0));
    ReachableFacts(c);
    Commits(me, peer, e, [0, 0, 0][me := 1][peer := 1]);
    StepReaches(c, HandleAppendReply(reply));
    var c1 := DoAppendReply(c, reply);
    ReachableFacts(c1);
    StepReaches(c1, Apply(me));
    c' := DoApply(c1, me);
  }

  /** A late heartbeat of the current term empties a follower's log. */
  lemma Erasure(c: Cluster, src: nat, dst: nat, term: nat, votedFor: int, log: seq<Entry>) returns (c': Cluster)
    requires Reachable(c) && |c.servers| == 3 && src < 3 && dst < 3
    requires c.servers[dst] == Quiet(dst, term, votedFor, log)
    requires AppendReq(src, dst, AppendArgs(term, 0, 0, [], 0), []) in c.net
    ensures Reachable(c') && |c'.servers| == 3 && c'.delivered == c.delivered && c'.answered == c.answered
    ensures c'.servers == c.servers[dst := Quiet(dst, term, votedFor, [])]
  {
    hide Reachable, WellFormed, OnAppend, Quiet;
    ReachableFacts(c);
    Replaces(dst, term, votedFor, log, []);
    var late := AppendReq(src, dst, AppendArgs(term, 0, 0, [], 0), []);
    StepReaches(c, HandleAppend(late));
    c' := DoAppend(c, late);
  }

  /** Server 0 has committed and applied `x`; server 1, whose copy was erased, leads term 2 with an empty
      log; server 0 does not know yet. */
  lemma TwoLeaders(x: Command) returns (c: Cluster)
    ensures Reachable(c) && |c.servers| == 3 && Delivery(0, 1, x) in c.delivered
    ensures c.servers[0] == Peer(0, 1, 0, [Entry(1, x)], 1, 1, Leader, [1, 2, 1], [1, 1, 0], 2)
    ensures c.servers[1] == Peer(1, 2, 1, [], 0, 0, Leader, [1, 1, 1], [0, 0, 0], 2)
    ensures c.servers[2] == Quiet(2, 2, 1, [])
  {
    hide Quiet, Reachable, WellFormed;
    StartReaches();
    FreshIsQuiet(0);
    FreshIsQuiet(1);
    FreshIsQuiet(2);
    c := Init(3);
    c := Election(c, 0, 1, 0, NOBODY, 0, NOBODY);
    c := Heartbeat(c, 0, 1, 1);
    c := Replication(c, 0, 1, 1, 0, x);
    c := Commitment(c, 0, 1, Entry(1, x));
    assert [1, 1, 1][1 := 2] == [1, 2, 1] && [0, 0, 0][0 := 1][1 := 1] == [1, 1, 0];
    c := Erasure(c, 0, 1, 1, 0, [Entry(1, x)]);
    c := Election(c, 1, 2, 1, 0, 0, NOBODY);
  }

  /** State Machine Safety is false of the code: any two commands can be applied at index 1 by two
      servers of the same run. */
  lemma StateMachineSafetyFails(x: Command, y: Command)
    returns (states: seq<Cluster>, steps: seq<Step>, d: Delivery, e: Delivery)
    ensures IsRun(3, states, steps)
    ensures d in states[|steps|].delivered && e in states[|steps|].delivered
    ensures d.server != e.server && d.index == e.index == 1 && d.command == x && e.command == y
  {
    hide Quiet, Reachable;
    var c := TwoLeaders(x);
    c := Replication(c, 1, 2, 2, 1, y);
    c := Commitment(c, 1, 2, Entry(2, y));
    states, steps := RunTo(c);
    d, e := Delivery(0, 1, x), Delivery(1, 1, y);
  }

  // ---------------------------------------------------------------- an index that outruns the log

  /** A server whose log was compacted, or emptied by a snapshot, at `snap` with term 1. */
  function Cut(s: Server, snap: nat, log: seq<Entry>): Server {
    s.(snapIndex := snap, snapTerm := 1, log := log, disk := Durable(s.votedFor, s.currentTerm, log, snap, 1))
  }

  function Leading(log: seq<Entry>, commit: nat, applied: nat, next: seq<nat>, acked: seq<nat>): Server {
    Peer(0, 1, 0, log, commit, applied, Leader, next, acked, 2)
  }

  function Learning(log: seq<Entry>, commit: nat, applied: nat): Server {
    Peer(2, 1, NOBODY, log, commit, applied, Follower, [0, 0, 0], [0, 0, 0], 0)
  }

  /** The leader of term 1 appends two commands. */
  lemma TwoStarts(c: Cluster, x: Command, y: Command) returns (c': Cluster)
    requires Reachable(c) && |c.servers| == 3 && c.servers[0] == Leading([], 0, 0, [1, 1, 1], [0, 0, 0])
    ensures Reachable(c') && |c'.servers| == 3
    ensures c'.servers[0] == Leading([Entry(1, x), Entry(1, y)], 0, 0, [1, 1, 1], [2, 0, 0])
    ensures c'.servers[1] == c.servers[1] && c'.servers[2] == c.servers[2]
  {
    hide Reachable, WellFormed, OnStart;
    ReachableFacts(c);
    StartsOne([], [0, 0, 0], x);
    StepReaches(c, Step.Start(0, x));
    var c1 := DoStart(c, 0, x);
    ReachableFacts(c1);
    StartsOne([Entry(1, x)], [1, 0, 0], y);
    assert [] + [Entry(1, x)] == [Entry(1, x)] && [Entry(1, x)] + [Entry(1, y)] == [Entry(1, x), Entry(1, y)];
    StepReaches(c1, Step.Start(0, y));
    c' := DoStart(c1, 0, y);
  }

  lemma StartsOne(log: seq<Entry>, acked: seq<nat>, command: Command)
    requires |acked| == 3 && acked[0] == |log| && acked[1] == acked[2] == 0
    ensures OnStart(Leading(log, 0, 0, [1, 1, 1], acked), command) ==
            Leading(log + [Entry(1, command)], 0, 0, [1, 1, 1], [|log| + 1, 0, 0])
  {
    assert acked[0 := |log| + 1] == [|log| + 1, 0, 0];
  }

  /** Server 1 stores both entries, and the leader commits them. */
  lemma TwoCommitted(c: Cluster, log: seq<Entry>) returns (c': Cluster)
    requires Reachable(c) && |c.servers| == 3 && |log| == 2 && log[0].term == log[1].term == 1
    requires c.servers[0] == Leading(log, 0, 0, [1, 1, 1], [2, 0, 0]) && c.servers[1] == Quiet(1, 1, 0, [])
    ensures Reachable(c') && |c'.servers| == 3 && c'.servers[2] == c.servers[2]
    ensures c'.servers[0] == Leading(log, 2, 0, [1, 3, 1], [2, 2, 0])
  {
    hide Reachable, WellFormed, AppendFor, InRange, OnAppend, OnAppendReply, Quiet;
    var a := AppendArgs(1, 0, 0, log, 0);
    ReachableFacts(c);
    Sends(0, 1, log, [2, 0, 0], 1);
    StepReaches(c, SendAppend(0, 1));
    var c1 := DoSendAppend(c, 0, 1);
    var request := AppendReq(0, 1, a, log);
    assert request in c1.net;
    ReachableFacts(c1);
    Replaces(1, 1, 0, [], log);
    StepReaches(c1, HandleAppend(request));
    var c2 := DoAppend(c1, request);
    var reply := AppendRep(0, 1, a, log, AppendReply(1, true, 0, 0, 0));
    assert reply in c2.net;
    ReachableFacts(c2);
    CommitsTwo(log);
    StepReaches(c2, HandleAppendReply(reply));
    c' := DoAppendReply(c2, reply);
  }

  lemma CommitsTwo(log: seq<Entry>)
    requires |log| == 2 && log[0].term == log[1].term == 1
    ensures OnAppendReply(Leading(log, 0, 0, [1, 1, 1], [2, 0, 0]), 1, AppendArgs(1, 0, 0, log, 0),
                          AppendReply(1, true, 0, 0, 0)) ==
            Leading(log, 2, 0, [1, 3, 1], [2, 2, 0])
  {
    TwoOfThree([2, 2, 0], 2);
    assert [2, 0, 0][1 := 2] == [2, 2, 0] && [1, 1, 1][1 := 3] == [1, 3, 1];
    assert Committable(Leading(log, 0, 0, [1, 3, 1], [2, 2, 0]), 2);
  }

  /** The leader sends server 2 both entries, then compacts at index 1 and sends the snapshot. */
  lemma TwoSent(c: Cluster, log: seq<Entry>) returns (c': Cluster, request: Msg, snapshot: Msg)
    requires Reachable(c) && |c.servers| == 3 && |log| == 2 && log[0].term == log[1].term == 1
    requires c.servers[0] == Leading(log, 2, 0, [1, 3, 1], [2, 2, 0])
    ensures Reachable(c') && |c'.servers| == 3 && c'.servers[2] == c.servers[2]
    ensures request in c'.net && request == AppendReq(0, 2, AppendArgs(1, 0, 0, log, 2), log)
    ensures snapshot in c'.net && snapshot.SnapReq? && snapshot.src == 0 && snapshot.dst == 2
    ensures snapshot.sa == SnapArgs(1, 0, 1, 1)
  {
    hide Reachable, WellFormed, OnSnapshot, NextApplied;
    ReachableFacts(c);
    assert log[0..] == log;
    StepReaches(c, SendAppend(0, 2));
    var c1 := DoSendAppend(c, 0, 2);
    request := AppendReq(0, 2, AppendArgs(1, 0, 0, log, 2), log);
    assert request in c1.net;
    ReachableFacts(c1);
    StepReaches(c1, Apply(0));
    var c2 := DoApply(c1, 0);
    ReachableFacts(c2);
    CompactsOne(log);
    StepReaches(c2, Compact(0, 1));
    var c3 := Put(c2, 0, OnSnapshot(c2.servers[0], 1));
    ReachableFacts(c3);
    StepReaches(c3, SendSnapshot(0, 2));
    c' := DoSendSnapshot(c3, 0, 2);
    snapshot := SnapshotMsg(c3, 0, 2);
  }

  lemma CompactsOne(log: seq<Entry>)
    requires |log| == 2 && log[0].term == log[1].term == 1
    ensures var s := Leading(log, 2, 1, [1, 3, 1], [2, 2, 0]);
            OnSnapshot(s, 1) == Cut(s, 1, log[1..])
  {
  }

  /** Server 2 stores and applies both entries. */
  lemma TwoApplied(c: Cluster, log: seq<Entry>, request: Msg) returns (c': Cluster)
    requires Reachable(c) && |c.servers| == 3 && |log| == 2 && log[0].term == log[1].term == 1
    requires c.servers[2] == Quiet(2, 0, NOBODY, [])
    requires request in c.net && request == AppendReq(0, 2, AppendArgs(1, 0, 0, log, 2), log)
    ensures Reachable(c') && |c'.servers| == 3 && c.net <= c'.net
    ensures c'.servers[2] == Learning(log, 2, 2)
  {
    hide Reachable, WellFormed, OnAppend, NextApplied;
    ReachableFacts(c);
    Learns(log);
    StepReaches(c, HandleAppend(request));
    var c1 := DoAppend(c, request);
    ReachableFacts(c1);
    StepReaches(c1, Apply(2));
    var c2 := DoApply(c1, 2);
    ReachableFacts(c2);
    StepReaches(c2, Apply(2));
    c' := DoApply(c2, 2);
  }

  lemma Learns(log: seq<Entry>)
    requires |log| == 2
    ensures OnAppend(Quiet(2, 0, NOBODY, []), AppendArgs(1, 0, 0, log, 2)) ==
            (Learning(log, 2, 0), AppendReply(1, true, 0, 0, 0))
  {
    var none: seq<Entry> := [];
    assert none[..0] + log == log;
  }

  /** Indices inside the log are false of the code: a server can be asked for a snapshot at an index it
      has applied but no longer holds, which makes Snapshot slice beyond the end of its log
      (src/raft/raft.go:254-263). */
  lemma SnapshotOverruns(x: Command, y: Command) returns (states: seq<Cluster>, steps: seq<Step>)
    ensures IsRun(3, states, steps) && |states[|steps|].servers| == 3
    ensures var s := states[|steps|].servers[2];
            s.snapIndex < 2 <= s.lastApplied == s.commitIndex && s.LastIndex() < 2
  {
    hide Quiet, OnInstall, Leading, Learning, Peer, Reachable, WellFormed;
    StartReaches();
    FreshIsQuiet(0);
    FreshIsQuiet(1);
    FreshIsQuiet(2);
    var log := [Entry(1, x), Entry(1, y)];
    LeadingIsPeer();
    var c := Init(3);
    c := Election(c, 0, 1, 0, NOBODY, 0, NOBODY);
    c := TwoStarts(c, x, y);
    c := TwoCommitted(c, log);
    var request, snapshot;
    c, request, snapshot := TwoSent(c, log);
    c := TwoApplied(c, log, request);
    ReachableFacts(c);
    Forgets(log);
    StepReaches(c, HandleInstall(snapshot));
    c := DoInstall(c, snapshot);
    states, steps := RunTo(c);
  }

  lemma LeadingIsPeer()
    ensures Peer(0, 1, 0, [], 0, 0, Leader, [1, 1, 1], [0, 0, 0], 2) == Leading([], 0, 0, [1, 1, 1], [0, 0, 0])
  {
  }

  lemma Forgets(log: seq<Entry>)
    requires |log| == 2
    ensures var s := OnInstall(Learning(log, 2, 2), SnapArgs(1, 0, 1, 1)).0;
            s.snapIndex == s.LastIndex() == 1 && s.lastApplied == s.commitIndex == 2
  {
  }

  lemma RunTo(c: Cluster) returns (states: seq<Cluster>, steps: seq<Step>)
    requires Reachable(c)
    ensures IsRun(3, states, steps) && states[|steps|] == c
  {
    states, steps :| IsRun(3, states, steps) && states[|steps|] == c;
  }

  // ---------------------------------------------------------------- the broadcast of a server that no longer leads

  /** `ticker` finds that it leads, releases the lock, and broadcasts without looking again
      (src/raft/raft.go:732-755). If a heartbeat of a new leader is handled in between, the broadcast
      indexes outside the log for server 1, and for server 2 it builds a request in a term that another
      server leads. Looking again at line 737 repairs both: see `RaftTheorems.LeaderIndexSafety` and
      `RaftTheorems.RequestOrigin`. */
  lemma StaleBroadcast(x: Command) returns (states: seq<Cluster>, steps: seq<Step>)
    ensures IsRun(3, states, steps) && |steps| > 0
    ensures Leads(states[|steps| - 1], 0, 1) && Leads(states[|steps|], 1, 2)
    ensures |states[|steps|].servers| == 3
    ensures var s := states[|steps|].servers[0];
            && |s.nextIndex| == 3 && s.role != Leader
            && s.nextIndex[1] > s.LastIndex() + 1 && s.nextIndex[1] > s.snapIndex
            && InRange(s, 2) && AppendFor(s, 2).term == 2
  {
    hide Quiet, OnAppend, WellFormed, Reachable, IsRun;
    var e := Entry(1, x);
    var c := TwoLeaders(x);
    c := Heartbeat(c, 1, 0, 2);
    ReachableFacts(c);
    Yields(e);
    states, steps := OneMore(c, HandleAppend(AppendReq(1, 0, AppendArgs(2, 0, 0, [], 0), [])));
  }

  lemma Yields(e: Entry)
    ensures var s := Peer(0, 1, 0, [e], 1, 1, Leader, [1, 2, 1], [1, 1, 0], 2);
            OnAppend(s, AppendArgs(2, 0, 0, [], 0)).0 ==
            Peer(0, 2, NOBODY, [], 0, 0, Follower, [1, 2, 1], [1, 1, 0], 2)
  {
    assert [e][..0] + [] == [];
  }

  lemma OneMore(c: Cluster, step: Step) returns (states: seq<Cluster>, steps: seq<Step>)
    requires Reachable(c) && WellFormed(c) && Enabled(c, step)
    ensures IsRun(3, states, steps) && |steps| > 0
    ensures states[|steps| - 1] == c && states[|steps|] == Do(c, step)
  {
    hide Do, Enabled, WellFormed;
    states, steps := RunTo(c);
    var before := states;
    states, steps := states + [Do(c, step)], steps + [step];
    forall k | 0 <= k < |steps| ensures Next(states[k], steps[k], states[k + 1]) {
      if k < |steps| - 1 { assert Next(before[k], steps[k], before[k + 1]); }
    }
  }
}
