/** Any number of Raft peers joined by a network that may lose, delay, reorder and duplicate
    requests. Each mutex-held region is one atomic step.

    Beside the real state the cluster carries history that no step reads to decide anything:
    for every server its virtual log, in which the entries a snapshot replaced are restored; for
    every term its leader; for every vote the voter's log; for every acknowledgement its length. */
module RaftCluster {
  import opened RaftTypes
  import opened RaftSteps

  /** A server in a term. */
  datatype Slot = Slot(server: nat, term: nat)

  /** The leadership of one term: who, with which log it was elected, the log it has built since,
      and the voters that were counted. */
  datatype Reign = Reign(leader: nat, base: seq<Entry>, log: seq<Entry>, quorum: set<nat>)

  /** A vote, with the voter's virtual log at the moment it was first cast. */
  datatype Ballot = Ballot(candidate: nat, log: seq<Entry>)

  /** `server` told the leader of `term` that it stores the first `length` entries of its log. */
  datatype Ack = Ack(server: nat, term: nat, length: nat)

  datatype History = History(
    reigns: map<nat, Reign>,
    ballots: map<Slot, Ballot>,
    bids: map<Slot, seq<Entry>>, // a candidate's virtual log when its candidacy began
    acks: set<Ack>)

  /** Append messages carry the sender's whole virtual log, snapshot messages its compacted part. */
  datatype Msg =
    | VoteReq(src: nat, dst: nat, va: VoteArgs)
    | VoteRep(src: nat, dst: nat, va: VoteArgs, vr: VoteReply)
    | AppendReq(src: nat, dst: nat, aa: AppendArgs, full: seq<Entry>)
    | AppendRep(src: nat, dst: nat, aa: AppendArgs, full: seq<Entry>, ar: AppendReply)
    | SnapReq(src: nat, dst: nat, sa: SnapArgs, full: seq<Entry>)
    | SnapRep(src: nat, dst: nat, sa: SnapArgs, full: seq<Entry>, sr: SnapReply)

  /** One vote call: a candidate asks a voter once per term. */
  datatype VoteCall = VoteCall(candidate: nat, voter: nat, term: nat)

  /** A command handed to the service of `server` as entry number `index`. */
  datatype Delivery = Delivery(server: nat, index: nat, command: Command)

  datatype Cluster = Cluster(
    servers: seq<Server>,
    vlogs: seq<seq<Entry>>,
    tallies: seq<set<nat>>,   // the voters behind each server's bare vote counter
    answered: set<VoteCall>,  // vote calls that have returned: each returns at most once
    net: set<Msg>,            // every message ever sent
    history: History,
    delivered: set<Delivery>)

  datatype Step =
    | Timeout(i: nat)
    | HandleVote(m: Msg)
    | HandleVoteReply(m: Msg)
    | Start(i: nat, command: Command)
    | SendAppend(i: nat, peer: nat)
    | HandleAppend(m: Msg)
    | HandleAppendReply(m: Msg)
    | SendSnapshot(i: nat, peer: nat)
    | HandleInstall(m: Msg)
    | HandleInstallReply(m: Msg)
    | Compact(i: nat, index: nat)
    | Apply(i: nat)
    | Restart(i: nat)

  function Init(n: nat): Cluster {
    Cluster(seq(n, (i: nat) => Fresh(i, n)), seq(n, _ => []), seq(n, _ => {}), {}, {},
            History(map[], map[], map[], {}), {})
  }

  /** The lists all have one element per server, and each server's own arrays are that long too. */
  predicate WellFormed(c: Cluster) {
    && |c.servers| == |c.vlogs| == |c.tallies|
    && forall i {:trigger c.servers[i]} :: 0 <= i < |c.servers| ==>
         && c.servers[i].me == i
         && c.servers[i].peers == |c.servers| == |c.servers[i].nextIndex| == |c.servers[i].matchIndex|
  }

  predicate Live(c: Cluster, m: Msg) {
    m in c.net && m.src < |c.servers| && m.dst < |c.servers|
  }

  predicate Enabled(c: Cluster, step: Step)
    requires WellFormed(c)
  {
    match step
    case Timeout(i) => i < |c.servers| && c.servers[i].role != Leader
    case HandleVote(m) => m.VoteReq? && Live(c, m)
    case HandleVoteReply(m) =>
      m.VoteRep? && Live(c, m) && VoteCall(m.src, m.dst, m.va.term) !in c.answered
    case Start(i, _) => i < |c.servers| && c.servers[i].role == Leader
    case SendAppend(i, p) =>
      && i < |c.servers| && c.servers[i].role == Leader
      && p < |c.servers| && p != i && InRange(c.servers[i], p)
    case HandleAppend(m) => m.AppendReq? && Live(c, m)
    case HandleAppendReply(m) => m.AppendRep? && Live(c, m)
    case SendSnapshot(i, p) => i < |c.servers| && c.servers[i].role == Leader && p < |c.servers| && p != i
    case HandleInstall(m) => m.SnapReq? && Live(c, m)
    case HandleInstallReply(m) => m.SnapRep? && Live(c, m)
    case Compact(i, index) => i < |c.servers| && SnapshotInRange(c.servers[i], index)
    case Apply(i) => i < |c.servers| && WantsApply(c.servers[i]) && ApplyInRange(c.servers[i])
    case Restart(i) => i < |c.servers|
  }

  function Put(c: Cluster, i: nat, s: Server): Cluster
    requires i < |c.servers|
  {
    c.(servers := c.servers[i := s])
  }

  // ---------------------------------------------------------------- history updates

  function RecordVote(h: History, voter: nat, term: nat, candidate: nat, log: seq<Entry>): History {
    if Slot(voter, term) in h.ballots then h
    else h.(ballots := h.ballots[Slot(voter, term) := Ballot(candidate, log)])
  }

  function RecordBid(h: History, i: nat, term: nat, log: seq<Entry>): History {
    h.(bids := h.bids[Slot(i, term) := log], ballots := h.ballots[Slot(i, term) := Ballot(i, log)])
  }

  function RecordReign(h: History, i: nat, term: nat, log: seq<Entry>, quorum: set<nat>): History {
    h.(reigns := h.reigns[term := Reign(i, log, log, quorum)], acks := h.acks + {Ack(i, term, |log|)})
  }

  function RecordEntry(h: History, i: nat, term: nat, e: Entry): History
    requires term in h.reigns
  {
    var log := h.reigns[term].log + [e];
    h.(reigns := h.reigns[term := h.reigns[term].(log := log)], acks := h.acks + {Ack(i, term, |log|)})
  }

  function RecordAck(h: History, i: nat, term: nat, length: nat): History {
    h.(acks := h.acks + {Ack(i, term, length)})
  }

  // ---------------------------------------------------------------- the steps

  function DoTimeout(c: Cluster, i: nat): Cluster
    requires WellFormed(c) && i < |c.servers|
  {
    var (s, a) := OnTimeout(c.servers[i]);
    Put(c, i, s).(
      tallies := c.tallies[i := {i}],
      net := c.net + set p: nat | p < |c.servers| && p != i :: VoteReq(i, p, a),
      history := RecordBid(c.history, i, s.currentTerm, c.vlogs[i]))
  }

  function DoVote(c: Cluster, m: Msg): Cluster
    requires WellFormed(c) && m.VoteReq? && m.dst < |c.servers|
  {
    var (s, r) := OnRequestVote(c.servers[m.dst], m.va);
    Put(c, m.dst, s).(
      net := c.net + {VoteRep(m.src, m.dst, m.va, r)},
      history := if r.granted then RecordVote(c.history, m.dst, m.va.term, m.va.candidate, c.vlogs[m.dst])
                 else c.history)
  }

  /** The vote is counted in this call. */
  predicate Counts(s: Server, m: Msg)
    requires m.VoteRep?
  {
    s.currentTerm == m.va.term && s.role == Candidate && m.vr.term <= s.currentTerm && m.vr.granted
  }

  function DoVoteReply(c: Cluster, m: Msg): Cluster
    requires WellFormed(c) && m.VoteRep? && m.src < |c.servers|
  {
    var s0 := c.servers[m.src];
    var s := OnVoteReply(s0, m.va.term, m.vr);
    var tally := if Counts(s0, m) then c.tallies[m.src] + {m.dst} else c.tallies[m.src];
    Put(c, m.src, s).(
      tallies := c.tallies[m.src := tally],
      answered := c.answered + {VoteCall(m.src, m.dst, m.va.term)},
      history := if s0.role != Leader && s.role == Leader
                 then RecordReign(c.history, m.src, s.currentTerm, c.vlogs[m.src], tally)
                 else c.history)
  }

  function DoStart(c: Cluster, i: nat, command: Command): Cluster
    requires WellFormed(c) && i < |c.servers|
  {
    var s0 := c.servers[i];
    var e := Entry(s0.currentTerm, command);
    Put(c, i, OnStart(s0, command)).(
      vlogs := c.vlogs[i := c.vlogs[i] + [e]],
      history := if s0.currentTerm in c.history.reigns then RecordEntry(c.history, i, s0.currentTerm, e)
                 else c.history)
  }

  function DoSendAppend(c: Cluster, i: nat, p: nat): Cluster
    requires WellFormed(c) && i < |c.servers| && InRange(c.servers[i], p)
  {
    c.(net := c.net + {AppendReq(i, p, AppendFor(c.servers[i], p), c.vlogs[i])})
  }

  /** The virtual log after a step that keeps the snapshot index: compacted part, then real log. */
  function Restored(vlog: seq<Entry>, s: Server): seq<Entry> {
    if s.snapIndex <= |vlog| then vlog[..s.snapIndex] + s.log else vlog
  }

  function DoAppend(c: Cluster, m: Msg): Cluster
    requires WellFormed(c) && m.AppendReq? && m.dst < |c.servers|
  {
    var (s, r) := OnAppend(c.servers[m.dst], m.aa);
    Put(c, m.dst, s).(
      vlogs := c.vlogs[m.dst := Restored(c.vlogs[m.dst], s)],
      net := c.net + {AppendRep(m.src, m.dst, m.aa, m.full, r)},
      history := if r.success then RecordAck(c.history, m.dst, m.aa.term, |m.full|) else c.history)
  }

  function DoAppendReply(c: Cluster, m: Msg): Cluster
    requires WellFormed(c) && m.AppendRep? && m.src < |c.servers| && m.dst < |c.servers|
  {
    Put(c, m.src, OnAppendReply(c.servers[m.src], m.dst, m.aa, m.ar))
  }

  /** The message of server `i` with its snapshot for `p`. */
  function SnapshotMsg(c: Cluster, i: nat, p: nat): Msg
    requires WellFormed(c) && i < |c.servers|
  {
    var s := c.servers[i];
    SnapReq(i, p, SnapshotFor(s), if s.snapIndex <= |c.vlogs[i]| then c.vlogs[i][..s.snapIndex] else [])
  }

  function DoSendSnapshot(c: Cluster, i: nat, p: nat): Cluster
    requires WellFormed(c) && i < |c.servers|
  {
    c.(net := c.net + {SnapshotMsg(c, i, p)})
  }

  function DoInstall(c: Cluster, m: Msg): Cluster
    requires WellFormed(c) && m.SnapReq? && m.dst < |c.servers|
  {
    var (s, r) := OnInstall(c.servers[m.dst], m.sa);
    Put(c, m.dst, s).(
      vlogs := c.vlogs[m.dst := if Installs(c.servers[m.dst], m.sa) then m.full else c.vlogs[m.dst]],
      net := c.net + {SnapRep(m.src, m.dst, m.sa, m.full, r)},
      history := if r.term == m.sa.term then RecordAck(c.history, m.dst, m.sa.term, m.sa.lastIndex) else c.history)
  }

  function DoInstallReply(c: Cluster, m: Msg): Cluster
    requires WellFormed(c) && m.SnapRep? && m.src < |c.servers| && m.dst < |c.servers|
  {
    Put(c, m.src, OnInstallReply(c.servers[m.src], m.dst, m.sa, m.sr))
  }

  function DoApply(c: Cluster, i: nat): Cluster
    requires WellFormed(c) && i < |c.servers| && ApplyInRange(c.servers[i])
  {
    var s := c.servers[i];
    Put(c, i, OnApply(s)).(delivered := c.delivered + {Delivery(i, s.lastApplied + 1, NextApplied(s))})
  }

  function Do(c: Cluster, step: Step): Cluster
    requires WellFormed(c) && Enabled(c, step)
  {
    match step
    case Timeout(i) => DoTimeout(c, i)
    case HandleVote(m) => DoVote(c, m)
    case HandleVoteReply(m) => DoVoteReply(c, m)
    case Start(i, command) => DoStart(c, i, command)
    case SendAppend(i, p) => DoSendAppend(c, i, p)
    case HandleAppend(m) => DoAppend(c, m)
    case HandleAppendReply(m) => DoAppendReply(c, m)
    case SendSnapshot(i, p) => DoSendSnapshot(c, i, p)
    case HandleInstall(m) => DoInstall(c, m)
    case HandleInstallReply(m) => DoInstallReply(c, m)
    case Compact(i, index) => Put(c, i, OnSnapshot(c.servers[i], index))
    case Apply(i) => DoApply(c, i)
    case Restart(i) => Put(c, i, OnRestart(c.servers[i]))
  }

  ghost predicate Next(c: Cluster, step: Step, c': Cluster) {
    WellFormed(c) && Enabled(c, step) && c' == Do(c, step)
  }

  /** A run: the states of a cluster of `n` servers from its start, with the step between each two. */
  ghost predicate IsRun(n: nat, states: seq<Cluster>, steps: seq<Step>) {
    && |states| == |steps| + 1
    && states[0] == Init(n)
    && forall k {:trigger steps[k]} :: 0 <= k < |steps| ==> Next(states[k], steps[k], states[k + 1])
  }
}
