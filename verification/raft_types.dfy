/** The values a Raft peer stores and exchanges (src/raft/raft.go).

    Terms, log indices and array offsets are non-negative in every reachable state of the
    source, so they are `nat`; `votedFor` and the hint `xTerm` use -1 as the source does. */
module RaftTypes {

  /** A client command; Raft never looks inside one. */
  type Command(==, !new)

  datatype Entry = Entry(term: nat, command: Command)

  datatype Role = Follower | Leader | Candidate

  const NOBODY: int := -1

  /** What `persist` encodes, in the order it encodes it. */
  datatype Durable = Durable(votedFor: int, currentTerm: nat, log: seq<Entry>, snapIndex: nat, snapTerm: nat)

  /** The fields of `Raft` that its handlers read and write. `snapIndex` and `snapTerm` are
      `lastIncludedIndex` and `lastIncludedTerm`, `peers` is `len(rf.peers)`, `disk` is what the
      persister holds. */
  datatype Server = Server(
    me: nat,
    peers: nat,
    currentTerm: nat,
    votedFor: int,
    log: seq<Entry>,
    commitIndex: nat,
    lastApplied: nat,
    snapIndex: nat,
    snapTerm: nat,
    role: Role,
    nextIndex: seq<nat>,
    matchIndex: seq<nat>,
    votes: nat,
    disk: Durable)
  {
    function LastIndex(): nat {
      snapIndex + |log|
    }

    function LastTerm(): nat {
      if |log| == 0 then snapTerm else log[|log| - 1].term
    }

    function Saved(): Durable {
      Durable(votedFor, currentTerm, log, snapIndex, snapTerm)
    }

    function Persist(): Server {
      this.(disk := Saved())
    }

    predicate InSync() {
      disk == Saved()
    }

    /** The term the source reads at an index that has not been compacted away. */
    function TermOf(index: nat): nat
      requires snapIndex <= index <= LastIndex()
    {
      if index == snapIndex then snapTerm else log[index - snapIndex - 1].term
    }
  }

  datatype VoteArgs = VoteArgs(term: nat, candidate: nat, lastIndex: nat, lastTerm: nat)
  datatype VoteReply = VoteReply(term: nat, granted: bool)

  datatype AppendArgs = AppendArgs(term: nat, prevIndex: nat, prevTerm: nat, entries: seq<Entry>, leaderCommit: nat)
  datatype AppendReply = AppendReply(term: nat, success: bool, xTerm: int, xIndex: nat, xLen: nat)

  datatype SnapArgs = SnapArgs(term: nat, leader: nat, lastIndex: nat, lastTerm: nat)
  datatype SnapReply = SnapReply(term: nat)

  /** `a` and `b` have the same first `k` entries. */
  ghost predicate Agree(a: seq<Entry>, b: seq<Entry>, k: nat) {
    k <= |a| && k <= |b| && forall j :: 0 <= j < k ==> a[j] == b[j]
  }

  ghost predicate IsPrefix(a: seq<Entry>, b: seq<Entry>) {
    Agree(a, b, |a|)
  }

  /** The term at one-based position `index` of a whole log; position 0 has term 0. */
  function TermAt(log: seq<Entry>, index: nat): nat
    requires index <= |log|
  {
    if index == 0 then 0 else log[index - 1].term
  }

  /** The comparison of section 5.4.1 of the extended Raft paper. */
  predicate UpToDate(candTerm: nat, candIndex: nat, term: nat, index: nat) {
    candTerm > term || (candTerm == term && candIndex >= index)
  }
}
