/** The `Raft` object of src/raft/raft.go with its fields and loops. Every method is one mutex-held
    region and leaves the object in exactly the state the pure function of `RaftSteps` gives. */
module RaftServer {
  import opened Collections
  import opened RaftTypes
  import opened RaftSteps

  /** What a broadcast does for one peer; `Install` starts `handleSendInstallSnapshot`, which takes the lock
      again and builds its request later. */
  datatype Outgoing = Skip | Append(request: AppendArgs) | Install

  /** The request of `handleSendInstallSnapshot`, if it sends one. */
  datatype SnapCall = NoCall | Call(args: SnapArgs)

  /** The broadcast of `Start` and `ticker`, peer by peer: itself is skipped, a peer whose next entry
      was compacted is to be sent the snapshot, any other one is sent the rest of the log. */
  predicate IsBroadcast(s: Server, out: seq<Outgoing>) {
    |out| == s.peers == |s.nextIndex| &&
    forall p :: 0 <= p < s.peers ==>
      if p == s.me then out[p] == Skip
      else if s.nextIndex[p] <= s.snapIndex then out[p] == Install
      else InRange(s, p) && out[p] == Append(AppendFor(s, p))
  }

  class Raft {
    const me: nat
    const peers: nat
    var currentTerm: nat
    var votedFor: int
    var log: seq<Entry>
    var commitIndex: nat
    var lastApplied: nat
    var snapIndex: nat
    var snapTerm: nat
    var role: Role
    const nextIndex: array<nat>
    const matchIndex: array<nat>
    var votes: nat
    var disk: Durable

    ghost predicate Valid()
    {
      me < peers == nextIndex.Length == matchIndex.Length && nextIndex != matchIndex
    }

    ghost function State(): Server
      reads this, nextIndex, matchIndex
    {
      Server(me, peers, currentTerm, votedFor, log, commitIndex, lastApplied, snapIndex, snapTerm, role,
             nextIndex[..], matchIndex[..], votes, disk)
    }

    /** `Make`: `saved` is what the persister holds, if anything. */
    constructor (me: nat, peers: nat, saved: seq<Durable>)
      requires me < peers && |saved| <= 1
      ensures Valid() && fresh(nextIndex) && fresh(matchIndex)
      ensures saved == [] ==> State() == Fresh(me, peers)
      ensures forall s: Server :: saved == [s.disk] && s.me == me && s.peers == peers ==> State() == OnRestart(s)
    {
      this.me, this.peers := me, peers;
      votes := 0;
      role := Follower;
      var next, acked := new nat[peers](_ => 0), new nat[peers](_ => 0);
      nextIndex, matchIndex := next, acked;
      if |saved| == 0 {
        currentTerm, votedFor, log, snapIndex, snapTerm := 0, NOBODY, [], 0, 0;
        lastApplied, commitIndex := 0, 0;
        disk := Durable(NOBODY, 0, [], 0, 0);
      } else {
        votedFor, currentTerm, log := saved[0].votedFor, saved[0].currentTerm, saved[0].log;
        snapIndex, snapTerm := saved[0].snapIndex, saved[0].snapTerm;
        lastApplied, commitIndex := saved[0].snapIndex, saved[0].snapIndex;
        disk := saved[0];
      }
      new;
      assert nextIndex[..] == seq(peers, _ => 0) && matchIndex[..] == seq(peers, _ => 0);
    }

    method Persist()
      modifies this`disk
      ensures State() == old(State()).Persist()
    {
      disk := Durable(votedFor, currentTerm, log, snapIndex, snapTerm);
    }

    function LastLogIndex(): (r: nat)
      reads this, nextIndex, matchIndex
      ensures r == State().LastIndex()
    {
      snapIndex + |log|
    }

    function LastLogTerm(): (r: nat)
      reads this, nextIndex, matchIndex
      ensures r == State().LastTerm()
    {
      if |log| == 0 then snapTerm else log[|log| - 1].term
    }

    // ---------------------------------------------------------------- elections

    method RequestVote(a: VoteArgs) returns (r: VoteReply)
      requires Valid()
      modifies this
      ensures State() == OnRequestVote(old(State()), a).0 && r == OnRequestVote(old(State()), a).1
    {
      if a.term < currentTerm {
        return VoteReply(currentTerm, false);
      }
      if a.term > currentTerm {
        currentTerm, votedFor, role := a.term, NOBODY, Follower;
      }
      var lastIdx, lastTerm := LastLogIndex(), LastLogTerm();
      var upToDate := a.lastTerm > lastTerm || (a.lastTerm == lastTerm && a.lastIndex >= lastIdx);
      var granted := false;
      if (votedFor == NOBODY || votedFor == a.candidate) && upToDate {
        votedFor := a.candidate;
        granted := true;
      }
      Persist();
      r := VoteReply(currentTerm, granted);
    }

    /** The region of `doElection` that starts a candidacy, once the deadline has passed. */
    method BeginElection() returns (a: VoteArgs)
      requires Valid() && role != Leader
      modifies this
      ensures State() == OnTimeout(old(State())).0 && a == OnTimeout(old(State())).1
    {
      currentTerm := currentTerm + 1;
      role := Candidate;
      votedFor := me;
      votes := 1;
      Persist();
      a := VoteArgs(currentTerm, me, LastLogIndex(), LastLogTerm());
    }

    method InitLeaderIndex()
      requires Valid()
      modifies nextIndex, matchIndex
      ensures State() == LeaderIndices(old(State()))
    {
      var last := LastLogIndex();
      var j := 0;
      while j < peers
        invariant 0 <= j <= peers
        invariant forall p :: 0 <= p < j ==> nextIndex[p] == last + 1 && matchIndex[p] == 0
      {
        nextIndex[j] := last + 1;
        matchIndex[j] := 0;
        j := j + 1;
      }
      matchIndex[me] := last;
      assert nextIndex[..] == seq(peers, _ => last + 1);
      assert matchIndex[..] == seq(peers, i => if i == me then last else 0);
    }

    /** The region of `doElection` that handles a vote reply; `term` is the term of the candidacy. */
    method HandleVoteReply(term: nat, r: VoteReply)
      requires Valid()
      modifies this, nextIndex, matchIndex
      ensures State() == OnVoteReply(old(State()), term, r)
    {
      if currentTerm != term || role != Candidate {
        return;
      }
      if r.term > currentTerm {
        currentTerm, role, votedFor := r.term, Follower, NOBODY;
        Persist();
        return;
      }
      if r.granted {
        votes := votes + 1;
        if votes > peers / 2 {
          role := Leader;
          InitLeaderIndex();
        }
      }
    }

    // ---------------------------------------------------------------- replication

    /** The first lines of `AppendEntries` and `InstallSnapshot`, for a request that is not stale. */
    method Follow(term: nat)
      requires Valid() && term >= currentTerm
      modifies this
      ensures State() == (if term > old(currentTerm)
                          then old(State()).(currentTerm := term, votedFor := NOBODY).Persist()
                          else old(State())).(role := Follower)
    {
      if term > currentTerm {
        currentTerm, votedFor := term, NOBODY;
        Persist();
      }
      role := Follower;
    }

    /** The backward scan of `AppendEntries` for the start of the conflicting term. */
    method ConflictStart(prevIndex: nat) returns (xIndex: nat)
      requires Valid() && snapIndex < prevIndex <= State().LastIndex()
      ensures xIndex == RunStart(State(), prevIndex)
    {
      ghost var s := State();
      var xTerm := log[prevIndex - snapIndex - 1].term;
      xIndex := prevIndex;
      while xIndex > snapIndex + 1
        invariant snapIndex < xIndex <= prevIndex
        invariant log[xIndex - snapIndex - 1].term == xTerm
        invariant RunStart(s, xIndex) == RunStart(s, prevIndex)
      {
        if log[xIndex - 1 - snapIndex - 1].term != xTerm {
          break;
        }
        xIndex := xIndex - 1;
      }
    }

    /** The last part of `AppendEntries`: replace the tail, then clamp what the truncation may have
        left behind. */
    method Splice(a: AppendArgs)
      requires Valid() && snapIndex <= a.prevIndex <= State().LastIndex()
      modifies this
      ensures var s3 := old(State()).(log := Spliced(old(State()), a));
              State() == s3.(commitIndex := Min(Max(s3.commitIndex, a.leaderCommit), s3.LastIndex()),
                             lastApplied := Min(s3.lastApplied, s3.LastIndex())).Persist()
    {
      ReplaceTail(a);
      if a.leaderCommit > commitIndex {
        commitIndex := a.leaderCommit;
      }
      var lastNew := LastLogIndex();
      if commitIndex > lastNew {
        commitIndex := lastNew;
      }
      if lastApplied > lastNew {
        lastApplied := lastNew;
      }
      Persist();
    }

    method ReplaceTail(a: AppendArgs)
      requires Valid() && snapIndex <= a.prevIndex <= State().LastIndex()
      modifies this`log
      ensures log == Spliced(old(State()), a)
    {
      var cut, last := a.prevIndex - snapIndex, LastLogIndex();
      if |a.entries| > 0 {
        log := log[..cut];
        log := log + a.entries;
      } else if last > a.prevIndex {
        log := log[..cut];
      }
    }

    method AppendEntries(a: AppendArgs) returns (r: AppendReply)
      requires Valid()
      modifies this
      ensures State() == OnAppend(old(State()), a).0 && r == OnAppend(old(State()), a).1
    {
      r := AppendReply(currentTerm, false, 0, 0, 0);
      if a.term < currentTerm {
        return;
      }
      Follow(a.term);
      var last := LastLogIndex();
      if a.prevIndex > last {
        return r.(xTerm := -1, xLen := last + 1);
      }
      if a.prevIndex < snapIndex {
        return;
      }
      var prevTerm := snapTerm;
      if a.prevIndex > snapIndex {
        prevTerm := log[a.prevIndex - snapIndex - 1].term;
      }
      if prevTerm != a.prevTerm {
        if a.prevIndex <= snapIndex {
          return;
        }
        var xIndex := ConflictStart(a.prevIndex);
        return r.(xTerm := log[a.prevIndex - snapIndex - 1].term, xIndex := xIndex);
      }
      Splice(a);
      r := r.(term := currentTerm, success := true);
    }

    method CountAgreeing(n: nat) returns (agree: nat)
      requires Valid()
      ensures agree == Agreeing(matchIndex[..], n)
    {
      agree := 0;
      var i := 0;
      while i < peers
        invariant 0 <= i <= peers
        invariant agree == Agreeing(matchIndex[..i], n)
      {
        assert matchIndex[..i + 1][..i] == matchIndex[..i];
        if matchIndex[i] >= n {
          agree := agree + 1;
        }
        i := i + 1;
      }
      assert matchIndex[..peers] == matchIndex[..];
    }

    method AdvanceCommitIndex()
      requires Valid()
      modifies this`commitIndex
      ensures State() == AdvanceCommit(old(State()))
    {
      ghost var s := State();
      var n := LastLogIndex();
      while n > commitIndex
        invariant 0 <= n && State() == s && n <= s.LastIndex()
        invariant CommitPoint(s, n) == CommitPoint(s, s.LastIndex())
        decreases n
      {
        var term := if n <= snapIndex then snapTerm else log[n - snapIndex - 1].term;
        if term == currentTerm {
          var agree := CountAgreeing(n);
          if agree > peers / 2 {
            commitIndex := n;
            break;
          }
        }
        n := n - 1;
      }
    }

    method ProcessAppendEntriesReply(peer: nat, a: AppendArgs, r: AppendReply)
      requires Valid() && peer < peers
      modifies this, nextIndex, matchIndex
      ensures State() == OnAppendReply(old(State()), peer, a, r)
    {
      if currentTerm != a.term || role != Leader {
        return;
      }
      if r.term > currentTerm {
        currentTerm, role, votedFor := r.term, Follower, NOBODY;
        Persist();
        return;
      }
      if r.success {
        var newMatch := a.prevIndex;
        if |a.entries| > 0 {
          newMatch := a.prevIndex + |a.entries|;
        }
        if newMatch > matchIndex[peer] {
          matchIndex[peer] := newMatch;
        }
        nextIndex[peer] := newMatch + 1;
        assert matchIndex[..] == old(matchIndex[..])[peer := Max(old(matchIndex[peer]), newMatch)];
        assert nextIndex[..] == old(nextIndex[..])[peer := newMatch + 1];
        AdvanceCommitIndex();
        return;
      }
      BackUpNext(peer, r);
    }

    /** The last part of `processAppendEntriesReply`: the fast back-up rule. */
    method BackUpNext(peer: nat, r: AppendReply)
      requires Valid() && peer < peers
      modifies nextIndex
      ensures State() == old(State()).(nextIndex := old(nextIndex[..])[peer := BackUp(log, r)])
    {
      if r.xTerm == -1 {
        nextIndex[peer] := r.xLen;
      } else {
        var newNext := r.xIndex;
        var i := if |log| == 0 then 0 else |log| - 1;
        ghost var from := i;
        while i >= 1
          invariant 0 <= i <= from && (i < |log| || i == 0)
          invariant LastOffset(log, r.xTerm, i) == LastOffset(log, r.xTerm, from)
          invariant newNext == r.xIndex
        {
          if log[i].term == r.xTerm {
            newNext := i + 1;
            break;
          }
          i := i - 1;
        }
        nextIndex[peer] := newNext;
      }
      if nextIndex[peer] < 1 {
        nextIndex[peer] := 1;
      }
      assert nextIndex[..] == old(nextIndex[..])[peer := BackUp(log, r)];
    }

    /** What is sent to one peer. */
    method RequestFor(peer: nat) returns (out: Outgoing)
      requires Valid() && peer < peers && peer != me
      requires 1 <= nextIndex[peer] <= snapIndex + |log| + 1
      ensures nextIndex[peer] <= snapIndex ==> out == Install
      ensures nextIndex[peer] > snapIndex ==> InRange(State(), peer) && out == Append(AppendFor(State(), peer))
    {
      ghost var s := State();
      var next := nextIndex[peer];
      if next <= snapIndex {
        out := Install;
      } else {
        assert s.nextIndex[peer] == next;
        var prevIdx := next - 1;
        var prevTerm := snapTerm;
        if prevIdx > snapIndex {
          prevTerm := log[prevIdx - snapIndex - 1].term;
        }
        assert prevTerm == s.TermOf(prevIdx);
        out := Append(AppendArgs(currentTerm, prevIdx, prevTerm, log[next - snapIndex - 1..], commitIndex));
      }
    }

    /** The loop of `Start` and of `ticker`; neither looks at the role here. The bounds on `nextIndex` hold
        in every reachable state of a leader (`RaftTheorems.LeaderIndexSafety`), but not of a server that
        just stopped leading (`RaftCounterexample.StaleBroadcast`). */
    method Broadcast() returns (out: seq<Outgoing>)
      requires Valid()
      requires forall p :: 0 <= p < peers ==> 1 <= nextIndex[p] <= snapIndex + |log| + 1
      ensures IsBroadcast(State(), out)
    {
      out := [];
      var p := 0;
      while p < peers
        invariant 0 <= p <= peers && |out| == p
        invariant forall q :: 0 <= q < p ==>
                    if q == me then out[q] == Skip
                    else if nextIndex[q] <= snapIndex then out[q] == Install
                    else InRange(State(), q) && out[q] == Append(AppendFor(State(), q))
      {
        if p == me {
          out := out + [Skip];
        } else {
          var o := RequestFor(p);
          out := out + [o];
        }
        p := p + 1;
      }
    }

    method Start(command: Command) returns (index: int, term: nat, isLeader: bool, out: seq<Outgoing>)
      requires Valid()
      requires role == Leader ==> forall p :: 0 <= p < peers ==> 1 <= nextIndex[p] <= snapIndex + |log| + 1
      modifies this, matchIndex
      ensures State() == OnStart(old(State()), command)
      ensures isLeader == old(role == Leader) && term == currentTerm
      ensures index == if isLeader then State().LastIndex() else -1
      ensures if isLeader then IsBroadcast(State(), out) else out == []
    {
      if role != Leader {
        return -1, currentTerm, false, [];
      }
      log := log + [Entry(currentTerm, command)];
      var last := LastLogIndex();
      matchIndex[me] := last;
      assert matchIndex[..] == old(matchIndex[..])[me := last];
      out := Broadcast();
      Persist();
      return last, currentTerm, true, out;
    }

    // ---------------------------------------------------------------- snapshots

    /** The first region of `handleSendInstallSnapshot`: look at the role and the snapshot point again. */
    method SnapshotRequest() returns (call: SnapCall)
      requires Valid()
      ensures call == if role == Leader then Call(SnapshotFor(State())) else NoCall
    {
      if role != Leader {
        return NoCall;
      }
      call := Call(SnapArgs(currentTerm, me, snapIndex, snapTerm));
    }

    method InstallSnapshot(a: SnapArgs) returns (r: SnapReply)
      requires Valid()
      modifies this
      ensures State() == OnInstall(old(State()), a).0 && r == OnInstall(old(State()), a).1
    {
      r := SnapReply(currentTerm);
      if a.term < currentTerm {
        return;
      }
      Follow(a.term);
      if a.lastIndex <= snapIndex {
        return;
      }
      snapIndex, snapTerm := a.lastIndex, a.lastTerm;
      if lastApplied < a.lastIndex {
        lastApplied := a.lastIndex;
      }
      if commitIndex < a.lastIndex {
        commitIndex := a.lastIndex;
      }
      r := SnapReply(currentTerm);
      log := [];
      Persist();
    }

    method HandleInstallReply(peer: nat, a: SnapArgs, r: SnapReply)
      requires Valid() && peer < peers
      modifies this, nextIndex, matchIndex
      ensures State() == OnInstallReply(old(State()), peer, a, r)
    {
      if currentTerm != a.term || role != Leader {
        return;
      }
      if r.term > currentTerm {
        currentTerm, role, votedFor := r.term, Follower, NOBODY;
        Persist();
        return;
      }
      if r.term < currentTerm {
        return;
      }
      if a.lastIndex > matchIndex[peer] {
        matchIndex[peer] := a.lastIndex;
      }
      if nextIndex[peer] < a.lastIndex + 1 {
        nextIndex[peer] := a.lastIndex + 1;
      }
      assert matchIndex[..] == old(matchIndex[..])[peer := Max(old(matchIndex[peer]), a.lastIndex)];
      assert nextIndex[..] == old(nextIndex[..])[peer := Max(old(nextIndex[peer]), a.lastIndex + 1)];
      AdvanceCommitIndex();
      Persist();
    }

    /** `Snapshot`. The source slices the log at an `index` that was applied, which panics beyond its end. */
    method Snapshot(index: nat)
      requires Valid() && SnapshotInRange(State(), index)
      modifies this
      ensures State() == OnSnapshot(old(State()), index)
    {
      if index > lastApplied || index <= snapIndex {
        return;
      }
      var cut := index - snapIndex;
      snapIndex := index;
      snapTerm := log[cut - 1].term;
      log := log[cut..];
      Persist();
    }

    /** One turn of `BackgroundApplyRoutine`. Reading the entry panics when it is not in the log. */
    method ApplyNext() returns (index: nat, command: Command)
      requires Valid() && WantsApply(State()) && ApplyInRange(State())
      modifies this
      ensures State() == OnApply(old(State()))
      ensures index == old(lastApplied) + 1 && command == NextApplied(old(State()))
    {
      lastApplied := lastApplied + 1;
      index := lastApplied;
      command := log[index - snapIndex - 1].command;
    }
  }
}
