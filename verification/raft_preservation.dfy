/** Every step of the cluster keeps the invariant. */
module RaftPreservation {
  import opened Collections
  import opened RaftTypes
  import opened RaftSteps
  import opened RaftCluster
  import opened RaftInvariant

  // ---------------------------------------------------------------- framing

  /** Only server `i` moved: what is left to prove is about it, the new history and new messages. */
  lemma Framed(c: Cluster, c': Cluster, i: nat)
    requires Inv(c) && i < |c.servers|
    requires |c'.servers| == |c.servers| == |c'.vlogs| == |c'.tallies|
    requires forall j: nat :: j < |c.servers| && j != i ==>
               c'.servers[j] == c.servers[j] && c'.vlogs[j] == c.vlogs[j] && c'.tallies[j] == c.tallies[j]
    requires c.answered <= c'.answered
    requires Grows(c.history, c'.history, i)
    requires HistoryOK(|c.servers|, c'.history)
    requires ServerOK(|c.servers|, c'.history, i, c'.servers[i], c'.vlogs[i], c'.tallies[i], c'.answered)
    requires forall m :: m in c'.net ==> m in c.net || MsgOK(|c.servers|, c'.history, m)
    ensures Inv(c')
  {
    var n := |c.servers|;
    forall j: nat | j < n
      ensures ServerOK(n, c'.history, j, c'.servers[j], c'.vlogs[j], c'.tallies[j], c'.answered)
    {
      if j != i {
        assert ServerOK(n, c.history, j, c.servers[j], c.vlogs[j], c.tallies[j], c.answered);
        GrowsServerOK(n, c.history, c'.history, i, j, c.servers[j], c.vlogs[j], c.tallies[j], c.answered, c'.answered);
      }
    }
    forall m | m in c'.net ensures MsgOK(n, c'.history, m) {
      if m in c.net { GrowsMsgOK(n, c.history, c'.history, i, m); }
    }
  }

  /** What history already recorded stays in order while it grows. */
  lemma OldHistoryOK(n: nat, h: History, h': History, i: nat)
    requires Grows(h, h', i) && HistoryOK(n, h)
    ensures forall t :: t in h.reigns && h'.reigns[t] == h.reigns[t] ==> ReignOK(n, h', t)
    ensures forall slot :: slot in h.ballots ==> BallotOK(n, h', slot)
    ensures forall slot :: slot in h.bids ==> BidOK(h', slot)
    ensures forall a :: a in h.acks ==> AckOK(n, h', a)
  {
    forall t | t in h.reigns && h'.reigns[t] == h.reigns[t] ensures ReignOK(n, h', t) {
      assert ReignOK(n, h, t);
      GrowsLogOK(h, h', i, h.reigns[t].log);
    }
    forall slot | slot in h.ballots ensures BallotOK(n, h', slot) {
      assert BallotOK(n, h, slot);
      GrowsLogOK(h, h', i, h.ballots[slot].log);
    }
    forall slot | slot in h.bids ensures BidOK(h', slot) {
      assert BidOK(h, slot);
      GrowsLogOK(h, h', i, h.bids[slot]);
    }
    forall a | a in h.acks ensures AckOK(n, h', a) {
      assert AckOK(n, h, a);
    }
  }

  // ---------------------------------------------------------------- the five ways history grows

  lemma BidRecorded(n: nat, h: History, i: nat, term: nat, log: seq<Entry>)
    requires HistoryOK(n, h) && i < n && term >= 1 && LogOK(h, log) && TermsWithin(log, 1, term - 1)
    requires Slot(i, term) !in h.bids && Slot(i, term) !in h.ballots
    ensures HistoryOK(n, RecordBid(h, i, term, log)) && Grows(h, RecordBid(h, i, term, log), i)
  {
    hide LogOK, ReignOK, AckOK, TermsWithin, BallotOK, BidOK;
    var h' := RecordBid(h, i, term, log);
    OldHistoryOK(n, h, h', i);
    NewBidOK(n, h, h', i, term, log);
  }

  lemma NewBidOK(n: nat, h: History, h': History, i: nat, term: nat, log: seq<Entry>)
    requires Grows(h, h', i) && i < n && term >= 1 && LogOK(h, log) && TermsWithin(log, 1, term - 1)
    requires Slot(i, term) in h'.bids && h'.bids[Slot(i, term)] == log
    requires Slot(i, term) in h'.ballots && h'.ballots[Slot(i, term)] == Ballot(i, log)
    ensures BallotOK(n, h', Slot(i, term)) && BidOK(h', Slot(i, term))
  {
    GrowsLogOK(h, h', i, log);
  }

  lemma VoteRecorded(n: nat, h: History, i: nat, term: nat, candidate: nat, log: seq<Entry>)
    requires HistoryOK(n, h) && i < n && candidate < n && LogOK(h, log)
    requires Slot(candidate, term) in h.bids
    requires var bid := h.bids[Slot(candidate, term)];
             UpToDate(TermAt(bid, |bid|), |bid|, TermAt(log, |log|), |log|)
    ensures HistoryOK(n, RecordVote(h, i, term, candidate, log)) && Grows(h, RecordVote(h, i, term, candidate, log), i)
  {
    hide LogOK, ReignOK, BidOK, AckOK;
    var h' := RecordVote(h, i, term, candidate, log);
    OldHistoryOK(n, h, h', i);
    GrowsLogOK(h, h', i, log);
  }

  lemma ReignRecorded(n: nat, h: History, i: nat, term: nat, log: seq<Entry>, quorum: set<nat>)
    requires HistoryOK(n, h) && i < n && term !in h.reigns
    requires Slot(i, term) in h.bids && h.bids[Slot(i, term)] == log
    requires Within(quorum, n) && |quorum| > n / 2 && Votes(h, quorum, term, i)
    ensures HistoryOK(n, RecordReign(h, i, term, log, quorum)) && Grows(h, RecordReign(h, i, term, log, quorum), i)
  {
    hide ReignOK, LogOK, BallotOK, BidOK;
    var h' := RecordReign(h, i, term, log, quorum);
    OldHistoryOK(n, h, h', i);
    NewReignOK(n, h', i, term, log, quorum);
  }

  lemma NewReignOK(n: nat, h: History, i: nat, term: nat, log: seq<Entry>, quorum: set<nat>)
    requires i < n && Slot(i, term) in h.bids && h.bids[Slot(i, term)] == log && BidOK(h, Slot(i, term))
    requires Within(quorum, n) && |quorum| > n / 2 && Votes(h, quorum, term, i)
    requires term in h.reigns && h.reigns[term] == Reign(i, log, log, quorum)
    ensures ReignOK(n, h, term)
  {
  }

  /** The reign of a leader that has just appended an entry. */
  lemma LongerReign(n: nat, h: History, h': History, i: nat, term: nat, e: Entry)
    requires Grows(h, h', i) && term in h.reigns && ReignOK(n, h, term) && e.term == term
    requires h'.reigns[term] == h.reigns[term].(log := h.reigns[term].log + [e])
    ensures ReignOK(n, h', term)
  {
    var log, log' := h.reigns[term].log, h'.reigns[term].log;
    GrowsLogOK(h, h', i, log);
    assert EntryOK(h', log', |log|);
    ExtendLogOK(h', log, log');
  }

  lemma EntryRecorded(n: nat, h: History, i: nat, term: nat, e: Entry)
    requires HistoryOK(n, h) && i < n && term in h.reigns && h.reigns[term].leader == i && e.term == term
    ensures HistoryOK(n, RecordEntry(h, i, term, e)) && Grows(h, RecordEntry(h, i, term, e), i)
  {
    hide LogOK, ReignOK, BallotOK, BidOK;
    var h' := RecordEntry(h, i, term, e);
    assert Grows(h, h', i);
    OldHistoryOK(n, h, h', i);
    LongerReign(n, h, h', i, term, e);
  }

  lemma AckRecorded(n: nat, h: History, i: nat, term: nat, length: nat)
    requires HistoryOK(n, h) && i < n && term in h.reigns && length <= |h.reigns[term].log|
    ensures HistoryOK(n, RecordAck(h, i, term, length)) && Grows(h, RecordAck(h, i, term, length), i)
  {
    hide ReignOK, BallotOK, BidOK;
    OldHistoryOK(n, h, RecordAck(h, i, term, length), i);
  }

  lemma SameHistory(h: History, i: nat)
    ensures Grows(h, h, i)
  {
  }

  // ---------------------------------------------------------------- elections

  /** Reading the last index and term off the real log or off the virtual log is the same. */
  lemma LastOfVirtual(s: Server, vlog: seq<Entry>)
    requires Retained(s, vlog)
    ensures s.LastIndex() == |vlog| && s.LastTerm() == TermAt(vlog, |vlog|)
  {
  }

  lemma TimeoutServerOK(n: nat, h: History, i: nat, s: Server, v: seq<Entry>, tally: set<nat>, answered: set<VoteCall>)
    requires HistoryOK(n, h) && ServerOK(n, h, i, s, v, tally, answered)
    ensures var (s', a) := OnTimeout(s);
            var h' := RecordBid(h, i, s'.currentTerm, v);
            && HistoryOK(n, h') && Grows(h, h', i)
            && ServerOK(n, h', i, s', v, {i}, answered)
            && forall p: nat :: p < n && p != i ==> VoteReqOK(n, h', i, p, a)
  {
    hide HistoryOK, LogOK;
    LastOfVirtual(s, v);
    var s' := OnTimeout(s).0;
    var h' := RecordBid(h, i, s'.currentTerm, v);
    BidRecorded(n, h, i, s'.currentTerm, v);
    GrowsLogOK(h, h', i, v);
  }

  lemma TimeoutKeepsInv(c: Cluster, i: nat)
    requires Inv(c) && Enabled(c, Timeout(i))
    ensures Inv(DoTimeout(c, i)) && Grows(c.history, DoTimeout(c, i).history, i)
  {
    hide ServerOK, HistoryOK, Grows, OnTimeout, OnRequestVote, OnVoteReply;
    TimeoutServerOK(|c.servers|, c.history, i, c.servers[i], c.vlogs[i], c.tallies[i], c.answered);
    Framed(c, DoTimeout(c, i), i);
  }

  lemma VotingHistoryOK(n: nat, h: History, i: nat, s: Server, v: seq<Entry>, src: nat, a: VoteArgs)
    requires HistoryOK(n, h) && Retained(s, v) && LogOK(h, v) && VoteReqOK(n, h, src, i, a)
    requires VoteOK(n, h, s) && s.me == i
    requires OnRequestVote(s, a).1.granted
    ensures var h' := RecordVote(h, i, a.term, a.candidate, v);
            HistoryOK(n, h') && Grows(h, h', i)
  {
    hide LogOK, HistoryOK;
    LastOfVirtual(s, v);
    VoteRecorded(n, h, i, a.term, a.candidate, v);
  }

  lemma GrantingServerOK(n: nat, h: History, i: nat, s: Server, v: seq<Entry>, tally: set<nat>,
                         answered: set<VoteCall>, src: nat, a: VoteArgs)
    requires ServerOK(n, h, i, s, v, tally, answered) && VoteReqOK(n, h, src, i, a)
    requires OnRequestVote(s, a).1.granted && Grows(h, RecordVote(h, i, a.term, a.candidate, v), i)
    ensures var (s', r) := OnRequestVote(s, a);
            var h' := RecordVote(h, i, a.term, a.candidate, v);
            ServerOK(n, h', i, s', v, tally, answered) && MsgOK(n, h', VoteRep(src, i, a, r))
  {
    hide LogOK, TermsWithin, VoteOK, NotAhead, CandidateOK, LeaderOK;
    GrowsLogOK(h, RecordVote(h, i, a.term, a.candidate, v), i, v);
    GrantedVoteOK(n, h, s, a, v);
    GrantedRoleOK(n, h, s, a, v, tally, answered);
    TermsStayWithin(v, s.currentTerm, a.term);
    assert h.bids == RecordVote(h, i, a.term, a.candidate, v).bids;
    VotedFor(n, h, s, a, v);
  }

  lemma TermsStayWithin(v: seq<Entry>, hi: nat, hi': nat)
    requires TermsWithin(v, 1, hi) && hi <= hi'
    ensures TermsWithin(v, 1, hi')
  {
  }

  /** The vote that was cast is the ballot of its term. */
  lemma GrantedVoteOK(n: nat, h: History, s: Server, a: VoteArgs, v: seq<Entry>)
    requires VoteOK(n, h, s) && NotAhead(h, s) && OnRequestVote(s, a).1.granted
    ensures var h' := RecordVote(h, s.me, a.term, a.candidate, v);
            VoteOK(n, h', OnRequestVote(s, a).0) && NotAhead(h', OnRequestVote(s, a).0)
  {
  }

  /** Whoever votes in its own term keeps its office. */
  lemma GrantedRoleOK(n: nat, h: History, s: Server, a: VoteArgs, v: seq<Entry>, tally: set<nat>,
                      answered: set<VoteCall>)
    requires OnRequestVote(s, a).1.granted
    requires s.role == Candidate ==> CandidateOK(n, h, s, v, tally, answered)
    requires s.role == Leader ==> LeaderOK(n, h, s, v)
    ensures var h', s' := RecordVote(h, s.me, a.term, a.candidate, v), OnRequestVote(s, a).0;
            && (s'.role == Candidate ==> CandidateOK(n, h', s', v, tally, answered))
            && (s'.role == Leader ==> LeaderOK(n, h', s', v))
  {
  }

  lemma VotedFor(n: nat, h: History, s: Server, a: VoteArgs, v: seq<Entry>)
    requires VoteOK(n, h, s) && NotAhead(h, s) && OnRequestVote(s, a).1.granted
    ensures Votes(RecordVote(h, s.me, a.term, a.candidate, v), {s.me}, a.term, a.candidate)
  {
  }

  lemma DenyingServerOK(n: nat, h: History, i: nat, s: Server, v: seq<Entry>, tally: set<nat>, answered: set<VoteCall>,
                        src: nat, a: VoteArgs)
    requires ServerOK(n, h, i, s, v, tally, answered) && VoteReqOK(n, h, src, i, a)
    requires !OnRequestVote(s, a).1.granted
    ensures var (s', r) := OnRequestVote(s, a);
            ServerOK(n, h, i, s', v, tally, answered) && MsgOK(n, h, VoteRep(src, i, a, r))
  {
    hide LogOK;
  }

  lemma VotingServer(n: nat, h: History, i: nat, s: Server, v: seq<Entry>, tally: set<nat>, answered: set<VoteCall>)
    requires ServerOK(n, h, i, s, v, tally, answered)
    ensures Retained(s, v) && LogOK(h, v) && VoteOK(n, h, s) && s.me == i
  {
  }

  lemma VoteKeepsInv(c: Cluster, m: Msg)
    requires Inv(c) && Enabled(c, HandleVote(m))
    ensures Inv(DoVote(c, m)) && Grows(c.history, DoVote(c, m).history, m.dst)
  {
    hide ServerOK, HistoryOK, Grows, OnTimeout, OnRequestVote, OnVoteReply;
    assert MsgOK(|c.servers|, c.history, m);
    var n, h, i := |c.servers|, c.history, m.dst;
    var s, v := c.servers[i], c.vlogs[i];
    SameHistory(h, i);
    if OnRequestVote(s, m.va).1.granted {
      VotingServer(n, h, i, s, v, c.tallies[i], c.answered);
      VotingHistoryOK(n, h, i, s, v, m.src, m.va);
      GrantingServerOK(n, h, i, s, v, c.tallies[i], c.answered, m.src, m.va);
    } else {
      DenyingServerOK(n, h, i, s, v, c.tallies[i], c.answered, m.src, m.va);
    }
    Framed(c, DoVote(c, m), m.dst);
  }

  ghost function Below(n: nat): (all: set<nat>)
    ensures |all| == n && forall k: nat :: k in all <==> k < n
  {
    if n == 0 then {} else Below(n - 1) + {n - 1}
  }

  /** Two sets of voters, each more than half, share one. */
  lemma QuorumsMeet(n: nat, a: set<nat>, b: set<nat>)
    requires Within(a, n) && Within(b, n) && |a| > n / 2 && |b| > n / 2
    ensures exists v :: v in a && v in b
  {
    SubsetSize(a + b, Below(n));
    assert |a + b| == |a| + |b| - |a * b|;
    if a * b != {} {
      var v :| v in a * b;
      assert v in a && v in b;
    }
  }

  /** A candidate with a majority behind it is the first in its term: the heart of Election Safety. */
  lemma FirstLeader(n: nat, h: History, s: Server, quorum: set<nat>)
    requires HistoryOK(n, h) && NotAhead(h, s) && s.role == Candidate
    requires Within(quorum, n) && |quorum| > n / 2 && Votes(h, quorum, s.currentTerm, s.me)
    ensures s.currentTerm !in h.reigns
  {
    if s.currentTerm in h.reigns {
      assert ReignOK(n, h, s.currentTerm);
      QuorumsMeet(n, quorum, h.reigns[s.currentTerm].quorum);
      assert false;
    }
  }

  /** A reply that is not counted, or not yet the decisive one. */
  lemma TallyServerOK(n: nat, h: History, i: nat, s: Server, v: seq<Entry>, tally: set<nat>, answered: set<VoteCall>,
                      m: Msg)
    requires HistoryOK(n, h) && ServerOK(n, h, i, s, v, tally, answered)
    requires m.VoteRep? && m.src == i && MsgOK(n, h, m) && VoteCall(i, m.dst, m.va.term) !in answered
    requires OnVoteReply(s, m.va.term, m.vr).role == Leader ==> s.role == Leader
    ensures var s' := OnVoteReply(s, m.va.term, m.vr);
            var tally' := if Counts(s, m) then tally + {m.dst} else tally;
            ServerOK(n, h, i, s', v, tally', answered + {VoteCall(i, m.dst, m.va.term)})
  {
    hide HistoryOK, LogOK;
    assert m.dst in {m.dst};
  }

  /** The decisive reply: the candidate becomes the first leader of its term. */
  lemma ElectedHistoryOK(n: nat, h: History, i: nat, s: Server, v: seq<Entry>, tally: set<nat>, answered: set<VoteCall>,
                         m: Msg)
    requires HistoryOK(n, h) && ServerOK(n, h, i, s, v, tally, answered)
    requires m.VoteRep? && m.src == i && MsgOK(n, h, m) && VoteCall(i, m.dst, m.va.term) !in answered
    requires s.role != Leader && OnVoteReply(s, m.va.term, m.vr).role == Leader
    ensures var h' := RecordReign(h, i, s.currentTerm, v, tally + {m.dst});
            && Counts(s, m) && s.currentTerm !in h.reigns
            && OnVoteReply(s, m.va.term, m.vr).currentTerm == s.currentTerm
            && HistoryOK(n, h') && Grows(h, h', i)
  {
    hide LogOK, TermsWithin;
    assert m.dst in {m.dst};
    var quorum := tally + {m.dst};
    assert Votes(h, quorum, s.currentTerm, i);
    FirstLeader(n, h, s, quorum);
    assert BidOK(h, Slot(i, s.currentTerm));
    ReignRecorded(n, h, i, s.currentTerm, v, quorum);
  }

  lemma ElectedServerOK(n: nat, h: History, i: nat, s: Server, v: seq<Entry>, tally: set<nat>, answered: set<VoteCall>,
                        m: Msg)
    requires ServerOK(n, h, i, s, v, tally, answered)
    requires m.VoteRep? && m.src == i && Counts(s, m)
    requires OnVoteReply(s, m.va.term, m.vr).role == Leader
    requires Grows(h, RecordReign(h, i, s.currentTerm, v, tally + {m.dst}), i)
    ensures var h' := RecordReign(h, i, s.currentTerm, v, tally + {m.dst});
            ServerOK(n, h', i, OnVoteReply(s, m.va.term, m.vr), v, tally + {m.dst},
              answered + {VoteCall(i, m.dst, m.va.term)})
  {
    hide LogOK, TermsWithin;
    LastOfVirtual(s, v);
    GrowsLogOK(h, RecordReign(h, i, s.currentTerm, v, tally + {m.dst}), i, v);
  }

  lemma VoteReplyKeepsInv(c: Cluster, m: Msg)
    requires Inv(c) && Enabled(c, HandleVoteReply(m))
    ensures Inv(DoVoteReply(c, m)) && Grows(c.history, DoVoteReply(c, m).history, m.src)
  {
    hide ServerOK, HistoryOK, Grows, OnTimeout, OnRequestVote, OnVoteReply;
    var n, h, i := |c.servers|, c.history, m.src;
    var s := c.servers[i];
    assert MsgOK(n, h, m);
    if s.role != Leader && OnVoteReply(s, m.va.term, m.vr).role == Leader {
      ElectedHistoryOK(n, h, i, s, c.vlogs[i], c.tallies[i], c.answered, m);
      ElectedServerOK(n, h, i, s, c.vlogs[i], c.tallies[i], c.answered, m);
    } else {
      SameHistory(h, i);
      TallyServerOK(n, h, i, s, c.vlogs[i], c.tallies[i], c.answered, m);
    }
    Framed(c, DoVoteReply(c, m), i);
  }

  // ---------------------------------------------------------------- replication

  lemma TermOfVirtual(s: Server, v: seq<Entry>, index: nat)
    requires Retained(s, v) && s.snapIndex <= index <= s.LastIndex()
    ensures s.TermOf(index) == TermAt(v, index)
  {
  }

  /** A follower that passes the consistency check holds the leader's log up to the point checked. */
  lemma MatchedPrefix(n: nat, h: History, s: Server, v: seq<Entry>, src: nat, a: AppendArgs, full: seq<Entry>)
    requires HistoryOK(n, h) && LogOK(h, v) && Retained(s, v)
    requires AppendReqOK(n, h, src, s.me, a, full) && Matches(s, a)
    ensures Agree(v, full, a.prevIndex)
  {
    if a.prevIndex > 0 {
      TermOfVirtual(s, v, a.prevIndex);
      assert ReignOK(n, h, a.term);
      PrefixLogOK(h, full, h.reigns[a.term].log);
      MatchingTerms(h, v, full, a.prevIndex - 1);
    }
  }

  /** An accepted append leaves the follower with exactly the sender's whole log. */
  lemma SplicedIsFull(n: nat, h: History, s: Server, v: seq<Entry>, src: nat, a: AppendArgs, full: seq<Entry>)
    requires HistoryOK(n, h) && LogOK(h, v) && Retained(s, v)
    requires AppendReqOK(n, h, src, s.me, a, full) && Matches(s, a)
    ensures v[..s.snapIndex] + Spliced(s, a) == full
    ensures Spliced(s, a) == full[s.snapIndex..]
    ensures s.snapTerm == TermAt(full, s.snapIndex)
  {
    hide LogOK, HistoryOK, Agree;
    MatchedPrefix(n, h, s, v, src, a, full);
    Respliced(v, s.snapIndex, a.prevIndex, full);
  }

  /** A log cut at `snap`, kept up to `prev` and continued with the rest of one that agrees so far. */
  lemma Respliced(v: seq<Entry>, snap: nat, prev: nat, full: seq<Entry>)
    requires snap <= prev && Agree(v, full, prev)
    ensures v[snap..][..prev - snap] + full[prev..] == full[snap..]
    ensures v[..snap] + full[snap..] == full && TermAt(v, snap) == TermAt(full, snap)
  {
    assert v[..prev] == full[..prev];
    assert v[snap..][..prev - snap] == v[..prev][snap..];
    assert full[..prev][snap..] + full[prev..] == full[snap..];
    assert v[..snap] == v[..prev][..snap];
  }

  /** `s'` is `s` as a follower, in the same term with the same vote or in a later term with none. */
  ghost predicate Yields(s: Server, s': Server) {
    && s'.role == Follower && s'.me == s.me && s'.peers == s.peers
    && s'.nextIndex == s.nextIndex && s'.matchIndex == s.matchIndex
    && s'.InSync() && s'.snapIndex <= s'.lastApplied <= s'.commitIndex
    && if s'.currentTerm == s.currentTerm then s'.votedFor == s.votedFor
       else s'.currentTerm > s.currentTerm && s'.votedFor == NOBODY
  }

  lemma YieldingServerOK(n: nat, h: History, h': History, i: nat, s: Server, s': Server, v: seq<Entry>, v': seq<Entry>,
                         tally: set<nat>, answered: set<VoteCall>)
    requires ServerOK(n, h, i, s, v, tally, answered) && Yields(s, s')
    requires Retained(s', v') && LogOK(h, v') && TermsWithin(v', 1, s'.currentTerm)
    requires h' == h.(acks := h'.acks) && Grows(h, h', i)
    requires forall a :: a in h'.acks && a !in h.acks ==> a.term <= s'.currentTerm
    ensures ServerOK(n, h', i, s', v', tally, answered)
  {
    hide LogOK, TermsWithin, Retained;
    GrowsLogOK(h, h', i, v');
  }

  lemma AcceptedFields(s: Server, a: AppendArgs)
    requires s.InSync() && s.snapIndex <= s.lastApplied <= s.commitIndex
    requires a.term >= s.currentTerm && Matches(s, a)
    ensures var (s', r) := OnAppend(s, a);
            && r.success && Yields(s, s') && s'.currentTerm == a.term
            && s'.snapIndex == s.snapIndex && s'.snapTerm == s.snapTerm && s'.log == Spliced(s, a)
  {
  }

  /** A log that is part of a leader's log. */
  lemma SentLogOK(n: nat, h: History, t: nat, full: seq<Entry>)
    requires HistoryOK(n, h) && t in h.reigns && IsPrefix(full, h.reigns[t].log)
    ensures LogOK(h, full) && TermsWithin(full, 1, t)
  {
    hide LogOK;
    assert ReignOK(n, h, t);
    PrefixLogOK(h, full, h.reigns[t].log);
    ReignTerms(n, h, t);
  }

  lemma AcceptedServerOK(n: nat, h: History, i: nat, s: Server, v: seq<Entry>, tally: set<nat>, answered: set<VoteCall>,
                         src: nat, a: AppendArgs, full: seq<Entry>)
    requires HistoryOK(n, h) && ServerOK(n, h, i, s, v, tally, answered) && AppendReqOK(n, h, src, i, a, full)
    requires a.term >= s.currentTerm && Matches(s, a)
    ensures var (s', r) := OnAppend(s, a);
            var h' := RecordAck(h, i, a.term, |full|);
            && r.success && Restored(v, s') == full
            && ServerOK(n, h', i, s', full, tally, answered)
  {
    hide LogOK, OnAppend, HistoryOK, ReignOK, TermsWithin, VoteOK, NotAhead, CandidateOK, LeaderOK;
    var h', s' := RecordAck(h, i, a.term, |full|), OnAppend(s, a).0;
    AcceptedFields(s, a);
    SplicedIsFull(n, h, s, v, src, a, full);
    AckInReign(n, h, src, i, a, full);
    AckRecorded(n, h, i, a.term, |full|);
    SentLogOK(n, h, a.term, full);
    YieldingServerOK(n, h, h', i, s, s', v, full, tally, answered);
  }

  /** The entries a leader holds have terms between 1 and its own. */
  lemma ReignTerms(n: nat, h: History, t: nat)
    requires t in h.reigns && ReignOK(n, h, t)
    ensures TermsWithin(h.reigns[t].log, 1, t)
  {
    var r := h.reigns[t];
    forall k | 0 <= k < |r.log| ensures 1 <= r.log[k].term <= t {
      if k < |r.base| { assert r.base[k] == r.log[k]; }
    }
  }

  lemma HintIsOK(n: nat, h: History, s: Server, v: seq<Entry>, src: nat, a: AppendArgs, full: seq<Entry>, term: nat)
    requires LogOK(h, v) && TermsWithin(v, 1, s.currentTerm) && Retained(s, v)
    requires AppendReqOK(n, h, src, s.me, a, full) && !Matches(s, a)
    ensures HintOK(h, a, Rejection(s, a, term))
  {
    if s.snapIndex < a.prevIndex <= s.LastIndex() {
      TermOfVirtual(s, v, a.prevIndex);
      assert EntryOK(h, v, a.prevIndex - 1);
    }
  }

  lemma RefusedFields(s: Server, a: AppendArgs)
    requires s.InSync() && s.snapIndex <= s.lastApplied <= s.commitIndex
    requires a.term < s.currentTerm || !Matches(s, a)
    ensures var (s', r) := OnAppend(s, a);
            && !r.success && s'.snapIndex == s.snapIndex && s'.snapTerm == s.snapTerm && s'.log == s.log
            && s'.commitIndex == s.commitIndex
            && if a.term < s.currentTerm then s' == s && r == AppendReply(s.currentTerm, false, 0, 0, 0)
               else Yields(s, s') && s'.currentTerm == a.term && !Matches(s', a) && r == Rejection(s', a, s.currentTerm)
  {
    hide RunStart;
  }

  lemma RefusedServerOK(n: nat, h: History, i: nat, s: Server, v: seq<Entry>, tally: set<nat>, answered: set<VoteCall>,
                        src: nat, a: AppendArgs, full: seq<Entry>)
    requires ServerOK(n, h, i, s, v, tally, answered) && AppendReqOK(n, h, src, i, a, full)
    requires a.term < s.currentTerm || !Matches(s, a)
    ensures var (s', r) := OnAppend(s, a);
            && !r.success && Restored(v, s') == v && HintOK(h, a, r)
            && ServerOK(n, h, i, s', v, tally, answered)
  {
    hide LogOK, VoteOK, NotAhead, CandidateOK, LeaderOK, OnAppend, Matches, Rejection;
    RefusedFields(s, a);
    assert v[..s.snapIndex] + s.log == v;
    if a.term >= s.currentTerm {
      var s' := OnAppend(s, a).0;
      HintIsOK(n, h, s', v, src, a, full, s.currentTerm);
      SameHistory(h, i);
      YieldingServerOK(n, h, h, i, s, s', v, v, tally, answered);
    }
  }

  lemma AppendKeepsInv(c: Cluster, m: Msg)
    requires Inv(c) && Enabled(c, HandleAppend(m))
    ensures Inv(DoAppend(c, m)) && Grows(c.history, DoAppend(c, m).history, m.dst)
  {
    hide ServerOK, Grows, OnAppend, HintOK, AppendReqOK, ReignOK;
    var n, h, i := |c.servers|, c.history, m.dst;
    var s, v := c.servers[i], c.vlogs[i];
    assert MsgOK(n, h, m);
    var c' := DoAppend(c, m);
    if m.aa.term >= s.currentTerm && Matches(s, m.aa) {
      AckInReign(n, h, m.src, i, m.aa, m.full);
      AckRecorded(n, h, i, m.aa.term, |m.full|);
      AcceptedServerOK(n, h, i, s, v, c.tallies[i], c.answered, m.src, m.aa, m.full);
    } else {
      SameHistory(h, i);
      RefusedServerOK(n, h, i, s, v, c.tallies[i], c.answered, m.src, m.aa, m.full);
    }
    GrowsMsgOK(n, h, c'.history, i, m);
    Framed(c, c', i);
  }

  lemma AckInReign(n: nat, h: History, src: nat, dst: nat, a: AppendArgs, full: seq<Entry>)
    requires AppendReqOK(n, h, src, dst, a, full)
    ensures a.term in h.reigns && |full| <= |h.reigns[a.term].log| && dst < n
  {
  }

  /** Fast back-up makes progress: the next request starts below the one that was rejected. */
  lemma BackUpBounded(n: nat, h: History, s: Server, v: seq<Entry>, src: nat, dst: nat, a: AppendArgs, full: seq<Entry>,
                      r: AppendReply)
    requires LogOK(h, v) && TermsWithin(v, 1, s.currentTerm) && Retained(s, v)
    requires AppendReqOK(n, h, src, dst, a, full) && v == h.reigns[a.term].log
    requires HintOK(h, a, r) && r.term <= a.term
    ensures 1 <= BackUp(s.log, r) <= Max(1, a.prevIndex)
  {
    if |s.log| > 0 {
      var i := LastOffset(s.log, r.xTerm, |s.log| - 1);
      if r.xTerm >= 0 && i > 0 {
        assert v[s.snapIndex + i].term == r.xTerm;
        assert EntryOK(h, v, s.snapIndex + i);
      }
    }
  }

  lemma AppendReplyServerOK(n: nat, h: History, i: nat, s: Server, v: seq<Entry>, tally: set<nat>,
                            answered: set<VoteCall>,
                            dst: nat, a: AppendArgs, full: seq<Entry>, r: AppendReply)
    requires HistoryOK(n, h) && ServerOK(n, h, i, s, v, tally, answered)
    requires MsgOK(n, h, AppendRep(i, dst, a, full, r))
    ensures ServerOK(n, h, i, OnAppendReply(s, dst, a, r), v, tally, answered)
  {
    hide LogOK, HistoryOK, VoteOK, NotAhead, CandidateOK, LeaderOK, Retained, TermsWithin, CommitPoint, BackUp, HintOK;
    if s.currentTerm == a.term && s.role == Leader {
      if r.term > s.currentTerm {
        SteppedDownOK(n, h, i, s, r.term, v, tally, answered);
      } else {
        AppendReplyLeaderOK(n, h, i, s, v, dst, a, full, r);
        LeadingServerOK(n, h, i, s, OnAppendReply(s, dst, a, r), v, tally, answered);
      }
    }
  }

  lemma SteppedDownOK(n: nat, h: History, i: nat, s: Server, term: nat, v: seq<Entry>, tally: set<nat>,
                      answered: set<VoteCall>)
    requires ServerOK(n, h, i, s, v, tally, answered) && term > s.currentTerm
    ensures ServerOK(n, h, i, StepDown(s, term), v, tally, answered)
  {
    hide LogOK, CandidateOK, LeaderOK;
  }

  /** A leader that only moves its indices. */
  lemma LeadingServerOK(n: nat, h: History, i: nat, s: Server, s': Server, v: seq<Entry>, tally: set<nat>,
                        answered: set<VoteCall>)
    requires ServerOK(n, h, i, s, v, tally, answered) && s.role == Leader && s.commitIndex <= s'.commitIndex
    requires s' == s.(nextIndex := s'.nextIndex, matchIndex := s'.matchIndex, commitIndex := s'.commitIndex)
    requires |s'.nextIndex| == |s'.matchIndex| == n && LeaderOK(n, h, s', v)
    ensures ServerOK(n, h, i, s', v, tally, answered)
  {
    hide LogOK, CandidateOK, LeaderOK, TermsWithin;
  }

  /** What a leader makes of an append reply: only its indices move, and they stay in range. */
  lemma AppendReplyLeaderOK(n: nat, h: History, i: nat, s: Server, v: seq<Entry>, dst: nat, a: AppendArgs,
                            full: seq<Entry>, r: AppendReply)
    requires HistoryOK(n, h) && LogOK(h, v) && TermsWithin(v, 1, s.currentTerm) && Retained(s, v)
    requires LeaderOK(n, h, s, v) && |s.nextIndex| == |s.matchIndex| == n && s.me == i && s.role == Leader
    requires MsgOK(n, h, AppendRep(i, dst, a, full, r)) && s.currentTerm == a.term && r.term <= a.term
    ensures var s' := OnAppendReply(s, dst, a, r);
            && s.commitIndex <= s'.commitIndex && LeaderOK(n, h, s', v)
            && s' == s.(nextIndex := s'.nextIndex, matchIndex := s'.matchIndex, commitIndex := s'.commitIndex)
            && |s'.nextIndex| == |s'.matchIndex| == n
  {
    hide LogOK, HistoryOK, CommitPoint, TermsWithin, IndicesOK;
    if r.success {
      CountedIndices(n, h, s, v, dst, a, full, r);
    } else {
      BackUpBounded(n, h, s, v, i, dst, a, full, r);
      BackedUpIndices(s, v, dst, a, full, r);
    }
  }

  lemma CountedIndices(n: nat, h: History, s: Server, v: seq<Entry>, dst: nat, a: AppendArgs, full: seq<Entry>,
                       r: AppendReply)
    requires Retained(s, v) && LeaderOK(n, h, s, v) && |s.nextIndex| == |s.matchIndex| == n && s.role == Leader
    requires AppendReqOK(n, h, s.me, dst, a, full) && Ack(dst, a.term, |full|) in h.acks
    requires s.currentTerm == a.term && r.term <= a.term && r.success
    ensures var s' := OnAppendReply(s, dst, a, r);
            && IndicesOK(s')
            && forall p: nat :: p < |s'.matchIndex| && s'.matchIndex[p] > 0 ==>
                 Ack(p, s.currentTerm, s'.matchIndex[p]) in h.acks
  {
    hide LogOK, CommitPoint;
    LastOfVirtual(s, v);
  }

  lemma BackedUpIndices(s: Server, v: seq<Entry>, dst: nat, a: AppendArgs, full: seq<Entry>, r: AppendReply)
    requires Retained(s, v) && IndicesOK(s) && dst < |s.nextIndex| == |s.matchIndex| && s.role == Leader
    requires s.currentTerm == a.term && r.term <= a.term && !r.success
    requires a.prevIndex <= |full| <= |v| && 1 <= BackUp(s.log, r) <= Max(1, a.prevIndex)
    ensures IndicesOK(OnAppendReply(s, dst, a, r))
  {
    hide BackUp;
    LastOfVirtual(s, v);
  }

  lemma AppendReplyKeepsInv(c: Cluster, m: Msg)
    requires Inv(c) && Enabled(c, HandleAppendReply(m))
    ensures Inv(DoAppendReply(c, m)) && Grows(c.history, DoAppendReply(c, m).history, m.src)
  {
    hide ServerOK, HistoryOK, Grows, OnAppendReply;
    var i := m.src;
    SameHistory(c.history, i);
    AppendReplyServerOK(|c.servers|, c.history, i, c.servers[i], c.vlogs[i], c.tallies[i], c.answered, m.dst, m.aa,
      m.full, m.ar);
    Framed(c, DoAppendReply(c, m), i);
  }

  lemma StartServerOK(n: nat, h: History, i: nat, s: Server, v: seq<Entry>, tally: set<nat>, answered: set<VoteCall>,
                      e: Entry)
    requires HistoryOK(n, h) && ServerOK(n, h, i, s, v, tally, answered) && s.role == Leader && e.term == s.currentTerm
    requires Grows(h, RecordEntry(h, i, s.currentTerm, e), i)
    requires ReignOK(n, RecordEntry(h, i, s.currentTerm, e), s.currentTerm)
    ensures ServerOK(n, RecordEntry(h, i, s.currentTerm, e), i, OnStart(s, e.command), v + [e], tally, answered)
  {
    hide LogOK, HistoryOK, VoteOK, NotAhead, LeaderOK, TermsWithin;
    LeaderInReign(n, h, s, v);
    StartLeaderOK(n, h, s, v, e);
    StartNotAhead(n, h, s, v, e);
    assert (v + [e])[s.snapIndex..] == v[s.snapIndex..] + [e];
    OneMoreTerm(v, s.currentTerm, e);
  }

  lemma LeaderInReign(n: nat, h: History, s: Server, v: seq<Entry>)
    requires LeaderOK(n, h, s, v)
    ensures s.currentTerm in h.reigns && s.me < |s.matchIndex|
  {
  }

  lemma OneMoreTerm(v: seq<Entry>, term: nat, e: Entry)
    requires TermsWithin(v, 1, term) && e.term == term >= 1
    ensures TermsWithin(v + [e], 1, term)
  {
  }

  lemma StartLeaderOK(n: nat, h: History, s: Server, v: seq<Entry>, e: Entry)
    requires Retained(s, v) && LeaderOK(n, h, s, v) && s.role == Leader && e.term == s.currentTerm
    ensures s.me < |s.matchIndex|
    ensures LeaderOK(n, RecordEntry(h, s.me, s.currentTerm, e), OnStart(s, e.command), v + [e])
  {
    LastOfVirtual(s, v);
  }

  lemma StartNotAhead(n: nat, h: History, s: Server, v: seq<Entry>, e: Entry)
    requires VoteOK(n, h, s) && NotAhead(h, s) && s.role == Leader && s.currentTerm in h.reigns && s.me < |s.matchIndex|
    ensures var h', s' := RecordEntry(h, s.me, s.currentTerm, e), OnStart(s, e.command);
            VoteOK(n, h', s') && NotAhead(h', s')
  {
  }

  lemma LeaderReigns(n: nat, h: History, i: nat, s: Server, v: seq<Entry>, tally: set<nat>, answered: set<VoteCall>)
    requires ServerOK(n, h, i, s, v, tally, answered) && s.role == Leader
    ensures i < n && s.currentTerm in h.reigns && h.reigns[s.currentTerm].leader == i
    ensures h.reigns[s.currentTerm].log == v
  {
  }

  lemma StartKeepsInv(c: Cluster, i: nat, command: Command)
    requires Inv(c) && Enabled(c, Step.Start(i, command))
    ensures Inv(DoStart(c, i, command)) && Grows(c.history, DoStart(c, i, command).history, i)
  {
    hide ServerOK, Grows, OnStart, ReignOK;
    var n, h, s, v := |c.servers|, c.history, c.servers[i], c.vlogs[i];
    var e := Entry(s.currentTerm, command);
    LeaderReigns(n, h, i, s, v, c.tallies[i], c.answered);
    EntryRecorded(n, h, i, s.currentTerm, e);
    StartServerOK(n, h, i, s, v, c.tallies[i], c.answered, e);
    Framed(c, DoStart(c, i, command), i);
  }

  lemma SendAppendKeepsInv(c: Cluster, i: nat, p: nat)
    requires Inv(c) && Enabled(c, SendAppend(i, p))
    ensures Inv(DoSendAppend(c, i, p)) && Grows(c.history, DoSendAppend(c, i, p).history, i)
  {
    hide ServerOK, HistoryOK, Grows, AppendReqOK, AppendFor;
    var n, h, s, v := |c.servers|, c.history, c.servers[i], c.vlogs[i];
    AppendForOK(n, h, i, s, v, c.tallies[i], c.answered, p);
    SameHistory(h, i);
    Framed(c, DoSendAppend(c, i, p), i);
  }

  lemma AppendForOK(n: nat, h: History, i: nat, s: Server, v: seq<Entry>, tally: set<nat>, answered: set<VoteCall>,
                    p: nat)
    requires HistoryOK(n, h) && ServerOK(n, h, i, s, v, tally, answered) && s.role == Leader
    requires p < n && p != i && InRange(s, p)
    ensures AppendReqOK(n, h, i, p, AppendFor(s, p), v)
  {
    hide LogOK, VoteOK, NotAhead, TermsWithin;
    TermOfVirtual(s, v, s.nextIndex[p] - 1);
    assert ReignOK(n, h, s.currentTerm);
    assert v[s.snapIndex..][s.nextIndex[p] - s.snapIndex - 1..] == v[s.nextIndex[p] - 1..];
  }

  // ---------------------------------------------------------------- snapshots

  lemma SendSnapshotKeepsInv(c: Cluster, i: nat, p: nat)
    requires Inv(c) && Enabled(c, SendSnapshot(i, p))
    ensures Inv(DoSendSnapshot(c, i, p)) && Grows(c.history, DoSendSnapshot(c, i, p).history, i)
  {
    hide ServerOK, HistoryOK, Grows, SnapReqOK;
    var n, h, s, v := |c.servers|, c.history, c.servers[i], c.vlogs[i];
    SnapshotForOK(n, h, i, s, v, c.tallies[i], c.answered, p);
    SameHistory(h, i);
    Framed(c, DoSendSnapshot(c, i, p), i);
  }

  lemma SnapshotForOK(n: nat, h: History, i: nat, s: Server, v: seq<Entry>, tally: set<nat>, answered: set<VoteCall>,
                      p: nat)
    requires ServerOK(n, h, i, s, v, tally, answered) && s.role == Leader && p < n && p != i
    ensures s.snapIndex <= |v| && SnapReqOK(n, h, i, p, SnapshotFor(s), v[..s.snapIndex])
  {
    hide LogOK;
  }

  lemma InstallFields(s: Server, a: SnapArgs)
    requires s.InSync() && s.snapIndex <= s.lastApplied <= s.commitIndex && a.term >= s.currentTerm
    ensures var (s', r) := OnInstall(s, a);
            && Yields(s, s') && s'.currentTerm == a.term
            && if Installs(s, a)
               then s'.snapIndex == a.lastIndex && s'.snapTerm == a.lastTerm && s'.log == [] && r.term == a.term
               else s'.snapIndex == s.snapIndex && s'.snapTerm == s.snapTerm && s'.log == s.log
  {
  }

  lemma InstallServerOK(n: nat, h: History, i: nat, s: Server, v: seq<Entry>, tally: set<nat>, answered: set<VoteCall>,
                        src: nat, a: SnapArgs, full: seq<Entry>)
    requires HistoryOK(n, h) && ServerOK(n, h, i, s, v, tally, answered) && SnapReqOK(n, h, src, i, a, full)
    ensures var (s', r) := OnInstall(s, a);
            var h' := if r.term == a.term then RecordAck(h, i, a.term, a.lastIndex) else h;
            && HistoryOK(n, h') && Grows(h, h', i)
            && ServerOK(n, h', i, s', if Installs(s, a) then full else v, tally, answered)
  {
    hide LogOK, OnInstall, HistoryOK, ReignOK, TermsWithin, VoteOK, NotAhead, CandidateOK, LeaderOK;
    var (s', r) := OnInstall(s, a);
    var h' := if r.term == a.term then RecordAck(h, i, a.term, a.lastIndex) else h;
    SameHistory(h, i);
    if a.term < s.currentTerm {
      StaleInstall(s, a);
    } else {
      InstallFields(s, a);
      if r.term == a.term { AckRecorded(n, h, i, a.term, a.lastIndex); }
      SentLogOK(n, h, a.term, full);
      LaterTerms(v, s.currentTerm, a.term);
      YieldingServerOK(n, h, h', i, s, s', v, if Installs(s, a) then full else v, tally, answered);
    }
  }

  lemma LaterTerms(v: seq<Entry>, t: nat, t': nat)
    requires TermsWithin(v, 1, t) && t <= t'
    ensures TermsWithin(v, 1, t')
  {
  }

  lemma StaleInstall(s: Server, a: SnapArgs)
    requires a.term < s.currentTerm
    ensures OnInstall(s, a) == (s, SnapReply(s.currentTerm))
  {
  }

  lemma InstallKeepsInv(c: Cluster, m: Msg)
    requires Inv(c) && Enabled(c, HandleInstall(m))
    ensures Inv(DoInstall(c, m)) && Grows(c.history, DoInstall(c, m).history, m.dst)
  {
    hide ServerOK, HistoryOK, Grows, OnInstall, SnapReqOK;
    var n, h, i := |c.servers|, c.history, m.dst;
    assert MsgOK(n, h, m);
    var c' := DoInstall(c, m);
    InstallServerOK(n, h, i, c.servers[i], c.vlogs[i], c.tallies[i], c.answered, m.src, m.sa, m.full);
    GrowsMsgOK(n, h, c'.history, i, m);
    Framed(c, c', i);
  }

  lemma InstallReplyServerOK(n: nat, h: History, i: nat, s: Server, v: seq<Entry>, tally: set<nat>,
                             answered: set<VoteCall>,
                             dst: nat, a: SnapArgs, full: seq<Entry>, r: SnapReply)
    requires HistoryOK(n, h) && ServerOK(n, h, i, s, v, tally, answered)
    requires MsgOK(n, h, SnapRep(i, dst, a, full, r))
    ensures ServerOK(n, h, i, OnInstallReply(s, dst, a, r), v, tally, answered)
  {
    hide LogOK, HistoryOK, VoteOK, NotAhead, CandidateOK, LeaderOK, Retained, TermsWithin, CommitPoint;
    if s.currentTerm == a.term && s.role == Leader {
      if r.term > s.currentTerm {
        SteppedDownOK(n, h, i, s, r.term, v, tally, answered);
      } else if r.term == s.currentTerm {
        InstallReplyLeaderOK(n, h, i, s, v, dst, a, full, r);
        LeadingServerOK(n, h, i, s, OnInstallReply(s, dst, a, r), v, tally, answered);
      }
    }
  }

  lemma InstallReplyLeaderOK(n: nat, h: History, i: nat, s: Server, v: seq<Entry>, dst: nat, a: SnapArgs,
                             full: seq<Entry>, r: SnapReply)
    requires Retained(s, v) && s.InSync() && s.me == i && s.role == Leader
    requires LeaderOK(n, h, s, v) && |s.nextIndex| == |s.matchIndex| == n
    requires MsgOK(n, h, SnapRep(i, dst, a, full, r)) && s.currentTerm == a.term == r.term
    ensures var s' := OnInstallReply(s, dst, a, r);
            && s.commitIndex <= s'.commitIndex && LeaderOK(n, h, s', v)
            && s' == s.(nextIndex := s'.nextIndex, matchIndex := s'.matchIndex, commitIndex := s'.commitIndex)
            && |s'.nextIndex| == |s'.matchIndex| == n
  {
    hide CommitPoint;
    LastOfVirtual(s, v);
  }

  lemma InstallReplyKeepsInv(c: Cluster, m: Msg)
    requires Inv(c) && Enabled(c, HandleInstallReply(m))
    ensures Inv(DoInstallReply(c, m)) && Grows(c.history, DoInstallReply(c, m).history, m.src)
  {
    hide ServerOK, HistoryOK, Grows, OnInstallReply;
    var i := m.src;
    SameHistory(c.history, i);
    InstallReplyServerOK(|c.servers|, c.history, i, c.servers[i], c.vlogs[i], c.tallies[i], c.answered, m.dst, m.sa,
      m.full, m.sr);
    Framed(c, DoInstallReply(c, m), i);
  }

  lemma CompactServerOK(n: nat, h: History, i: nat, s: Server, v: seq<Entry>, tally: set<nat>, answered: set<VoteCall>,
                        index: nat)
    requires ServerOK(n, h, i, s, v, tally, answered) && SnapshotInRange(s, index)
    ensures ServerOK(n, h, i, OnSnapshot(s, index), v, tally, answered)
  {
    hide LogOK;
    if s.snapIndex < index <= s.lastApplied {
      assert v[s.snapIndex..][index - s.snapIndex..] == v[index..];
    }
  }

  // ---------------------------------------------------------------- applying and restarting

  lemma LocalKeepsInv(c: Cluster, c': Cluster, i: nat, s: Server)
    requires Inv(c) && i < |c.servers|
    requires c' == Put(c, i, s).(delivered := c'.delivered)
    requires ServerOK(|c.servers|, c.history, i, s, c.vlogs[i], c.tallies[i], c.answered)
    ensures Inv(c') && Grows(c.history, c'.history, i)
  {
    hide ServerOK, HistoryOK, Grows;
    SameHistory(c.history, i);
    Framed(c, c', i);
  }

  lemma LocalServerOK(n: nat, h: History, i: nat, s: Server, v: seq<Entry>, tally: set<nat>, answered: set<VoteCall>)
    requires ServerOK(n, h, i, s, v, tally, answered)
    ensures WantsApply(s) ==> ServerOK(n, h, i, OnApply(s), v, tally, answered)
    ensures ServerOK(n, h, i, OnRestart(s), v, tally, answered)
  {
    hide LogOK;
  }

  // ---------------------------------------------------------------- the whole

  lemma InitOK(n: nat)
    ensures Inv(Init(n))
  {
  }

  /** The server whose mutex a step holds. */
  function Mover(step: Step): nat {
    match step
    case Timeout(i) => i
    case HandleVote(m) => m.dst
    case HandleVoteReply(m) => m.src
    case Start(i, _) => i
    case SendAppend(i, _) => i
    case HandleAppend(m) => m.dst
    case HandleAppendReply(m) => m.src
    case SendSnapshot(i, _) => i
    case HandleInstall(m) => m.dst
    case HandleInstallReply(m) => m.src
    case Compact(i, _) => i
    case Apply(i) => i
    case Restart(i) => i
  }

  lemma StepKeepsInv(c: Cluster, step: Step)
    requires Inv(c) && Enabled(c, step)
    ensures Inv(Do(c, step)) && Grows(c.history, Do(c, step).history, Mover(step))
  {
    hide ServersOK, HistoryOK, MsgOK, ServerOK, Grows, DoTimeout, DoVote, DoVoteReply, DoStart, DoAppend, DoInstall,
      OnSnapshot, OnRestart;
    match step
    case Timeout(i) => TimeoutKeepsInv(c, i);
    case HandleVote(m) => VoteKeepsInv(c, m);
    case HandleVoteReply(m) => VoteReplyKeepsInv(c, m);
    case Start(i, command) => StartKeepsInv(c, i, command);
    case SendAppend(i, p) => SendAppendKeepsInv(c, i, p);
    case HandleAppend(m) => AppendKeepsInv(c, m);
    case HandleAppendReply(m) => AppendReplyKeepsInv(c, m);
    case SendSnapshot(i, p) => SendSnapshotKeepsInv(c, i, p);
    case HandleInstall(m) => InstallKeepsInv(c, m);
    case HandleInstallReply(m) => InstallReplyKeepsInv(c, m);
    case Compact(i, index) =>
      ServerInv(c, i);
      CompactServerOK(|c.servers|, c.history, i, c.servers[i], c.vlogs[i], c.tallies[i], c.answered, index);
      LocalKeepsInv(c, Do(c, step), i, OnSnapshot(c.servers[i], index));
    case Apply(i) =>
      ServerInv(c, i);
      LocalServerOK(|c.servers|, c.history, i, c.servers[i], c.vlogs[i], c.tallies[i], c.answered);
      LocalKeepsInv(c, Do(c, step), i, OnApply(c.servers[i]));
    case Restart(i) =>
      ServerInv(c, i);
      LocalServerOK(|c.servers|, c.history, i, c.servers[i], c.vlogs[i], c.tallies[i], c.answered);
      LocalKeepsInv(c, Do(c, step), i, OnRestart(c.servers[i]));
  }

  lemma ServerInv(c: Cluster, i: nat)
    requires Inv(c) && i < |c.servers|
    ensures i < |c.vlogs| && i < |c.tallies|
    ensures ServerOK(|c.servers|, c.history, i, c.servers[i], c.vlogs[i], c.tallies[i], c.answered)
  {
  }
}
