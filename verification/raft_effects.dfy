/** What each handler does in a run, said in terms of whole (virtual) logs, sets of voters and the requests
    and replies that were sent, rather than in terms of the functions that compute it. */
module RaftEffects {
  import opened Collections
  import opened RaftTypes
  import opened RaftSteps
  import opened RaftCluster
  import opened RaftInvariant
  import opened RaftPreservation
  import opened RaftTheorems

  /** Step `k` of a run, taken by a server that is there. */
  ghost predicate Takes(n: nat, states: seq<Cluster>, steps: seq<Step>, k: nat, step: Step) {
    IsRun(n, states, steps) && k < |steps| && steps[k] == step
  }

  lemma TakenStep(n: nat, states: seq<Cluster>, steps: seq<Step>, k: nat)
    requires IsRun(n, states, steps) && k < |steps|
    ensures Inv(states[k]) && WellFormed(states[k]) && Enabled(states[k], steps[k])
    ensures states[k + 1] == Do(states[k], steps[k]) && |states[k].servers| == n == |states[k + 1].servers|
    ensures |states[k].vlogs| == |states[k + 1].vlogs| == |states[k + 1].tallies| == n
  {
    hide Inv, Do, Enabled;
    RunInv(n, states, steps, k);
    RunInv(n, states, steps, k + 1);
    WellFormedInv(states[k]);
    WellFormedInv(states[k + 1]);
    assert Next(states[k], steps[k], states[k + 1]);
  }

  /** What the invariant says about the log of a server. */
  lemma LogFacts(c: Cluster, i: nat)
    requires Inv(c) && i < |c.servers|
    ensures i < |c.vlogs| && Retained(c.servers[i], c.vlogs[i]) && c.servers[i].me == i && c.servers[i].InSync()
    ensures c.servers[i].LastIndex() == |c.vlogs[i]|
    ensures c.servers[i].LastTerm() == TermAt(c.vlogs[i], |c.vlogs[i]|)
    ensures TermsWithin(c.vlogs[i], 1, c.servers[i].currentTerm)
  {
    hide HistoryOK, MsgOK, LogOK, VoteOK, NotAhead, CandidateOK, LeaderOK;
    ServerInv(c, i);
    LastOfVirtual(c.servers[i], c.vlogs[i]);
  }

  /** Every server begins as a follower in term 0, without a vote, a log or a snapshot, and has saved that. */
  lemma BeginsEmpty(n: nat, i: nat)
    requires i < n
    ensures |Init(n).servers| == n
    ensures var s := Init(n).servers[i];
            && s.me == i && s.peers == n && s.role == Follower && s.currentTerm == 0 && s.votedFor == NOBODY
            && s.log == [] && s.snapIndex == s.snapTerm == s.commitIndex == s.lastApplied == 0 && s.InSync()
  {
  }

  // ---------------------------------------------------------------- elections

  /** Exactly when a vote is granted, and what the voter remembers. The comparison is that of section 5.4.1
      of the extended Raft paper, on whole logs. */
  lemma VotesExactly(n: nat, states: seq<Cluster>, steps: seq<Step>, k: nat, m: Msg) returns (r: VoteReply)
    requires Takes(n, states, steps, k, HandleVote(m))
    ensures |states[k].servers| == |states[k + 1].servers| == |states[k].vlogs|
    ensures m.VoteReq? && m.dst < |states[k].servers|
    ensures VoteRep(m.src, m.dst, m.va, r) in states[k + 1].net
    ensures var s, s', v, a := states[k].servers[m.dst], states[k + 1].servers[m.dst], states[k].vlogs[m.dst], m.va;
            && (r.granted <==>
                  && a.term >= s.currentTerm
                  && (a.term > s.currentTerm || s.votedFor == NOBODY || s.votedFor == a.candidate)
                  && (a.lastTerm > TermAt(v, |v|) || (a.lastTerm == TermAt(v, |v|) && a.lastIndex >= |v|)))
            && r.term == s'.currentTerm == Max(s.currentTerm, a.term)
            && (r.granted ==> s'.votedFor == a.candidate)
            && (!r.granted ==> s'.votedFor == if a.term > s.currentTerm then NOBODY else s.votedFor)
            && s'.role == (if a.term > s.currentTerm then Follower else s.role)
            && s'.InSync()
            && s' == s.(currentTerm := s'.currentTerm, votedFor := s'.votedFor, role := s'.role, disk := s'.disk)
  {
    hide Inv;
    TakenStep(n, states, steps, k);
    LogFacts(states[k], m.dst);
    r := OnRequestVote(states[k].servers[m.dst], m.va).1;
  }

  /** A timeout begins the next term: the server votes for itself and asks every other one, with the length
      and last term of its whole log. */
  lemma TimeoutAsksAll(n: nat, states: seq<Cluster>, steps: seq<Step>, k: nat, i: nat, p: nat)
    requires Takes(n, states, steps, k, Timeout(i)) && p < n && p != i
    ensures |states[k].servers| == |states[k + 1].servers| == |states[k].vlogs| == n && i < n
    ensures var s, s', v := states[k].servers[i], states[k + 1].servers[i], states[k].vlogs[i];
            && s'.currentTerm == s.currentTerm + 1 && s'.role == Candidate && s'.votedFor == i && s'.votes == 1
            && s'.InSync()
            && s' == s.(currentTerm := s'.currentTerm, role := Candidate, votedFor := i, votes := 1, disk := s'.disk)
            && VoteReq(i, p, VoteArgs(s.currentTerm + 1, i, |v|, TermAt(v, |v|))) in states[k + 1].net
  {
    hide Inv;
    TakenStep(n, states, steps, k);
    LogFacts(states[k], i);
  }

  /** A vote that counts makes its candidate leader if and only if a strict majority has voted for it. A new
      leader expects every peer to hold its whole log, and knows that of nobody but itself. */
  lemma MajorityElects(n: nat, states: seq<Cluster>, steps: seq<Step>, k: nat, m: Msg)
    requires Takes(n, states, steps, k, HandleVoteReply(m)) && m.VoteRep? && m.src < |states[k].servers|
    requires Counts(states[k].servers[m.src], m)
    ensures m.src < |states[k + 1].servers| && m.src < |states[k + 1].tallies| && m.src < |states[k + 1].vlogs|
    ensures m.src < |states[k].tallies| && states[k + 1].tallies[m.src] == states[k].tallies[m.src] + {m.dst}
    ensures var s, s', v := states[k].servers[m.src], states[k + 1].servers[m.src], states[k + 1].vlogs[m.src];
            && s' == s.(role := s'.role, votes := s'.votes, nextIndex := s'.nextIndex, matchIndex := s'.matchIndex)
            && (s'.role == Leader <==> |states[k + 1].tallies[m.src]| > n / 2)
            && (s'.role != Leader ==> s'.role == Candidate)
            && (s'.role == Leader ==>
                  && (forall p :: 0 <= p < |s'.nextIndex| ==> s'.nextIndex[p] == |v| + 1)
                  && (forall p :: 0 <= p < |s'.matchIndex| ==> s'.matchIndex[p] == if p == m.src then |v| else 0))
  {
    hide Inv, LeaderIndices;
    TakenStep(n, states, steps, k);
    VotersCounted(n, states, steps, k, m.src);
    LogFacts(states[k], m.src);
    FreshVoter(states[k], m);
    ElectedIndices(states[k].servers[m.src].(votes := states[k].servers[m.src].votes + 1, role := Leader));
  }

  lemma ElectedIndices(s: Server)
    ensures forall p :: 0 <= p < |LeaderIndices(s).nextIndex| ==> LeaderIndices(s).nextIndex[p] == s.LastIndex() + 1
    ensures forall p :: 0 <= p < |LeaderIndices(s).matchIndex| ==>
              LeaderIndices(s).matchIndex[p] == if p == s.me then s.LastIndex() else 0
    ensures LeaderIndices(s) == s.(nextIndex := LeaderIndices(s).nextIndex, matchIndex := LeaderIndices(s).matchIndex)
  {
  }

  lemma VotersCounted(n: nat, states: seq<Cluster>, steps: seq<Step>, k: nat, a: nat)
    requires IsRun(n, states, steps) && k < |states| && a < n && |states[k].servers| == n
    requires states[k].servers[a].role == Candidate
    ensures a < |states[k].tallies| && |states[k].tallies[a]| == states[k].servers[a].votes
    ensures states[k].servers[a].peers == n
  {
    hide IsRun, HistoryOK, MsgOK, LogOK;
    RunInv(n, states, steps, k);
    ServerInv(states[k], a);
  }

  /** No voter is counted twice, since its call has only returned now. */
  lemma FreshVoter(c: Cluster, m: Msg)
    requires Inv(c) && WellFormed(c) && Enabled(c, HandleVoteReply(m)) && Counts(c.servers[m.src], m)
    ensures m.src < |c.tallies| && m.dst !in c.tallies[m.src]
  {
    hide HistoryOK, LogOK;
    ServerInv(c, m.src);
    assert MsgOK(|c.servers|, c.history, m);
  }

  /** A reply of a newer term ends the candidacy or leadership it is for, whatever kind of reply it is. */
  lemma NewerTermStepsDown(n: nat, states: seq<Cluster>, steps: seq<Step>, k: nat, m: Msg, term: nat)
    requires IsRun(n, states, steps) && k < |steps| && m.src < |states[k].servers|
    requires var s := states[k].servers[m.src];
             || (m.VoteRep? && steps[k] == HandleVoteReply(m) && m.vr.term == term
                 && s.role == Candidate && s.currentTerm == m.va.term)
             || (m.AppendRep? && steps[k] == HandleAppendReply(m) && m.ar.term == term
                 && s.role == Leader && s.currentTerm == m.aa.term)
             || (m.SnapRep? && steps[k] == HandleInstallReply(m) && m.sr.term == term
                 && s.role == Leader && s.currentTerm == m.sa.term)
    requires term > states[k].servers[m.src].currentTerm
    ensures m.src < |states[k + 1].servers|
    ensures var s, s' := states[k].servers[m.src], states[k + 1].servers[m.src];
            && s'.role == Follower && s'.currentTerm == term && s'.votedFor == NOBODY && s'.InSync()
            && s' == s.(role := Follower, currentTerm := term, votedFor := NOBODY, disk := s'.disk)
  {
    hide Inv, AdvanceCommit, BackUp;
    TakenStep(n, states, steps, k);
  }

  // ---------------------------------------------------------------- requests

  /** The request for a peer starts right behind what the leader believes the peer to hold, brings the whole
      rest of the log, and says what the leader has committed. */
  lemma AppendSays(n: nat, states: seq<Cluster>, steps: seq<Step>, k: nat, i: nat, p: nat)
    requires Takes(n, states, steps, k, SendAppend(i, p))
    ensures i < |states[k].servers| && i < |states[k].vlogs| && p < |states[k].servers[i].nextIndex|
    ensures var s, v := states[k].servers[i], states[k].vlogs[i];
            && 1 <= s.nextIndex[p] <= |v| + 1
            && AppendReq(i, p, AppendArgs(s.currentTerm, s.nextIndex[p] - 1, TermAt(v, s.nextIndex[p] - 1),
                                          v[s.nextIndex[p] - 1..], s.commitIndex), v) in states[k + 1].net
  {
    hide Inv;
    TakenStep(n, states, steps, k);
    LogFacts(states[k], i);
    var s, v := states[k].servers[i], states[k].vlogs[i];
    TermOfVirtual(s, v, s.nextIndex[p] - 1);
    assert v[s.snapIndex..][s.nextIndex[p] - s.snapIndex - 1..] == v[s.nextIndex[p] - 1..];
  }

  /** The snapshot request names the point up to which the leader has compacted its log. */
  lemma SnapshotSays(n: nat, states: seq<Cluster>, steps: seq<Step>, k: nat, i: nat, p: nat)
    requires Takes(n, states, steps, k, SendSnapshot(i, p))
    ensures i < |states[k].servers| && i < |states[k].vlogs| && states[k].servers[i].snapIndex <= |states[k].vlogs[i]|
    ensures var s, v := states[k].servers[i], states[k].vlogs[i];
            SnapReq(i, p, SnapArgs(s.currentTerm, i, s.snapIndex, TermAt(v, s.snapIndex)), v[..s.snapIndex])
            in states[k + 1].net
  {
    hide Inv;
    TakenStep(n, states, steps, k);
    LogFacts(states[k], i);
  }

  // ---------------------------------------------------------------- append requests

  /** The follower has the entry before the new ones, at or behind its own snapshot point. */
  ghost predicate Fits(s: Server, v: seq<Entry>, a: AppendArgs) {
    s.snapIndex <= a.prevIndex <= |v| && TermAt(v, a.prevIndex) == a.prevTerm
  }

  /** What a refused request is answered: for a log that is too short, its length; for a conflict, the
      conflicting term and where its run begins among the entries still held; otherwise nothing. */
  ghost predicate Hints(s: Server, v: seq<Entry>, a: AppendArgs, r: AppendReply) {
    if a.prevIndex > |v| then r.xTerm == -1 && r.xLen == |v| + 1
    else if a.prevIndex <= s.snapIndex then r.xTerm == 0 && r.xIndex == 0 && r.xLen == 0
    else
      && r.xTerm == TermAt(v, a.prevIndex)
      && s.snapIndex < r.xIndex <= a.prevIndex
      && (forall j :: r.xIndex <= j <= a.prevIndex ==> TermAt(v, j) == r.xTerm)
      && (r.xIndex - 1 > s.snapIndex ==> TermAt(v, r.xIndex - 1) != r.xTerm)
  }

  /** Exactly when an append is accepted, and everything it does: on success the follower has the sender's
      log and commits as much of it as either of them knows to be committed; a refusal changes no log and
      carries the term from before the request. */
  lemma AppendsExactly(n: nat, states: seq<Cluster>, steps: seq<Step>, k: nat, m: Msg) returns (r: AppendReply)
    requires Takes(n, states, steps, k, HandleAppend(m))
    ensures m.AppendReq? && |states[k].servers| == |states[k + 1].servers| == |states[k].vlogs| == |states[k + 1].vlogs|
    ensures m.dst < |states[k].servers| && AppendRep(m.src, m.dst, m.aa, m.full, r) in states[k + 1].net
    ensures r == OnAppend(states[k].servers[m.dst], m.aa).1
    ensures var s, s', v, v', a := states[k].servers[m.dst], states[k + 1].servers[m.dst],
                                   states[k].vlogs[m.dst], states[k + 1].vlogs[m.dst], m.aa;
            && (r.success <==> a.term >= s.currentTerm && Fits(s, v, a))
            && (a.term < s.currentTerm ==> s' == s && r.term == s.currentTerm)
            && (a.term >= s.currentTerm ==>
                  && s'.currentTerm == a.term && s'.role == Follower && s'.InSync()
                  && s'.votedFor == if a.term > s.currentTerm then NOBODY else s.votedFor)
            && (r.success ==>
                  && v' == m.full && r.term == a.term
                  && s'.commitIndex == Min(Max(s.commitIndex, a.leaderCommit), |m.full|)
                  && s'.lastApplied == Min(s.lastApplied, |m.full|))
            && (!r.success ==>
                  && v' == v && s'.log == s.log && s'.commitIndex == s.commitIndex && s'.lastApplied == s.lastApplied
                  && r.term == s.currentTerm)
            && (!r.success && a.term >= s.currentTerm ==> Hints(s, v, a, r))
            && s'.snapIndex == s.snapIndex && s'.snapTerm == s.snapTerm
            && s'.nextIndex == s.nextIndex && s'.matchIndex == s.matchIndex && s'.votes == s.votes
  {
    hide Inv, OnAppend, Hints, Fits, Matches;
    TakenStep(n, states, steps, k);
    var c, i := states[k], m.dst;
    var s, v := c.servers[i], c.vlogs[i];
    r := OnAppend(s, m.aa).1;
    LogFacts(c, i);
    FitsIsMatches(s, v, m.aa);
    if m.aa.term >= s.currentTerm && Matches(s, m.aa) {
      AcceptedEffect(c, m);
    } else {
      RefusedEffect(s, v, m.aa);
    }
  }

  lemma FitsIsMatches(s: Server, v: seq<Entry>, a: AppendArgs)
    requires Retained(s, v)
    ensures Matches(s, a) <==> Fits(s, v, a)
  {
    LastOfVirtual(s, v);
    if s.snapIndex <= a.prevIndex <= s.LastIndex() { TermOfVirtual(s, v, a.prevIndex); }
  }

  lemma AcceptedEffect(c: Cluster, m: Msg)
    requires Inv(c) && Enabled(c, HandleAppend(m)) && m.aa.term >= c.servers[m.dst].currentTerm
    requires Matches(c.servers[m.dst], m.aa)
    ensures m.dst < |c.vlogs|
    ensures var (s', r) := OnAppend(c.servers[m.dst], m.aa);
            var s := c.servers[m.dst];
            && r.success && r.term == m.aa.term && Restored(c.vlogs[m.dst], s') == m.full
            && s'.currentTerm == m.aa.term && s'.role == Follower && s'.InSync()
            && s'.votedFor == (if m.aa.term > s.currentTerm then NOBODY else s.votedFor)
            && s'.commitIndex == Min(Max(s.commitIndex, m.aa.leaderCommit), |m.full|)
            && s'.lastApplied == Min(s.lastApplied, |m.full|)
            && s'.snapIndex == s.snapIndex && s'.snapTerm == s.snapTerm
            && s'.nextIndex == s.nextIndex && s'.matchIndex == s.matchIndex && s'.votes == s.votes
  {
    hide HistoryOK, LogOK, VoteOK, NotAhead, CandidateOK, LeaderOK, TermsWithin, OnAppend, Spliced;
    ServerInv(c, m.dst);
    assert MsgOK(|c.servers|, c.history, m);
    var s, v := c.servers[m.dst], c.vlogs[m.dst];
    SplicedIsFull(|c.servers|, c.history, s, v, m.src, m.aa, m.full);
    assert s.snapIndex + |Spliced(s, m.aa)| == |m.full|;
    AcceptedState(s, m.aa);
  }

  lemma AcceptedState(s: Server, a: AppendArgs)
    requires a.term >= s.currentTerm && Matches(s, a)
    ensures var (s', r) := OnAppend(s, a);
            var length := s.snapIndex + |Spliced(s, a)|;
            && r.success && r.term == a.term && s'.log == Spliced(s, a)
            && s'.currentTerm == a.term && s'.role == Follower && s'.InSync()
            && s'.votedFor == (if a.term > s.currentTerm then NOBODY else s.votedFor)
            && s'.commitIndex == Min(Max(s.commitIndex, a.leaderCommit), length)
            && s'.lastApplied == Min(s.lastApplied, length)
            && s'.snapIndex == s.snapIndex && s'.snapTerm == s.snapTerm
            && s'.nextIndex == s.nextIndex && s'.matchIndex == s.matchIndex && s'.votes == s.votes
  {
  }

  lemma RefusedEffect(s: Server, v: seq<Entry>, a: AppendArgs)
    requires Retained(s, v) && s.InSync() && (a.term < s.currentTerm || !Matches(s, a))
    ensures var (s', r) := OnAppend(s, a);
            && !r.success && r.term == s.currentTerm && Restored(v, s') == v
            && s'.log == s.log && s'.commitIndex == s.commitIndex && s'.lastApplied == s.lastApplied
            && s'.snapIndex == s.snapIndex && s'.snapTerm == s.snapTerm
            && s'.nextIndex == s.nextIndex && s'.matchIndex == s.matchIndex && s'.votes == s.votes
            && (a.term < s.currentTerm ==> s' == s)
            && (a.term >= s.currentTerm ==>
                  && s'.currentTerm == a.term && s'.role == Follower && s'.InSync()
                  && s'.votedFor == (if a.term > s.currentTerm then NOBODY else s.votedFor)
                  && Hints(s, v, a, r))
  {
    hide Hints, Rejection;
    assert v[..s.snapIndex] + s.log == v;
    if a.term >= s.currentTerm {
      RejectionRefuses(OnAppend(s, a).0, a, s.currentTerm);
      RejectionHints(OnAppend(s, a).0, v, a, s.currentTerm);
      SameHints(s, OnAppend(s, a).0, v, a, OnAppend(s, a).1);
    }
  }

  lemma RejectionRefuses(s: Server, a: AppendArgs, term: nat)
    ensures !Rejection(s, a, term).success && Rejection(s, a, term).term == term
  {
  }

  lemma SameHints(s: Server, s': Server, v: seq<Entry>, a: AppendArgs, r: AppendReply)
    requires s'.snapIndex == s.snapIndex && Hints(s', v, a, r)
    ensures Hints(s, v, a, r)
  {
  }

  lemma RejectionHints(s: Server, v: seq<Entry>, a: AppendArgs, term: nat)
    requires Retained(s, v) && !Matches(s, a)
    ensures Hints(s, v, a, Rejection(s, a, term))
  {
    LastOfVirtual(s, v);
    if s.snapIndex < a.prevIndex <= s.LastIndex() {
      var first := RunStart(s, a.prevIndex);
      forall j | s.snapIndex < j <= a.prevIndex ensures TermAt(v, j) == s.TermOf(j) {
        TermOfVirtual(s, v, j);
      }
      assert forall j :: first <= j <= a.prevIndex ==> s.TermOf(j) == s.TermOf(a.prevIndex);
    }
  }

  // ---------------------------------------------------------------- append replies

  /** Every append reply in the network was built by the step that handled its request. */
  lemma {:induction false} ReplyOrigin(n: nat, states: seq<Cluster>, steps: seq<Step>, k: nat, m: Msg) returns (j: nat)
    requires IsRun(n, states, steps) && k < |states| && m in states[k].net && m.AppendRep?
    ensures j < k && steps[j] == HandleAppend(AppendReq(m.src, m.dst, m.aa, m.full))
    ensures m.dst < |states[j].servers| && m.ar == OnAppend(states[j].servers[m.dst], m.aa).1
  {
    hide Inv, OnAppend, Do, Enabled;
    assert k > 0 by { hide *; NoMessages(n, states, steps, m); }
    TakenStep(n, states, steps, k - 1);
    if m in states[k - 1].net {
      j := ReplyOrigin(n, states, steps, k - 1, m);
    } else {
      NewReply(states[k - 1], steps[k - 1], m);
      j := k - 1;
    }
  }

  lemma NoMessages(n: nat, states: seq<Cluster>, steps: seq<Step>, m: Msg)
    requires IsRun(n, states, steps)
    ensures m !in states[0].net
  {
  }

  lemma NewReply(c: Cluster, step: Step, m: Msg)
    requires WellFormed(c) && Enabled(c, step) && m !in c.net && m in Do(c, step).net && m.AppendRep?
    ensures step == HandleAppend(AppendReq(m.src, m.dst, m.aa, m.full)) && m.dst < |c.servers|
    ensures m.ar == OnAppend(c.servers[m.dst], m.aa).1
  {
    hide OnTimeout, OnRequestVote, OnVoteReply, OnAppend, OnAppendReply, OnInstall, OnInstallReply, OnStart, AppendFor;
  }

  /** `next` is what the fast back-up rule makes of a hint about follower log `w`, snapshot point `snap`, for
      a leader with the entries `log` behind its own snapshot: the end of a log that is too short; for a
      conflict the greatest offset but 0 at which the leader has the conflicting term, plus one, or else the
      start of the follower's run of that term; and 1 when there was no hint. */
  ghost predicate BacksUpTo(next: nat, log: seq<Entry>, w: seq<Entry>, snap: nat, prev: nat) {
    if prev > |w| then next == |w| + 1
    else if prev <= snap then next == 1
    else
      var term := TermAt(w, prev);
      if exists i :: 1 <= i < |log| && log[i].term == term
      then
        && 2 <= next <= |log| && log[next - 1].term == term
        && forall i :: next <= i < |log| ==> log[i].term != term
      else
        && snap < next <= prev
        && (forall j :: next <= j <= prev ==> TermAt(w, j) == term)
        && (next - 1 > snap ==> TermAt(w, next - 1) != term)
  }

  /** Fast back-up, end to end: when a leader handles a rejection in its term, its next request to that peer
      starts where the log that the follower had when it refused says. */
  lemma BacksUpExactly(n: nat, states: seq<Cluster>, steps: seq<Step>, k: nat, m: Msg) returns (j: nat)
    requires Takes(n, states, steps, k, HandleAppendReply(m)) && m.AppendRep? && !m.ar.success
    requires m.dst < n && Leads(states[k], m.src, m.aa.term) && Leads(states[k + 1], m.src, m.aa.term)
    ensures j < k && steps[j] == HandleAppend(AppendReq(m.src, m.dst, m.aa, m.full))
    ensures m.dst < |states[j].servers| && m.dst < |states[j].vlogs|
    ensures m.dst < |states[k].servers[m.src].nextIndex|
    ensures m.dst < |states[k + 1].servers[m.src].nextIndex|
    ensures var s, s' := states[k].servers[m.src], states[k + 1].servers[m.src];
            s' == s.(nextIndex := s.nextIndex[m.dst := s'.nextIndex[m.dst]])
    ensures BacksUpTo(states[k + 1].servers[m.src].nextIndex[m.dst], states[k].servers[m.src].log,
                      states[j].vlogs[m.dst], states[j].servers[m.dst].snapIndex, m.aa.prevIndex)
  {
    hide Inv, OnAppend, BackUp, BacksUpTo, AdvanceCommit, Hints;
    TakenStep(n, states, steps, k);
    j := ReplyOrigin(n, states, steps, k, m);
    TakenStep(n, states, steps, j);
    var r := AppendsExactly(n, states, steps, j, AppendReq(m.src, m.dst, m.aa, m.full));
    assert m.ar.term <= m.aa.term;
    LogFacts(states[k], m.src);
    BackUpFollowsHint(states[k].servers[m.src].log, states[j].servers[m.dst], states[j].vlogs[m.dst], m.aa, m.ar) by {
      TailTerms(states[k].servers[m.src], states[k].vlogs[m.src]);
    }
  }

  lemma TailTerms(s: Server, v: seq<Entry>)
    requires Retained(s, v) && TermsWithin(v, 1, s.currentTerm)
    ensures forall i :: 0 <= i < |s.log| ==> s.log[i].term >= 1
  {
  }

  lemma BackUpFollowsHint(log: seq<Entry>, f: Server, w: seq<Entry>, a: AppendArgs, r: AppendReply)
    requires Hints(f, w, a, r) && forall i :: 0 <= i < |log| ==> log[i].term >= 1
    ensures BacksUpTo(BackUp(log, r), log, w, f.snapIndex, a.prevIndex)
  {
  }

  /** An acknowledged append: the peer is known to hold what was sent, and is sent what follows next. */
  lemma AckMoves(n: nat, states: seq<Cluster>, steps: seq<Step>, k: nat, m: Msg)
    requires Takes(n, states, steps, k, HandleAppendReply(m)) && m.AppendRep? && m.ar.success
    requires m.dst < n && Leads(states[k], m.src, m.aa.term) && Leads(states[k + 1], m.src, m.aa.term)
    ensures var s, s' := states[k].servers[m.src], states[k + 1].servers[m.src];
            && m.dst < |s.nextIndex| && m.dst < |s.matchIndex|
            && s'.matchIndex == s.matchIndex[m.dst := Max(s.matchIndex[m.dst], |m.full|)]
            && s'.nextIndex == s.nextIndex[m.dst := |m.full| + 1]
            && s' == s.(matchIndex := s'.matchIndex, nextIndex := s'.nextIndex, commitIndex := s'.commitIndex)
  {
    hide Inv, CommitPoint;
    TakenStep(n, states, steps, k);
    SentLength(states[k], m);
  }

  lemma SentLength(c: Cluster, m: Msg)
    requires Inv(c) && m in c.net && m.AppendRep?
    ensures m.aa.prevIndex + |m.aa.entries| == |m.full|
  {
    hide HistoryOK, ServersOK, HintOK;
    assert MsgOK(|c.servers|, c.history, m);
  }

  // ---------------------------------------------------------------- snapshots

  /** Exactly when a snapshot is installed, and everything it does. */
  lemma InstallsExactly(n: nat, states: seq<Cluster>, steps: seq<Step>, k: nat, m: Msg) returns (r: SnapReply)
    requires Takes(n, states, steps, k, HandleInstall(m))
    ensures m.SnapReq? && |states[k].servers| == |states[k + 1].servers| == |states[k].vlogs| == |states[k + 1].vlogs|
    ensures m.dst < |states[k].servers| && SnapRep(m.src, m.dst, m.sa, m.full, r) in states[k + 1].net
    ensures var s, s', v, v', a := states[k].servers[m.dst], states[k + 1].servers[m.dst],
                                   states[k].vlogs[m.dst], states[k + 1].vlogs[m.dst], m.sa;
            && (a.term < s.currentTerm ==> s' == s && v' == v && r.term == s.currentTerm)
            && (a.term >= s.currentTerm ==>
                  && s'.currentTerm == a.term && s'.role == Follower && s'.InSync()
                  && s'.votedFor == if a.term > s.currentTerm then NOBODY else s.votedFor)
            && (a.term >= s.currentTerm && a.lastIndex <= s.snapIndex ==>
                  && v' == v && s'.log == s.log && s'.snapIndex == s.snapIndex && s'.snapTerm == s.snapTerm
                  && s'.commitIndex == s.commitIndex && s'.lastApplied == s.lastApplied && r.term == s.currentTerm)
            && (a.term >= s.currentTerm && a.lastIndex > s.snapIndex ==>
                  && v' == m.full && |v'| == a.lastIndex && s'.snapIndex == a.lastIndex && s'.log == []
                  && s'.snapTerm == TermAt(m.full, a.lastIndex)
                  && s'.commitIndex == Max(s.commitIndex, a.lastIndex)
                  && s'.lastApplied == Max(s.lastApplied, a.lastIndex) && r.term == a.term)
  {
    hide Inv;
    TakenStep(n, states, steps, k);
    LogFacts(states[k], m.dst);
    SnapLength(states[k], m);
    r := OnInstall(states[k].servers[m.dst], m.sa).1;
  }

  lemma SnapLength(c: Cluster, m: Msg)
    requires Inv(c) && m in c.net && (m.SnapReq? || m.SnapRep?)
    ensures m.sa.lastIndex == |m.full| && m.sa.lastTerm == TermAt(m.full, |m.full|)
  {
    hide HistoryOK, ServersOK;
    assert MsgOK(|c.servers|, c.history, m);
  }

  /** An acknowledged snapshot: the peer is known to hold it and is sent what follows it, unless it was ahead
      already. So a leader that has not compacted further answers with entries, not with another snapshot. */
  lemma SnapshotAckMoves(n: nat, states: seq<Cluster>, steps: seq<Step>, k: nat, m: Msg)
    requires Takes(n, states, steps, k, HandleInstallReply(m)) && m.SnapRep? && m.sr.term == m.sa.term
    requires m.dst < n && Leads(states[k], m.src, m.sa.term) && Leads(states[k + 1], m.src, m.sa.term)
    ensures var s, s' := states[k].servers[m.src], states[k + 1].servers[m.src];
            && m.dst < |s.nextIndex| && m.dst < |s.matchIndex|
            && s'.matchIndex == s.matchIndex[m.dst := Max(s.matchIndex[m.dst], |m.full|)]
            && s'.nextIndex == s.nextIndex[m.dst := Max(s.nextIndex[m.dst], |m.full| + 1)]
            && s' == s.(matchIndex := s'.matchIndex, nextIndex := s'.nextIndex, commitIndex := s'.commitIndex)
            && (s.snapIndex <= |m.full| ==> InRange(s', m.dst))
  {
    hide CommitPoint, HistoryOK, LogOK, VoteOK, NotAhead, CandidateOK, TermsWithin;
    TakenStep(n, states, steps, k);
    SnapLength(states[k], m);
    LeaderIndexSafety(n, states, steps, k + 1, m.src, m.dst);
  }

  /** Exactly when the log is compacted, and everything it does: the whole log stays what it was, and only
      what is behind the index is still held. */
  lemma CompactsExactly(n: nat, states: seq<Cluster>, steps: seq<Step>, k: nat, i: nat, index: nat)
    requires Takes(n, states, steps, k, Compact(i, index))
    ensures |states[k].servers| == |states[k + 1].servers| == |states[k].vlogs| && i < |states[k].servers|
    ensures states[k + 1].vlogs == states[k].vlogs
    ensures var s, s', v := states[k].servers[i], states[k + 1].servers[i], states[k].vlogs[i];
            if s.snapIndex < index <= s.lastApplied
            then
              && s'.snapIndex == index <= |v| && s'.log == v[index..] && s'.snapTerm == TermAt(v, index) && s'.InSync()
              && s' == s.(snapIndex := s'.snapIndex, snapTerm := s'.snapTerm, log := s'.log, disk := s'.disk)
            else s' == s
  {
    hide Inv;
    TakenStep(n, states, steps, k);
    LogFacts(states[k], i);
    var s, v := states[k].servers[i], states[k].vlogs[i];
    if s.snapIndex < index <= s.lastApplied {
      assert v[s.snapIndex..][index - s.snapIndex..] == v[index..];
    }
  }

  // ---------------------------------------------------------------- starting, applying, restarting, ignoring

  /** Start puts the command at the end of the leader's log, in its term, and counts the leader as holding it. */
  lemma StartAppends(n: nat, states: seq<Cluster>, steps: seq<Step>, k: nat, i: nat, command: Command)
    requires Takes(n, states, steps, k, Step.Start(i, command))
    ensures |states[k].servers| == |states[k + 1].servers| == |states[k].vlogs| == |states[k + 1].vlogs|
    ensures i < |states[k].servers|
    ensures var s, s', v := states[k].servers[i], states[k + 1].servers[i], states[k].vlogs[i];
            && states[k + 1].vlogs[i] == v + [Entry(s.currentTerm, command)]
            && s'.log == s.log + [Entry(s.currentTerm, command)] && s'.InSync()
            && i < |s.matchIndex| && s'.matchIndex == s.matchIndex[i := |v| + 1]
            && s' == s.(log := s'.log, matchIndex := s'.matchIndex, disk := s'.disk)
  {
    hide Inv;
    TakenStep(n, states, steps, k);
    LogFacts(states[k], i);
  }

  /** BackgroundApplyRoutine hands over the entry behind the last applied one. */
  lemma AppliesNext(n: nat, states: seq<Cluster>, steps: seq<Step>, k: nat, i: nat)
    requires Takes(n, states, steps, k, Apply(i))
    ensures |states[k].servers| == |states[k + 1].servers| == |states[k].vlogs| && i < |states[k].servers|
    ensures var s, s', v := states[k].servers[i], states[k + 1].servers[i], states[k].vlogs[i];
            && s.lastApplied < s.commitIndex && s.lastApplied < |v|
            && s' == s.(lastApplied := s.lastApplied + 1)
            && states[k + 1].delivered ==
               states[k].delivered + {Delivery(i, s.lastApplied + 1, v[s.lastApplied].command)}
  {
    hide Inv;
    TakenStep(n, states, steps, k);
    LogFacts(states[k], i);
  }

  /** A restarted server follows, in the term and with the vote and log it had, and applies again from its
      snapshot on. */
  lemma RestartFollows(n: nat, states: seq<Cluster>, steps: seq<Step>, k: nat, i: nat)
    requires Takes(n, states, steps, k, Restart(i))
    ensures |states[k].servers| == |states[k + 1].servers| && i < |states[k].servers|
    ensures states[k + 1].vlogs == states[k].vlogs
    ensures var s, s' := states[k].servers[i], states[k + 1].servers[i];
            && s'.role == Follower && s'.Saved() == s.Saved() && s'.InSync()
            && s'.lastApplied == s'.commitIndex == s.snapIndex
  {
    hide Inv;
    TakenStep(n, states, steps, k);
    LogFacts(states[k], i);
  }

  /** A reply changes nothing when its server has left the term or the office it asked in, or when it is of no
      newer term and brings neither a vote nor news. */
  lemma StaleRepliesIgnored(n: nat, states: seq<Cluster>, steps: seq<Step>, k: nat, m: Msg)
    requires IsRun(n, states, steps) && k < |steps| && m.src < |states[k].servers|
    requires var s := states[k].servers[m.src];
             || (m.VoteRep? && steps[k] == HandleVoteReply(m)
                 && (s.role != Candidate || s.currentTerm != m.va.term
                     || (m.vr.term <= s.currentTerm && !m.vr.granted)))
             || (m.AppendRep? && steps[k] == HandleAppendReply(m)
                 && (s.role != Leader || s.currentTerm != m.aa.term))
             || (m.SnapRep? && steps[k] == HandleInstallReply(m)
                 && (s.role != Leader || s.currentTerm != m.sa.term || m.sr.term < s.currentTerm))
    ensures m.src < |states[k + 1].servers| && states[k + 1].servers == states[k].servers
  {
    hide Inv, AdvanceCommit, BackUp;
    TakenStep(n, states, steps, k);
  }
}
