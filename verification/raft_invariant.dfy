/** The inductive invariant of the cluster, with no hypothesis on the network, and the facts about
    logs it rests on. */
module RaftInvariant {
  import opened RaftTypes
  import opened RaftSteps
  import opened RaftCluster

  // ---------------------------------------------------------------- logs

  /** The entry at offset `k` was written by the leader of its term, after exactly the same entries. */
  ghost predicate EntryOK(h: History, log: seq<Entry>, k: nat)
    requires k < |log|
  {
    log[k].term in h.reigns && Agree(log, h.reigns[log[k].term].log, k + 1)
  }

  ghost predicate LogOK(h: History, log: seq<Entry>) {
    forall k: nat :: k < |log| ==> EntryOK(h, log, k)
  }

  ghost predicate TermsWithin(log: seq<Entry>, lo: int, hi: int) {
    forall k :: 0 <= k < |log| ==> lo <= log[k].term <= hi
  }

  // ---------------------------------------------------------------- history

  ghost predicate Votes(h: History, voters: set<nat>, term: nat, candidate: nat) {
    forall v :: v in voters ==> Slot(v, term) in h.ballots && h.ballots[Slot(v, term)].candidate == candidate
  }

  ghost predicate Within(voters: set<nat>, n: nat) {
    forall v :: v in voters ==> v < n
  }

  ghost predicate ReignOK(n: nat, h: History, t: nat)
    requires t in h.reigns
  {
    var r := h.reigns[t];
    && t >= 1
    && r.leader < n
    && LogOK(h, r.log)
    && IsPrefix(r.base, r.log)
    && TermsWithin(r.base, 1, t - 1)
    && (forall k :: |r.base| <= k < |r.log| ==> r.log[k].term == t)
    && Slot(r.leader, t) in h.bids && h.bids[Slot(r.leader, t)] == r.base
    && Within(r.quorum, n) && |r.quorum| > n / 2
    && Votes(h, r.quorum, t, r.leader)
  }

  ghost predicate BallotOK(n: nat, h: History, slot: Slot)
    requires slot in h.ballots
  {
    var b := h.ballots[slot];
    && slot.server < n && b.candidate < n
    && LogOK(h, b.log)
    && Slot(b.candidate, slot.term) in h.bids
    && var bid := h.bids[Slot(b.candidate, slot.term)];
    UpToDate(TermAt(bid, |bid|), |bid|, TermAt(b.log, |b.log|), |b.log|)
  }

  ghost predicate BidOK(h: History, slot: Slot)
    requires slot in h.bids
  {
    slot.term >= 1 && LogOK(h, h.bids[slot]) && TermsWithin(h.bids[slot], 1, slot.term - 1)
  }

  ghost predicate AckOK(n: nat, h: History, a: Ack) {
    a.server < n && a.term in h.reigns && a.length <= |h.reigns[a.term].log|
  }

  ghost predicate HistoryOK(n: nat, h: History) {
    && (forall t :: t in h.reigns ==> ReignOK(n, h, t))
    && (forall slot :: slot in h.ballots ==> BallotOK(n, h, slot))
    && (forall slot :: slot in h.bids ==> BidOK(h, slot))
    && (forall a :: a in h.acks ==> AckOK(n, h, a))
  }

  // ---------------------------------------------------------------- servers

  /** The real log is the tail of the virtual log, and the snapshot term is the term at the cut. */
  ghost predicate Retained(s: Server, vlog: seq<Entry>) {
    && s.snapIndex <= |vlog|
    && s.log == vlog[s.snapIndex..]
    && s.snapTerm == TermAt(vlog, s.snapIndex)
  }

  /** The durable vote is the ballot of this term, and nothing in history is ahead of this term. */
  ghost predicate VoteOK(n: nat, h: History, s: Server) {
    && (s.votedFor == NOBODY <==> Slot(s.me, s.currentTerm) !in h.ballots)
    && (s.votedFor != NOBODY ==> h.ballots[Slot(s.me, s.currentTerm)].candidate == s.votedFor)
  }

  ghost predicate NotAhead(h: History, s: Server) {
    && (forall slot :: slot in h.ballots && slot.server == s.me ==> slot.term <= s.currentTerm)
    && (forall slot :: slot in h.bids && slot.server == s.me ==> slot.term <= s.currentTerm)
    && (forall a :: a in h.acks && a.server == s.me ==> a.term <= s.currentTerm)
    && (forall t :: t in h.reigns && h.reigns[t].leader == s.me ==>
          t < s.currentTerm || (t == s.currentTerm && s.role != Candidate))
  }

  ghost predicate CandidateOK(n: nat, h: History, s: Server, vlog: seq<Entry>, tally: set<nat>,
                              answered: set<VoteCall>) {
    && Slot(s.me, s.currentTerm) in h.bids && h.bids[Slot(s.me, s.currentTerm)] == vlog
    && |tally| == s.votes && s.me in tally && Within(tally, n)
    && Votes(h, tally, s.currentTerm, s.me)
    && forall v :: v in tally && v != s.me ==> VoteCall(s.me, v, s.currentTerm) in answered
  }

  /** Leader index safety: every slice of `Start` and `ticker` is in range. */
  ghost predicate IndicesOK(s: Server) {
    && (forall p :: 0 <= p < |s.nextIndex| ==> 1 <= s.nextIndex[p] <= s.LastIndex() + 1)
    && (forall p :: 0 <= p < |s.matchIndex| ==> s.matchIndex[p] <= s.LastIndex())
    && s.me < |s.matchIndex| && s.matchIndex[s.me] == s.LastIndex()
  }

  ghost predicate LeaderOK(n: nat, h: History, s: Server, vlog: seq<Entry>) {
    && s.currentTerm in h.reigns
    && h.reigns[s.currentTerm].leader == s.me
    && h.reigns[s.currentTerm].log == vlog
    && IndicesOK(s)
    && forall p: nat :: p < |s.matchIndex| && s.matchIndex[p] > 0 ==> Ack(p, s.currentTerm, s.matchIndex[p]) in h.acks
  }

  ghost predicate ServerOK(n: nat, h: History, i: nat, s: Server, vlog: seq<Entry>, tally: set<nat>,
                           answered: set<VoteCall>) {
    && s.me == i < n && s.peers == n == |s.nextIndex| == |s.matchIndex|
    && s.InSync()
    && Retained(s, vlog)
    && s.snapIndex <= s.lastApplied <= s.commitIndex
    && LogOK(h, vlog) && TermsWithin(vlog, 1, s.currentTerm)
    && VoteOK(n, h, s) && NotAhead(h, s)
    && (s.role == Candidate ==> CandidateOK(n, h, s, vlog, tally, answered))
    && (s.role == Leader ==> LeaderOK(n, h, s, vlog))
  }

  // ---------------------------------------------------------------- messages

  ghost predicate VoteReqOK(n: nat, h: History, src: nat, dst: nat, a: VoteArgs) {
    && src < n && dst < n && src != dst && a.candidate == src
    && Slot(src, a.term) in h.bids
    && var bid := h.bids[Slot(src, a.term)];
    a.lastIndex == |bid| && a.lastTerm == TermAt(bid, |bid|)
  }

  ghost predicate AppendReqOK(n: nat, h: History, src: nat, dst: nat, a: AppendArgs, full: seq<Entry>) {
    && src < n && dst < n && src != dst
    && a.term in h.reigns && h.reigns[a.term].leader == src
    && IsPrefix(full, h.reigns[a.term].log) && |h.reigns[a.term].base| <= |full|
    && a.prevIndex <= |full| && a.entries == full[a.prevIndex..]
    && a.prevTerm == TermAt(full, a.prevIndex)
  }

  /** What a rejection tells a leader that is still in the term of its request. */
  ghost predicate HintOK(h: History, a: AppendArgs, r: AppendReply) {
    r.term <= a.term ==>
      if r.xTerm == -1 then 1 <= r.xLen <= a.prevIndex
      else if r.xTerm <= 0 then r.xTerm == 0 && r.xIndex == 0
      else
        && 1 <= r.xIndex <= a.prevIndex && r.xTerm != a.prevTerm
        && r.xTerm in h.reigns && a.prevIndex <= |h.reigns[r.xTerm].log|
        && h.reigns[r.xTerm].log[a.prevIndex - 1].term == r.xTerm
  }

  ghost predicate SnapReqOK(n: nat, h: History, src: nat, dst: nat, a: SnapArgs, full: seq<Entry>) {
    && src < n && dst < n && src != dst
    && a.term in h.reigns && h.reigns[a.term].leader == src
    && IsPrefix(full, h.reigns[a.term].log)
    && a.lastIndex == |full| && a.lastTerm == TermAt(full, |full|)
  }

  ghost predicate MsgOK(n: nat, h: History, m: Msg) {
    match m
    case VoteReq(src, dst, a) => VoteReqOK(n, h, src, dst, a)
    case VoteRep(src, dst, a, r) =>
      VoteReqOK(n, h, src, dst, a) && (r.granted ==> Votes(h, {dst}, a.term, src))
    case AppendReq(src, dst, a, full) => AppendReqOK(n, h, src, dst, a, full)
    case AppendRep(src, dst, a, full, r) =>
      && AppendReqOK(n, h, src, dst, a, full)
      && (r.success ==> Ack(dst, a.term, |full|) in h.acks)
      && (!r.success ==> HintOK(h, a, r))
    case SnapReq(src, dst, a, full) => SnapReqOK(n, h, src, dst, a, full)
    case SnapRep(src, dst, a, full, r) =>
      && SnapReqOK(n, h, src, dst, a, full)
      && (r.term == a.term ==> Ack(dst, a.term, a.lastIndex) in h.acks)
  }

  ghost predicate ServersOK(c: Cluster)
    requires |c.servers| == |c.vlogs| == |c.tallies|
  {
    forall i: nat :: i < |c.servers| ==>
      ServerOK(|c.servers|, c.history, i, c.servers[i], c.vlogs[i], c.tallies[i], c.answered)
  }

  ghost predicate Inv(c: Cluster) {
    && WellFormed(c)
    && HistoryOK(|c.servers|, c.history)
    && ServersOK(c)
    && (forall m :: m in c.net ==> MsgOK(|c.servers|, c.history, m))
  }

  // ---------------------------------------------------------------- facts about logs

  /** Log Matching, for any two logs that history accounts for. */
  lemma MatchingTerms(h: History, v: seq<Entry>, w: seq<Entry>, k: nat)
    requires LogOK(h, v) && LogOK(h, w)
    requires k < |v| && k < |w| && v[k].term == w[k].term
    ensures Agree(v, w, k + 1)
  {
    assert EntryOK(h, v, k) && EntryOK(h, w, k);
  }

  lemma PrefixLogOK(h: History, w: seq<Entry>, v: seq<Entry>)
    requires IsPrefix(w, v) && LogOK(h, v)
    ensures LogOK(h, w)
  {
    forall k: nat | k < |w| ensures EntryOK(h, w, k) {
      assert EntryOK(h, v, k);
    }
  }

  lemma ExtendLogOK(h: History, v: seq<Entry>, w: seq<Entry>)
    requires IsPrefix(v, w) && LogOK(h, v)
    requires forall k: nat :: |v| <= k < |w| ==> EntryOK(h, w, k)
    ensures LogOK(h, w)
  {
    forall k: nat | k < |w| ensures EntryOK(h, w, k) {
      if k < |v| { assert EntryOK(h, v, k); }
    }
  }

  /** The terms of a log never decrease. */
  lemma TermsSorted(n: nat, h: History, v: seq<Entry>, j: nat, k: nat)
    requires HistoryOK(n, h) && LogOK(h, v)
    requires j <= k < |v|
    ensures v[j].term <= v[k].term
  {
    assert EntryOK(h, v, k);
    var r := h.reigns[v[k].term];
    assert ReignOK(n, h, v[k].term);
    if j < |r.base| { assert r.base[j] == r.log[j]; }
  }

  // ---------------------------------------------------------------- how history grows

  ghost predicate SameReign(r: Reign, r': Reign) {
    r.leader == r'.leader && r.base == r'.base && r.quorum == r'.quorum && IsPrefix(r.log, r'.log)
  }

  /** A step of server `i` only adds to history, and only to its own part of it. */
  ghost predicate Grows(h: History, h': History, i: nat) {
    && (forall t :: t in h.reigns ==> t in h'.reigns && SameReign(h.reigns[t], h'.reigns[t])
                                      && (h.reigns[t].leader != i ==> h.reigns[t] == h'.reigns[t]))
    && (forall t :: t in h'.reigns && t !in h.reigns ==> h'.reigns[t].leader == i)
    && (forall slot :: slot in h.ballots ==> slot in h'.ballots && h'.ballots[slot] == h.ballots[slot])
    && (forall slot :: slot in h'.ballots && slot !in h.ballots ==> slot.server == i)
    && (forall slot :: slot in h.bids ==> slot in h'.bids && h'.bids[slot] == h.bids[slot])
    && (forall slot :: slot in h'.bids && slot !in h.bids ==> slot.server == i)
    && h.acks <= h'.acks
    && (forall a :: a in h'.acks && a !in h.acks ==> a.server == i)
  }

  lemma GrowsLogOK(h: History, h': History, i: nat, v: seq<Entry>)
    requires Grows(h, h', i) && LogOK(h, v)
    ensures LogOK(h', v)
  {
    forall k: nat | k < |v| ensures EntryOK(h', v, k) {
      assert EntryOK(h, v, k);
    }
  }

  lemma GrowsMsgOK(n: nat, h: History, h': History, i: nat, m: Msg)
    requires Grows(h, h', i) && MsgOK(n, h, m)
    ensures MsgOK(n, h', m)
  {
    match m
    case VoteReq(src, dst, a) =>
    case VoteRep(src, dst, a, r) =>
    case AppendReq(src, dst, a, full) =>
    case AppendRep(src, dst, a, full, r) => assert r.success || HintOK(h', a, r);
    case SnapReq(src, dst, a, full) =>
    case SnapRep(src, dst, a, full, r) =>
  }

  /** A server that does not move keeps its invariant while another one does. */
  lemma GrowsServerOK(n: nat, h: History, h': History, i: nat, j: nat, s: Server, v: seq<Entry>,
                      tally: set<nat>, answered: set<VoteCall>, answered': set<VoteCall>)
    requires Grows(h, h', i) && ServerOK(n, h, j, s, v, tally, answered) && i != j
    requires answered <= answered'
    ensures ServerOK(n, h', j, s, v, tally, answered')
  {
    GrowsLogOK(h, h', i, v);
  }
}
