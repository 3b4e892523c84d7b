/** Leader Completeness and State Machine Safety (sections 5.4.2 and 5.4.3 of the extended Raft
    paper), for runs in which no late request cuts a follower's log short.

    The hypothesis is needed: AppendEntries drops everything behind `PrevLogIndex` even when nothing
    conflicts (src/raft/raft.go:415-422), and InstallSnapshot drops the whole log
    (src/raft/raft.go:167). `RaftCounterexample` has a run that breaks safety without it. */
module RaftSafety {
  import opened Collections
  import opened RaftTypes
  import opened RaftSteps
  import opened RaftCluster
  import opened RaftInvariant
  import opened RaftPreservation
  import opened RaftTheorems

  /** No accepted request cuts off what its follower shares with the sender: an append ends no earlier
      than any append acknowledged in its term, and a snapshot that is installed covers everything the
      follower's log has in common with that of the leader. */
  ghost predicate Orderly(c: Cluster, step: Step)
    requires WellFormed(c) && Enabled(c, step)
  {
    match step
    case HandleAppend(m) =>
      m.aa.term >= c.servers[m.dst].currentTerm && Matches(c.servers[m.dst], m.aa) ==>
        forall a :: a in c.history.acks && a.server == m.dst && a.term == m.aa.term ==>
          a.length <= m.aa.prevIndex + |m.aa.entries|
    case HandleInstall(m) =>
      Installs(c.servers[m.dst], m.sa) ==> Covers(c.history, c.vlogs[m.dst], m.sa)
    case _ => true
  }

  /** Whatever `v` shares with the log of the sender of a snapshot lies within the snapshot. */
  ghost predicate Covers(h: History, v: seq<Entry>, a: SnapArgs) {
    a.term in h.reigns && forall k: nat :: Agree(v, h.reigns[a.term].log, k) ==> k <= a.lastIndex
  }

  ghost predicate OrderlyStep(c: Cluster, step: Step) {
    WellFormed(c) && Enabled(c, step) && Orderly(c, step)
  }

  ghost predicate IsOrderlyRun(n: nat, states: seq<Cluster>, steps: seq<Step>) {
    && IsRun(n, states, steps)
    && forall k {:trigger steps[k]} :: 0 <= k < |steps| ==> OrderlyStep(states[k], steps[k])
  }

  // ---------------------------------------------------------------- what is chosen

  /** The servers that acknowledged the first `m` entries of the leader of term `t`. */
  ghost function Ackers(h: History, t: nat, m: nat): set<nat> {
    set a | a in h.acks && a.term == t && a.length >= m :: a.server
  }

  /** A majority acknowledged the first `m` entries of the leader of term `t`, the last of which it
      wrote itself. */
  ghost predicate Chosen(n: nat, h: History, t: nat, m: nat) {
    && t in h.reigns && 1 <= m <= |h.reigns[t].log|
    && h.reigns[t].log[m - 1].term == t
    && |Ackers(h, t, m)| > n / 2
  }

  /** The first `length` entries of `log` are part of the chosen log (t, m). */
  ghost predicate Backed(n: nat, h: History, log: seq<Entry>, length: nat, t: nat, m: nat) {
    Chosen(n, h, t, m) && length <= m && Agree(log, h.reigns[t].log, length)
  }

  /** The first `length` entries of `log` were chosen in term `hi` or before. */
  ghost predicate Committed(n: nat, h: History, log: seq<Entry>, length: nat, hi: nat) {
    length == 0 || exists t: nat, m: nat :: t <= hi && Backed(n, h, log, length, t, m)
  }

  // ---------------------------------------------------------------- what acknowledgements promise

  /** Some leader between term `t` and term `hi` was elected without the first `k` entries of `t`. */
  ghost predicate Lost(h: History, t: nat, k: nat, hi: nat)
    requires t in h.reigns
  {
    exists u :: t < u < hi && u in h.reigns && !Agree(h.reigns[t].log, h.reigns[u].base, k)
  }

  /** Whatever was acknowledged is still in `log`, unless a leader before term `hi` lacked it. */
  ghost predicate Held(h: History, log: seq<Entry>, a: Ack, hi: nat) {
    a.term in h.reigns && forall k: nat :: k <= a.length ==>
      Agree(h.reigns[a.term].log, log, k) || Lost(h, a.term, k, hi)
  }

  ghost predicate ServerSafe(n: nat, h: History, s: Server, v: seq<Entry>) {
    && (forall a :: a in h.acks && a.server == s.me ==> Held(h, v, a, s.currentTerm + 1))
    && s.commitIndex <= |v| && Committed(n, h, v, s.commitIndex, s.currentTerm)
  }

  /** The vote may have helped to elect the leader of its term. */
  ghost predicate MayElect(h: History, slot: Slot) {
    slot.term !in h.reigns || slot.server in h.reigns[slot.term].quorum
  }

  ghost predicate BallotSafe(h: History, slot: Slot)
    requires slot in h.ballots
  {
    MayElect(h, slot) ==>
      forall a :: a in h.acks && a.server == slot.server && a.term < slot.term ==>
        Held(h, h.ballots[slot].log, a, slot.term)
  }

  ghost predicate MsgSafe(n: nat, h: History, m: Msg) {
    match m
    case AppendReq(_, _, a, full) => a.leaderCommit <= |full| && Committed(n, h, full, a.leaderCommit, a.term)
    case SnapReq(_, _, a, full) => Committed(n, h, full, |full|, a.term)
    case _ => true
  }

  ghost predicate Delivers(n: nat, h: History, d: Delivery, t: nat, m: nat) {
    Chosen(n, h, t, m) && 1 <= d.index <= m && h.reigns[t].log[d.index - 1].command == d.command
  }

  ghost predicate DeliverySafe(n: nat, h: History, d: Delivery) {
    exists t: nat, m: nat :: Delivers(n, h, d, t, m)
  }

  ghost predicate BallotsSafe(h: History) {
    forall slot :: slot in h.ballots ==> BallotSafe(h, slot)
  }

  ghost predicate SafeInv(c: Cluster) {
    && Inv(c)
    && BallotsSafe(c.history)
    && (forall i: nat :: i < |c.servers| ==> ServerSafe(|c.servers|, c.history, c.servers[i], c.vlogs[i]))
    && (forall m :: m in c.net ==> MsgSafe(|c.servers|, c.history, m))
    && (forall d :: d in c.delivered ==> DeliverySafe(|c.servers|, c.history, d))
  }

  // ---------------------------------------------------------------- Leader Completeness

  /** A log at least as up-to-date as one that holds the first `m` entries of term `t`, whose last
      entry was written before term `hi`, holds them too, if every leader in between does. */
  lemma UpToDateHolds(n: nat, h: History, t: nat, m: nat, w: seq<Entry>, base: seq<Entry>, hi: nat)
    requires HistoryOK(n, h) && LogOK(h, w) && LogOK(h, base) && TermsWithin(base, 1, hi - 1)
    requires t in h.reigns && 1 <= m <= |h.reigns[t].log| && h.reigns[t].log[m - 1].term == t
    requires Agree(h.reigns[t].log, w, m)
    requires UpToDate(TermAt(base, |base|), |base|, TermAt(w, |w|), |w|)
    requires forall u :: t < u < hi && u in h.reigns ==> Agree(h.reigns[t].log, h.reigns[u].base, m)
    ensures Agree(h.reigns[t].log, base, m)
  {
    hide HistoryOK, LogOK;
    assert w[m - 1].term == t;
    TermsSorted(n, h, w, m - 1, |w| - 1);
    TermsReal(n, h, w, m - 1);
    var last := TermAt(base, |base|);
    assert |base| > 0;
    LastEntry(n, h, base);
    if last == TermAt(w, |w|) {
      LastEntry(n, h, w);
    } else {
      assert t < last < hi;
      BaseShorter(n, h, base, last);
    }
  }

  lemma TermsReal(n: nat, h: History, w: seq<Entry>, k: nat)
    requires HistoryOK(n, h) && LogOK(h, w) && k < |w|
    ensures w[k].term >= 1
  {
    assert EntryOK(h, w, k);
    assert ReignOK(n, h, w[k].term);
  }

  lemma LastEntry(n: nat, h: History, w: seq<Entry>)
    requires HistoryOK(n, h) && LogOK(h, w) && |w| > 0
    ensures TermAt(w, |w|) in h.reigns && IsPrefix(w, h.reigns[TermAt(w, |w|)].log)
  {
    assert EntryOK(h, w, |w| - 1);
  }

  /** A log that ends with an entry of term `t` extends the log the leader of `t` was elected with. */
  lemma BaseShorter(n: nat, h: History, w: seq<Entry>, t: nat)
    requires HistoryOK(n, h) && |w| > 0 && t in h.reigns && IsPrefix(w, h.reigns[t].log) && w[|w| - 1].term == t
    ensures IsPrefix(h.reigns[t].base, w)
  {
    assert ReignOK(n, h, t);
    var r := h.reigns[t];
    assert forall k :: 0 <= k < |r.base| ==> r.base[k].term < t && r.base[k] == r.log[k];
  }

  /** Leader Completeness: a chosen entry is in the log of the leader of every later term. */
  lemma {:induction false} LeaderCompleteness(n: nat, h: History, t: nat, m: nat, u: nat)
    requires HistoryOK(n, h) && BallotsSafe(h)
    requires Chosen(n, h, t, m) && u in h.reigns && t < u
    ensures Agree(h.reigns[t].log, h.reigns[u].base, m)
    decreases u
  {
    hide HistoryOK, LogOK;
    forall x | t < x < u && x in h.reigns
      ensures Agree(h.reigns[t].log, h.reigns[x].base, m)
    {
      LeaderCompleteness(n, h, t, m, x);
    }
    var v := SharedVoter(n, h, t, m, u);
    ElectorHolds(n, h, t, m, u, v);
    ElectorCompares(n, h, u, v);
    UpToDateHolds(n, h, t, m, h.ballots[Slot(v, u)].log, h.reigns[u].base, u);
  }

  /** Somebody acknowledged the chosen entry and helped to elect the later leader. */
  lemma SharedVoter(n: nat, h: History, t: nat, m: nat, u: nat) returns (v: nat)
    requires HistoryOK(n, h) && Chosen(n, h, t, m) && u in h.reigns
    ensures v in Ackers(h, t, m) && v in h.reigns[u].quorum && Slot(v, u) in h.ballots
  {
    hide LogOK;
    assert ReignOK(n, h, u);
    QuorumsMeet(n, Ackers(h, t, m), h.reigns[u].quorum);
    v :| v in Ackers(h, t, m) && v in h.reigns[u].quorum;
  }

  lemma ElectorHolds(n: nat, h: History, t: nat, m: nat, u: nat, v: nat)
    requires BallotsSafe(h) && t in h.reigns && u in h.reigns && t < u
    requires v in Ackers(h, t, m) && v in h.reigns[u].quorum && Slot(v, u) in h.ballots
    requires forall x :: t < x < u && x in h.reigns ==> Agree(h.reigns[t].log, h.reigns[x].base, m)
    ensures Agree(h.reigns[t].log, h.ballots[Slot(v, u)].log, m)
  {
    assert BallotSafe(h, Slot(v, u));
    var a :| a in h.acks && a.term == t && a.length >= m && a.server == v;
    assert Held(h, h.ballots[Slot(v, u)].log, a, u);
  }

  lemma ElectorCompares(n: nat, h: History, u: nat, v: nat)
    requires HistoryOK(n, h) && u in h.reigns && v in h.reigns[u].quorum && Slot(v, u) in h.ballots
    ensures var base, w := h.reigns[u].base, h.ballots[Slot(v, u)].log;
            && UpToDate(TermAt(base, |base|), |base|, TermAt(w, |w|), |w|)
            && LogOK(h, w) && LogOK(h, base) && TermsWithin(base, 1, u - 1)
  {
    hide LogOK;
    assert ReignOK(n, h, u);
    assert BallotOK(n, h, Slot(v, u));
    PrefixLogOK(h, h.reigns[u].base, h.reigns[u].log);
  }

  /** Any two chosen logs agree as far as the shorter goes. */
  lemma ChosenAgree(n: nat, h: History, t: nat, m: nat, u: nat)
    requires HistoryOK(n, h) && BallotsSafe(h) && Chosen(n, h, t, m) && u in h.reigns && t <= u
    ensures Agree(h.reigns[t].log, h.reigns[u].log, m)
  {
    hide LogOK, BallotsSafe;
    if t < u {
      LeaderCompleteness(n, h, t, m, u);
      assert ReignOK(n, h, u);
    }
  }

  /** What was committed by term `hi` is in the log of the leader of every term from `hi` on. */
  lemma CommittedInReign(n: nat, h: History, w: seq<Entry>, length: nat, hi: nat, u: nat)
    requires HistoryOK(n, h) && BallotsSafe(h) && Committed(n, h, w, length, hi) && u in h.reigns && hi <= u
    ensures Agree(w, h.reigns[u].log, length)
  {
    hide LogOK, BallotsSafe, HistoryOK, Chosen;
    if length > 0 {
      var t: nat, m: nat :| t <= hi && Backed(n, h, w, length, t, m);
      ChosenAgree(n, h, t, m, u);
    }
  }

  // ---------------------------------------------------------------- growth

  lemma AckersGrow(h: History, h': History, t: nat, m: nat)
    requires h.acks <= h'.acks
    ensures Ackers(h, t, m) <= Ackers(h', t, m) && |Ackers(h, t, m)| <= |Ackers(h', t, m)|
  {
    SubsetSize(Ackers(h, t, m), Ackers(h', t, m));
  }

  lemma ChosenGrows(n: nat, h: History, h': History, i: nat, t: nat, m: nat)
    requires Grows(h, h', i) && Chosen(n, h, t, m)
    ensures Chosen(n, h', t, m)
  {
    AckersGrow(h, h', t, m);
  }

  lemma CommittedGrows(n: nat, h: History, h': History, i: nat, w: seq<Entry>, length: nat, hi: nat, hi': nat)
    requires Grows(h, h', i) && Committed(n, h, w, length, hi) && hi <= hi'
    ensures Committed(n, h', w, length, hi')
  {
    hide Chosen;
    if length > 0 {
      var t: nat, m: nat :| t <= hi && Backed(n, h, w, length, t, m);
      BackedGrows(n, h, h', i, w, length, t, m);
    }
  }

  lemma BackedGrows(n: nat, h: History, h': History, i: nat, w: seq<Entry>, length: nat, t: nat, m: nat)
    requires Grows(h, h', i) && Backed(n, h, w, length, t, m)
    ensures Backed(n, h', w, length, t, m)
  {
    ChosenGrows(n, h, h', i, t, m);
  }

  lemma HeldGrows(n: nat, h: History, h': History, i: nat, w: seq<Entry>, a: Ack, hi: nat, hi': nat)
    requires Grows(h, h', i) && AckOK(n, h, a) && Held(h, w, a, hi) && hi <= hi'
    ensures Held(h', w, a, hi')
  {
    forall k: nat | k <= a.length
      ensures Agree(h'.reigns[a.term].log, w, k) || Lost(h', a.term, k, hi')
    {
      if !Agree(h.reigns[a.term].log, w, k) {
        var u :| a.term < u < hi && u in h.reigns && !Agree(h.reigns[a.term].log, h.reigns[u].base, k);
        assert !Agree(h'.reigns[a.term].log, h'.reigns[u].base, k);
      }
    }
  }

  lemma GrowsServerSafe(n: nat, h: History, h': History, i: nat, s: Server, v: seq<Entry>)
    requires HistoryOK(n, h) && Grows(h, h', i) && ServerSafe(n, h, s, v) && s.me != i
    ensures ServerSafe(n, h', s, v)
  {
    hide Held, Committed, ReignOK, BallotOK, BidOK;
    CommittedGrows(n, h, h', i, v, s.commitIndex, s.currentTerm, s.currentTerm);
    forall a | a in h'.acks && a.server == s.me ensures Held(h', v, a, s.currentTerm + 1) {
      assert AckOK(n, h, a);
      HeldGrows(n, h, h', i, v, a, s.currentTerm + 1, s.currentTerm + 1);
    }
  }

  lemma GrowsBallotSafe(n: nat, h: History, h': History, i: nat, slot: Slot)
    requires HistoryOK(n, h) && Grows(h, h', i) && slot in h.ballots && BallotSafe(h, slot)
    requires slot.server == i ==> forall a :: a in h'.acks && a !in h.acks ==> slot.term <= a.term
    ensures BallotSafe(h', slot)
  {
    hide Held, ReignOK, BallotOK, BidOK;
    if MayElect(h', slot) {
      forall a | a in h'.acks && a.server == slot.server && a.term < slot.term
        ensures Held(h', h'.ballots[slot].log, a, slot.term)
      {
        assert AckOK(n, h, a);
        HeldGrows(n, h, h', i, h.ballots[slot].log, a, slot.term, slot.term);
      }
    }
  }

  lemma GrowsMsgSafe(n: nat, h: History, h': History, i: nat, m: Msg)
    requires Grows(h, h', i) && MsgSafe(n, h, m)
    ensures MsgSafe(n, h', m)
  {
    hide Committed, Grows;
    match m
    case AppendReq(_, _, a, full) => CommittedGrows(n, h, h', i, full, a.leaderCommit, a.term, a.term);
    case SnapReq(_, _, a, full) => CommittedGrows(n, h, h', i, full, |full|, a.term, a.term);
    case _ =>
  }

  lemma GrowsDeliverySafe(n: nat, h: History, h': History, i: nat, d: Delivery)
    requires Grows(h, h', i) && DeliverySafe(n, h, d)
    ensures DeliverySafe(n, h', d)
  {
    var t: nat, m: nat :| Delivers(n, h, d, t, m);
    ChosenGrows(n, h, h', i, t, m);
    assert Delivers(n, h', d, t, m);
  }

  /** Only server `i` moved: what is left to prove is about it, its new ballots and new messages. */
  lemma SafeFramed(c: Cluster, c': Cluster, i: nat)
    requires SafeInv(c) && Inv(c') && i < |c.servers| == |c'.servers|
    requires Grows(c.history, c'.history, i)
    requires forall j: nat :: j < |c.servers| && j != i ==> c'.servers[j] == c.servers[j] && c'.vlogs[j] == c.vlogs[j]
    requires ServerSafe(|c.servers|, c'.history, c'.servers[i], c'.vlogs[i])
    requires forall slot :: slot in c'.history.ballots && slot !in c.history.ballots ==> BallotSafe(c'.history, slot)
    requires forall a :: a in c'.history.acks && a !in c.history.acks ==> a.term == c'.servers[i].currentTerm
    requires forall m :: m in c'.net ==> m in c.net || MsgSafe(|c.servers|, c'.history, m)
    requires forall d :: d in c'.delivered ==> d in c.delivered || DeliverySafe(|c.servers|, c'.history, d)
    ensures SafeInv(c')
  {
    hide HistoryOK, ServerOK, ServerSafe, BallotSafe, MsgSafe, DeliverySafe, MsgOK, Grows;
    var n, h, h' := |c.servers|, c.history, c'.history;
    forall j: nat | j < n ensures ServerSafe(n, h', c'.servers[j], c'.vlogs[j]) {
      if j != i { GrowsServerSafe(n, h, h', i, c.servers[j], c.vlogs[j]); }
    }
    forall slot | slot in h'.ballots ensures BallotSafe(h', slot) {
      if slot in h.ballots {
        BallotsNotAhead(c', i);
        BallotKept(h, h', i, slot);
        GrowsBallotSafe(n, h, h', i, slot);
      }
    }
    forall m | m in c'.net ensures MsgSafe(n, h', m) {
      if m in c.net { GrowsMsgSafe(n, h, h', i, m); }
    }
    forall d | d in c'.delivered ensures DeliverySafe(n, h', d) {
      if d in c.delivered { GrowsDeliverySafe(n, h, h', i, d); }
    }
  }

  lemma BallotKept(h: History, h': History, i: nat, slot: Slot)
    requires Grows(h, h', i) && slot in h.ballots
    ensures slot in h'.ballots
  {
  }

  lemma BallotsNotAhead(c: Cluster, i: nat)
    requires Inv(c) && i < |c.servers|
    ensures forall slot :: slot in c.history.ballots && slot.server == i ==> slot.term <= c.servers[i].currentTerm
  {
    hide HistoryOK, MsgOK, LogOK;
    ServerInv(c, i);
  }

  // ---------------------------------------------------------------- steps that leave every log alone

  /** A server whose log, and at most whose term, changes nothing it has promised. */
  lemma SteadyServerSafe(n: nat, h: History, h': History, i: nat, s: Server, s': Server, v: seq<Entry>)
    requires HistoryOK(n, h) && Grows(h, h', i) && ServerSafe(n, h, s, v) && h'.acks == h.acks
    requires s'.me == s.me && s.currentTerm <= s'.currentTerm && s'.commitIndex <= s.commitIndex
    ensures ServerSafe(n, h', s', v)
  {
    hide Held, Committed, ReignOK, BallotOK, BidOK;
    FewerCommitted(n, h, v, s.commitIndex, s.currentTerm, s'.commitIndex);
    CommittedGrows(n, h, h', i, v, s'.commitIndex, s.currentTerm, s'.currentTerm);
    forall a | a in h'.acks && a.server == s'.me ensures Held(h', v, a, s'.currentTerm + 1) {
      assert AckOK(n, h, a);
      HeldGrows(n, h, h', i, v, a, s.currentTerm + 1, s'.currentTerm + 1);
    }
  }

  lemma FewerCommitted(n: nat, h: History, v: seq<Entry>, length: nat, hi: nat, less: nat)
    requires Committed(n, h, v, length, hi) && less <= length
    ensures Committed(n, h, v, less, hi)
  {
    hide Chosen;
    if less > 0 {
      var t: nat, m: nat :| t <= hi && Backed(n, h, v, length, t, m);
      assert Backed(n, h, v, less, t, m);
    }
  }

  /** A vote cast with the voter's log of that moment. */
  lemma NewBallotSafe(n: nat, h: History, h': History, s: Server, v: seq<Entry>, slot: Slot)
    requires HistoryOK(n, h) && ServerSafe(n, h, s, v)
    requires slot.server == s.me && s.currentTerm <= slot.term && slot !in h.ballots
    requires h'.acks == h.acks && h'.reigns == h.reigns && slot in h'.ballots && h'.ballots[slot].log == v
    ensures BallotSafe(h', slot)
  {
    hide LogOK, BallotOK, BidOK, Committed;
    if slot.term in h.reigns { assert ReignOK(n, h, slot.term); }
    if MayElect(h', slot) {
      forall a | a in h'.acks && a.server == slot.server && a.term < slot.term ensures Held(h', v, a, slot.term) {
        assert Held(h, v, a, s.currentTerm + 1);
        forall k: nat | k <= a.length ensures Agree(h.reigns[a.term].log, v, k) || Lost(h', a.term, k, slot.term) {
          if !Agree(h.reigns[a.term].log, v, k) {
            var u :| a.term < u < s.currentTerm + 1 && u in h.reigns
              && !Agree(h.reigns[a.term].log, h.reigns[u].base, k);
            assert u < slot.term;
          }
        }
      }
    }
  }

  lemma TimeoutKeepsSafe(c: Cluster, i: nat)
    requires SafeInv(c) && Enabled(c, Timeout(i))
    ensures SafeInv(DoTimeout(c, i))
  {
    hide ServerOK, ServerSafe, BallotSafe, DeliverySafe, MsgOK, Grows;
    var c' := DoTimeout(c, i);
    TimeoutKeepsInv(c, i);
    var n, h, s, v := |c.servers|, c.history, c.servers[i], c.vlogs[i];
    NoBallotYet(c, i, s.currentTerm + 1);
    SteadyServerSafe(n, h, c'.history, i, s, c'.servers[i], v);
    NewBallotSafe(n, h, c'.history, s, v, Slot(i, s.currentTerm + 1));
    SafeFramed(c, c', i);
  }

  lemma NoBallotYet(c: Cluster, i: nat, t: nat)
    requires Inv(c) && i < |c.servers| && c.servers[i].currentTerm < t
    ensures c.servers[i].me == i && Slot(i, t) !in c.history.ballots
  {
    hide HistoryOK, MsgOK, LogOK;
    ServerInv(c, i);
  }

  lemma VoteFields(s: Server, a: VoteArgs)
    ensures var (s', r) := OnRequestVote(s, a);
            && s'.me == s.me && s.currentTerm <= s'.currentTerm && s'.commitIndex == s.commitIndex
            && (r.granted ==> s'.currentTerm == a.term)
  {
  }

  lemma VoteKeepsSafe(c: Cluster, m: Msg)
    requires SafeInv(c) && Enabled(c, HandleVote(m))
    ensures SafeInv(DoVote(c, m))
  {
    hide ServerOK, ServerSafe, BallotSafe, DeliverySafe, MsgOK, Grows, OnRequestVote;
    var c' := DoVote(c, m);
    VoteKeepsInv(c, m);
    var n, h, i := |c.servers|, c.history, m.dst;
    var s, v := c.servers[i], c.vlogs[i];
    VoteFields(s, m.va);
    SteadyServerSafe(n, h, c'.history, i, s, c'.servers[i], v);
    var slot := Slot(i, m.va.term);
    if slot in c'.history.ballots && slot !in h.ballots {
      NewBallotSafe(n, h, c'.history, s, v, slot);
    }
    SafeFramed(c, c', i);
  }

  // ---------------------------------------------------------------- steps of a leader

  /** Acknowledging its own log: what a leader does when it is elected and when it appends. */
  lemma LeaderServerSafe(n: nat, h: History, h': History, s: Server, s': Server, v: seq<Entry>, v': seq<Entry>)
    requires HistoryOK(n, h) && Grows(h, h', s.me) && ServerSafe(n, h, s, v) && NotAhead(h, s)
    requires s'.me == s.me && s'.currentTerm == s.currentTerm && s'.commitIndex == s.commitIndex
    requires IsPrefix(v, v') && s.currentTerm in h'.reigns && h'.reigns[s.currentTerm].log == v'
    requires h'.acks == h.acks + {Ack(s.me, s.currentTerm, |v'|)}
    ensures ServerSafe(n, h', s', v')
  {
    hide LogOK, ReignOK, BallotOK, BidOK, Committed, Grows;
    CommittedGrows(n, h, h', s.me, v, s.commitIndex, s.currentTerm, s.currentTerm);
    LongerCommitted(n, h', v, v', s.commitIndex, s.currentTerm);
    forall a | a in h'.acks && a.server == s.me ensures Held(h', v', a, s.currentTerm + 1) {
      if a in h.acks {
        assert AckOK(n, h, a);
        HeldGrows(n, h, h', s.me, v, a, s.currentTerm + 1, s.currentTerm + 1);
      }
    }
  }

  lemma LongerCommitted(n: nat, h: History, v: seq<Entry>, v': seq<Entry>, length: nat, hi: nat)
    requires Committed(n, h, v, length, hi) && Agree(v, v', length)
    ensures Committed(n, h, v', length, hi)
  {
    hide Chosen;
    if length > 0 {
      var t: nat, m: nat :| t <= hi && Backed(n, h, v, length, t, m);
      assert Backed(n, h, v', length, t, m);
    }
  }

  lemma VoteReplyFields(s: Server, term: nat, r: VoteReply)
    ensures var s' := OnVoteReply(s, term, r);
            && s'.me == s.me && s.currentTerm <= s'.currentTerm && s'.commitIndex == s.commitIndex
            && (s'.role == Leader ==> s'.currentTerm == s.currentTerm)
  {
  }

  lemma ServerFacts(c: Cluster, i: nat)
    requires Inv(c) && i < |c.servers|
    ensures i < |c.vlogs| && c.servers[i].me == i && NotAhead(c.history, c.servers[i])
    ensures Retained(c.servers[i], c.vlogs[i]) && c.servers[i].InSync()
    ensures c.servers[i].snapIndex <= c.servers[i].lastApplied <= c.servers[i].commitIndex
    ensures c.servers[i].role == Leader ==> LeaderOK(|c.servers|, c.history, c.servers[i], c.vlogs[i])
  {
    hide HistoryOK, MsgOK, LogOK, NotAhead, Retained, LeaderOK;
    ServerInv(c, i);
  }

  lemma VoteReplyKeepsSafe(c: Cluster, m: Msg)
    requires SafeInv(c) && Enabled(c, HandleVoteReply(m))
    ensures SafeInv(DoVoteReply(c, m))
  {
    hide ServerOK, ServerSafe, BallotSafe, DeliverySafe, MsgOK, Grows, OnVoteReply, NotAhead, HistoryOK, Counts;
    var c' := DoVoteReply(c, m);
    VoteReplyKeepsInv(c, m);
    var n, h, i := |c.servers|, c.history, m.src;
    var s, v := c.servers[i], c.vlogs[i];
    VoteReplyFields(s, m.va.term, m.vr);
    if s.role != Leader && c'.servers[i].role == Leader {
      ServerFacts(c, i);
      SelfAgrees(v);
      LeaderServerSafe(n, h, c'.history, s, c'.servers[i], v, v);
    } else {
      SteadyServerSafe(n, h, c'.history, i, s, c'.servers[i], v);
    }
    SafeFramed(c, c', i);
  }

  lemma SelfAgrees(v: seq<Entry>)
    ensures IsPrefix(v, v)
  {
  }

  lemma StartKeepsSafe(c: Cluster, i: nat, command: Command)
    requires SafeInv(c) && Enabled(c, Step.Start(i, command))
    ensures SafeInv(DoStart(c, i, command))
  {
    hide ServerOK, ServerSafe, BallotSafe, DeliverySafe, MsgOK, Grows, NotAhead, HistoryOK, IndicesOK;
    var c' := DoStart(c, i, command);
    StartKeepsInv(c, i, command);
    var n, h := |c.servers|, c.history;
    ServerFacts(c, i);
    LeaderServerSafe(n, h, c'.history, c.servers[i], c'.servers[i], c.vlogs[i], c'.vlogs[i]);
    SafeFramed(c, c', i);
  }

  lemma SendAppendKeepsSafe(c: Cluster, i: nat, p: nat)
    requires SafeInv(c) && Enabled(c, SendAppend(i, p))
    ensures SafeInv(DoSendAppend(c, i, p))
  {
    hide ServerOK, BallotSafe, DeliverySafe, MsgOK, Grows, HistoryOK, Held, Committed;
    var c' := DoSendAppend(c, i, p);
    SendAppendKeepsInv(c, i, p);
    assert ServerSafe(|c.servers|, c.history, c.servers[i], c.vlogs[i]);
    SafeFramed(c, c', i);
  }

  lemma SendSnapshotKeepsSafe(c: Cluster, i: nat, p: nat)
    requires SafeInv(c) && Enabled(c, SendSnapshot(i, p))
    ensures SafeInv(DoSendSnapshot(c, i, p))
  {
    hide ServerOK, BallotSafe, DeliverySafe, MsgOK, Grows, HistoryOK, Held, Committed;
    var c' := DoSendSnapshot(c, i, p);
    SendSnapshotKeepsInv(c, i, p);
    var n, h, s, v := |c.servers|, c.history, c.servers[i], c.vlogs[i];
    assert ServerSafe(n, h, s, v);
    ServerFacts(c, i);
    FewerCommitted(n, h, v, s.commitIndex, s.currentTerm, s.snapIndex);
    LongerCommitted(n, h, v, v[..s.snapIndex], s.snapIndex, s.currentTerm);
    SafeFramed(c, c', i);
  }

  /** A majority behind the leader's own entry makes it chosen. */
  lemma MayCommitIsChosen(n: nat, h: History, s: Server, v: seq<Entry>, x: nat)
    requires LeaderOK(n, h, s, v) && s.peers == n && MayCommit(s, v, x)
    ensures Chosen(n, h, s.currentTerm, x)
  {
    var reaching, ackers := Reaching(s.matchIndex, x), Ackers(h, s.currentTerm, x);
    forall p | p in reaching ensures p in ackers {
      assert Ack(p, s.currentTerm, s.matchIndex[p]) in h.acks;
    }
    SubsetSize(reaching, ackers);
  }

  lemma CountingServerSafe(n: nat, h: History, s: Server, s': Server, v: seq<Entry>)
    requires ServerSafe(n, h, s, v) && s'.me == s.me && s'.currentTerm == s.currentTerm
    requires s'.commitIndex == s.commitIndex
             || (LeaderOK(n, h, s', v) && s'.peers == n && MayCommit(s', v, s'.commitIndex))
    ensures ServerSafe(n, h, s', v)
  {
    hide Held, Chosen;
    if s'.commitIndex != s.commitIndex {
      MayCommitIsChosen(n, h, s', v, s'.commitIndex);
      LeaderBacked(n, h, s', v, s'.commitIndex);
    }
  }

  lemma LeaderBacked(n: nat, h: History, s: Server, v: seq<Entry>, x: nat)
    requires LeaderOK(n, h, s, v) && x <= |v| && Chosen(n, h, s.currentTerm, x)
    ensures Committed(n, h, v, x, s.currentTerm)
  {
    assert Backed(n, h, v, x, s.currentTerm, x);
  }

  lemma AppendReplyFields(s: Server, v: seq<Entry>, peer: nat, a: AppendArgs, r: AppendReply)
    requires peer < |s.nextIndex| == |s.matchIndex| && Retained(s, v) && s.snapIndex <= s.commitIndex
    ensures var s' := OnAppendReply(s, peer, a, r);
            && s'.me == s.me && s'.peers == s.peers && s.currentTerm <= s'.currentTerm
            && (s'.commitIndex == s.commitIndex
                || (s'.role == Leader && s'.currentTerm == s.currentTerm && MayCommit(s', v, s'.commitIndex)))
  {
    hide AdvanceCommit, MayCommit;
    if s.currentTerm == a.term && s.role == Leader && r.term <= s.currentTerm && r.success {
      AdvanceKeeps(Counted(s, peer, a.prevIndex + |a.entries|), v);
      CountedAppend(s, v, peer, a, r);
      AdvanceKeeps(s.(matchIndex := s.matchIndex[peer := Max(s.matchIndex[peer], a.prevIndex + |a.entries|)],
                      nextIndex := s.nextIndex[peer := a.prevIndex + |a.entries| + 1]), v);
    }
  }

  lemma AdvanceKeeps(s: Server, v: seq<Entry>)
    requires Retained(s, v) && s.snapIndex <= s.commitIndex
    ensures var s' := AdvanceCommit(s);
            && s' == s.(commitIndex := s'.commitIndex)
            && (s'.commitIndex == s.commitIndex || MayCommit(s', v, s'.commitIndex))
  {
    hide AdvanceCommit, MayCommit;
    AdvanceCommitMeans(s, v);
  }

  lemma InstallReplyFields(s: Server, v: seq<Entry>, peer: nat, a: SnapArgs, r: SnapReply)
    requires peer < |s.nextIndex| == |s.matchIndex| && Retained(s, v) && s.snapIndex <= s.commitIndex
    ensures var s' := OnInstallReply(s, peer, a, r);
            && s'.me == s.me && s'.peers == s.peers && s.currentTerm <= s'.currentTerm
            && (s'.commitIndex == s.commitIndex
                || (s'.role == Leader && s'.currentTerm == s.currentTerm && MayCommit(s', v, s'.commitIndex)))
  {
    hide AdvanceCommit, MayCommit;
    if s.currentTerm == a.term == r.term && s.role == Leader {
      AdvanceKeeps(Counted(s, peer, a.lastIndex), v);
      CountedInstall(s, v, peer, a, r);
      AdvanceKeeps(s.(matchIndex := s.matchIndex[peer := Max(s.matchIndex[peer], a.lastIndex)],
                      nextIndex := s.nextIndex[peer := Max(s.nextIndex[peer], a.lastIndex + 1)]), v);
    }
  }

  lemma ReplyKeepsSafe(c: Cluster, c': Cluster, i: nat)
    requires SafeInv(c) && Inv(c') && i < |c.servers| == |c'.servers| && Grows(c.history, c'.history, i)
    requires c' == Put(c, i, c'.servers[i])
    requires var s, s' := c.servers[i], c'.servers[i];
             && s'.me == s.me && s'.peers == s.peers && s.currentTerm <= s'.currentTerm
             && (s'.commitIndex == s.commitIndex
                 || (s'.role == Leader && s'.currentTerm == s.currentTerm && MayCommit(s', c.vlogs[i], s'.commitIndex)))
    ensures SafeInv(c')
  {
    hide ServerOK, ServerSafe, BallotSafe, DeliverySafe, MsgOK, Grows, HistoryOK, NotAhead, Retained, LeaderOK,
      MayCommit;
    var n, h, s, s', v := |c.servers|, c.history, c.servers[i], c'.servers[i], c.vlogs[i];
    if s'.commitIndex == s.commitIndex {
      SteadyServerSafe(n, h, h, i, s, s', v);
    } else {
      ServerFacts(c', i);
      CountingServerSafe(n, h, s, s', v);
    }
    SafeFramed(c, c', i);
  }

  // ---------------------------------------------------------------- steps that replace a follower's log

  /** After an accepted append the follower keeps every promise that its new leader's log keeps. */
  lemma AcceptedHeld(n: nat, h: History, h': History, src: nat, dst: nat, a: AppendArgs, full: seq<Entry>, b: Ack)
    requires HistoryOK(n, h) && AppendReqOK(n, h, src, dst, a, full)
    requires h'.reigns == h.reigns && AckOK(n, h, b) && b.term <= a.term
    requires b.term == a.term ==> b.length <= |full|
    ensures Held(h', full, b, a.term + 1)
  {
    hide LogOK;
    assert ReignOK(n, h, a.term);
    var log := h.reigns[b.term].log;
    forall k: nat | k <= b.length ensures Agree(log, full, k) || Lost(h', b.term, k, a.term + 1) {
      if b.term < a.term && Agree(log, h.reigns[a.term].base, k) {
        Through(log, h.reigns[a.term].base, h.reigns[a.term].log, full, k);
      }
    }
  }

  lemma Through(log: seq<Entry>, base: seq<Entry>, whole: seq<Entry>, full: seq<Entry>, k: nat)
    requires Agree(log, base, k) && IsPrefix(base, whole) && IsPrefix(full, whole) && k <= |full|
    ensures Agree(log, full, k)
  {
  }

  lemma AcceptedCommitted(n: nat, h: History, s: Server, v: seq<Entry>, src: nat, a: AppendArgs, full: seq<Entry>)
    requires HistoryOK(n, h) && BallotsSafe(h) && AppendReqOK(n, h, src, s.me, a, full)
    requires Committed(n, h, v, s.commitIndex, s.currentTerm) && s.currentTerm <= a.term
    requires a.leaderCommit <= |full| && Committed(n, h, full, a.leaderCommit, a.term)
    ensures Committed(n, h, full, Min(Max(s.commitIndex, a.leaderCommit), |full|), a.term)
  {
    hide LogOK, HistoryOK, BallotsSafe, Committed;
    if s.commitIndex > a.leaderCommit {
      var length := Min(s.commitIndex, |full|);
      CommittedInReign(n, h, v, s.commitIndex, s.currentTerm, a.term);
      FewerCommitted(n, h, v, s.commitIndex, s.currentTerm, length);
      SameHistory(h, 0);
      CommittedGrows(n, h, h, 0, v, length, s.currentTerm, a.term);
      LongerCommitted(n, h, v, full, length, a.term);
    }
  }

  lemma AcceptedServerSafe(n: nat, h: History, s: Server, v: seq<Entry>, src: nat, a: AppendArgs, full: seq<Entry>)
    requires HistoryOK(n, h) && BallotsSafe(h) && AppendReqOK(n, h, src, s.me, a, full)
    requires ServerSafe(n, h, s, v) && NotAhead(h, s) && a.term >= s.currentTerm && s.me < n
    requires a.leaderCommit <= |full| && Committed(n, h, full, a.leaderCommit, a.term)
    requires forall b :: b in h.acks && b.server == s.me && b.term == a.term ==> b.length <= |full|
    ensures var h' := RecordAck(h, s.me, a.term, |full|);
            forall s': Server :: s'.me == s.me && s'.currentTerm == a.term
                                 && s'.commitIndex == Min(Max(s.commitIndex, a.leaderCommit), |full|) ==>
              ServerSafe(n, h', s', full)
  {
    hide LogOK, ReignOK, BallotOK, BidOK, BallotsSafe, Committed, Held;
    var h' := RecordAck(h, s.me, a.term, |full|);
    AcceptedCommitted(n, h, s, v, src, a, full);
    AckInReign(n, h, src, s.me, a, full);
    AckRecorded(n, h, s.me, a.term, |full|);
    CommittedGrows(n, h, h', s.me, full, Min(Max(s.commitIndex, a.leaderCommit), |full|), a.term, a.term);
    forall b | b in h'.acks && b.server == s.me ensures Held(h', full, b, a.term + 1) {
      AckFits(n, h, src, s.me, a, full, b);
      AcceptedHeld(n, h, h', src, s.me, a, full, b);
    }
  }

  lemma AckFits(n: nat, h: History, src: nat, dst: nat, a: AppendArgs, full: seq<Entry>, b: Ack)
    requires HistoryOK(n, h) && AppendReqOK(n, h, src, dst, a, full)
    requires b in h.acks || b == Ack(dst, a.term, |full|)
    ensures AckOK(n, h, b)
  {
    hide ReignOK, BallotOK, BidOK;
  }

  lemma AcceptedCommitIndex(s: Server, a: AppendArgs)
    requires a.term >= s.currentTerm && Matches(s, a)
    ensures var s' := OnAppend(s, a).0;
            s'.me == s.me && s'.currentTerm == a.term
            && s'.commitIndex == Min(Max(s.commitIndex, a.leaderCommit), s.snapIndex + |Spliced(s, a)|)
  {
  }

  lemma AppendKeepsSafe(c: Cluster, m: Msg)
    requires SafeInv(c) && Enabled(c, HandleAppend(m)) && Orderly(c, HandleAppend(m))
    ensures SafeInv(DoAppend(c, m))
  {
    hide ServerSafe, BallotSafe, DeliverySafe, Grows, OnAppend, HistoryOK, NotAhead, Retained, LeaderOK, CandidateOK,
      VoteOK, LogOK, TermsWithin, AppendReqOK, HintOK, Committed;
    var c' := DoAppend(c, m);
    AppendKeepsInv(c, m);
    var n, h, i := |c.servers|, c.history, m.dst;
    var s, v := c.servers[i], c.vlogs[i];
    ServerInv(c, i);
    assert MsgOK(n, h, m) && MsgSafe(n, h, m);
    if m.aa.term >= s.currentTerm && Matches(s, m.aa) {
      RequestLength(n, h, m.src, i, m.aa, m.full);
      AcceptedServerOK(n, h, i, s, v, c.tallies[i], c.answered, m.src, m.aa, m.full);
      AcceptedCommitIndex(s, m.aa);
      SplicedIsFull(n, h, s, v, m.src, m.aa, m.full);
      SnapFits(s, v, m.full, m.aa);
      AcceptedServerSafe(n, h, s, v, m.src, m.aa, m.full);
    } else {
      RefusedFields(s, m.aa);
      RefusedServerOK(n, h, i, s, v, c.tallies[i], c.answered, m.src, m.aa, m.full);
      SteadyServerSafe(n, h, c'.history, i, s, c'.servers[i], v);
    }
    SafeFramed(c, c', i);
  }

  lemma RequestLength(n: nat, h: History, src: nat, dst: nat, a: AppendArgs, full: seq<Entry>)
    requires AppendReqOK(n, h, src, dst, a, full)
    ensures a.prevIndex + |a.entries| == |full|
  {
  }

  lemma SnapFits(s: Server, v: seq<Entry>, full: seq<Entry>, a: AppendArgs)
    requires Retained(s, v) && Matches(s, a) && v[..s.snapIndex] + Spliced(s, a) == full
    ensures s.snapIndex + |Spliced(s, a)| == |full|
  {
  }

  /** Installing a snapshot drops nothing the follower promised, except what the sender lacks: then the
      sender itself was elected without it. */
  lemma InstalledHeld(n: nat, h: History, h': History, s: Server, v: seq<Entry>, src: nat, a: SnapArgs,
                      full: seq<Entry>, b: Ack)
    requires HistoryOK(n, h) && SnapReqOK(n, h, src, s.me, a, full) && s.currentTerm <= a.term && Covers(h, v, a)
    requires h'.reigns == h.reigns && AckOK(n, h, b)
    requires b == Ack(s.me, a.term, |full|) || (b.term <= s.currentTerm && Held(h, v, b, s.currentTerm + 1))
    ensures Held(h', full, b, a.term + 1)
  {
    hide LogOK;
    assert ReignOK(n, h, a.term);
    if b != Ack(s.me, a.term, |full|) {
      forall k: nat | k <= b.length ensures Agree(h.reigns[b.term].log, full, k) || Lost(h', b.term, k, a.term + 1) {
        if Agree(h.reigns[b.term].log, v, k) {
          SharedIsCovered(h, v, a, full, b.term, k);
        } else {
          var u :| b.term < u < s.currentTerm + 1 && u in h.reigns && !Agree(h.reigns[b.term].log, h.reigns[u].base, k);
          assert u < a.term + 1 && u in h'.reigns;
        }
      }
    }
  }

  /** What the follower still has from term `t` is in the snapshot, or the sender never had it. */
  lemma SharedIsCovered(h: History, v: seq<Entry>, a: SnapArgs, full: seq<Entry>, t: nat, k: nat)
    requires Covers(h, v, a) && t in h.reigns && t <= a.term && Agree(h.reigns[t].log, v, k)
    requires IsPrefix(full, h.reigns[a.term].log) && |full| == a.lastIndex
    requires IsPrefix(h.reigns[a.term].base, h.reigns[a.term].log)
    ensures Agree(h.reigns[t].log, full, k) || (t < a.term && !Agree(h.reigns[t].log, h.reigns[a.term].base, k))
  {
    var log, whole := h.reigns[t].log, h.reigns[a.term].log;
    if Agree(log, whole, k) {
      assert Agree(v, whole, k);
    }
  }

  /** What the follower committed is in the sender's log, and so within the snapshot. */
  lemma CommitIsCovered(n: nat, h: History, s: Server, v: seq<Entry>, a: SnapArgs)
    requires HistoryOK(n, h) && BallotsSafe(h) && Covers(h, v, a) && a.term >= s.currentTerm
    requires s.commitIndex <= |v| && Committed(n, h, v, s.commitIndex, s.currentTerm)
    ensures s.commitIndex <= a.lastIndex
  {
    hide HistoryOK, BallotsSafe, Committed;
    CommittedInReign(n, h, v, s.commitIndex, s.currentTerm, a.term);
  }

  lemma InstalledServerSafe(n: nat, h: History, s: Server, v: seq<Entry>, src: nat, a: SnapArgs, full: seq<Entry>)
    requires HistoryOK(n, h) && BallotsSafe(h) && SnapReqOK(n, h, src, s.me, a, full) && s.me < n
    requires ServerSafe(n, h, s, v) && NotAhead(h, s) && a.term >= s.currentTerm && Covers(h, v, a)
    requires Committed(n, h, full, |full|, a.term)
    ensures var h' := RecordAck(h, s.me, a.term, |full|);
            forall s': Server :: s'.me == s.me && s'.currentTerm == a.term
                                 && s'.commitIndex == Max(s.commitIndex, |full|) ==>
              ServerSafe(n, h', s', full)
  {
    hide LogOK, ReignOK, BallotOK, BidOK, BallotsSafe, Committed, Held, Covers;
    var h' := RecordAck(h, s.me, a.term, |full|);
    CommitIsCovered(n, h, s, v, a);
    AckRecorded(n, h, s.me, a.term, |full|);
    CommittedGrows(n, h, h', s.me, full, |full|, a.term, a.term);
    forall b | b in h'.acks && b.server == s.me ensures Held(h', full, b, a.term + 1) {
      assert AckOK(n, h, b);
      InstalledHeld(n, h, h', s, v, src, a, full, b);
    }
  }

  /** A follower whose own snapshot already covers the offered one may acknowledge it, because what it
      has compacted is committed. */
  lemma CoveredServerSafe(n: nat, h: History, s: Server, v: seq<Entry>, src: nat, a: SnapArgs, full: seq<Entry>)
    requires HistoryOK(n, h) && BallotsSafe(h) && SnapReqOK(n, h, src, s.me, a, full) && s.me < n
    requires ServerSafe(n, h, s, v) && s.currentTerm == a.term && |full| <= s.commitIndex
    ensures var h' := RecordAck(h, s.me, a.term, |full|);
            forall s': Server :: s'.me == s.me && s'.currentTerm == s.currentTerm && s'.commitIndex == s.commitIndex ==>
              ServerSafe(n, h', s', v)
  {
    hide LogOK, ReignOK, BallotOK, BidOK, Committed, BallotsSafe;
    var h' := RecordAck(h, s.me, a.term, |full|);
    AckRecorded(n, h, s.me, a.term, |full|);
    CommittedInReign(n, h, v, s.commitIndex, s.currentTerm, a.term);
    CommittedGrows(n, h, h', s.me, v, s.commitIndex, a.term, a.term);
    forall b | b in h'.acks && b.server == s.me ensures Held(h', v, b, a.term + 1) {
      if b in h.acks {
        assert AckOK(n, h, b);
        HeldGrows(n, h, h', s.me, v, b, a.term + 1, a.term + 1);
      }
    }
  }

  lemma InstallCases(s: Server, a: SnapArgs)
    ensures var (s', r) := OnInstall(s, a);
            && s'.me == s.me && s.currentTerm <= s'.currentTerm
            && (r.term == a.term ==> s'.currentTerm == a.term >= s.currentTerm)
            && (Installs(s, a) ==> r.term == a.term && s'.commitIndex == Max(s.commitIndex, a.lastIndex))
            && (!Installs(s, a) ==> s'.commitIndex == s.commitIndex)
            && (!Installs(s, a) && r.term == a.term ==> s.currentTerm == a.term && a.lastIndex <= s.snapIndex)
  {
  }

  lemma InstallKeepsSafe(c: Cluster, m: Msg)
    requires SafeInv(c) && Enabled(c, HandleInstall(m)) && Orderly(c, HandleInstall(m))
    ensures SafeInv(DoInstall(c, m))
  {
    hide ServerOK, ServerSafe, BallotSafe, BallotsSafe, DeliverySafe, Grows, OnInstall, HistoryOK, NotAhead, LeaderOK,
      Committed;
    var c' := DoInstall(c, m);
    InstallKeepsInv(c, m);
    var n, h, i := |c.servers|, c.history, m.dst;
    var s, v := c.servers[i], c.vlogs[i];
    ServerFacts(c, i);
    assert MsgOK(n, h, m) && MsgSafe(n, h, m);
    InstallCases(s, m.sa);
    LastOfVirtual(s, v);
    if Installs(s, m.sa) {
      InstalledServerSafe(n, h, s, v, m.src, m.sa, m.full);
    } else if OnInstall(s, m.sa).1.term == m.sa.term {
      CoveredServerSafe(n, h, s, v, m.src, m.sa, m.full);
    } else {
      SteadyServerSafe(n, h, c'.history, i, s, c'.servers[i], v);
    }
    SafeFramed(c, c', i);
  }

  // ---------------------------------------------------------------- compacting, applying, restarting

  lemma QuietKeepsSafe(c: Cluster, c': Cluster, i: nat)
    requires SafeInv(c) && Inv(c') && i < |c.servers| == |c'.servers| && Grows(c.history, c'.history, i)
    requires c' == Put(c, i, c'.servers[i]).(delivered := c'.delivered)
    requires c'.servers[i].me == i && c'.servers[i].currentTerm == c.servers[i].currentTerm
    requires c'.servers[i].commitIndex <= c.servers[i].commitIndex
    requires forall d :: d in c'.delivered ==> d in c.delivered || DeliverySafe(|c.servers|, c.history, d)
    ensures SafeInv(c')
  {
    hide ServerOK, ServerSafe, BallotSafe, DeliverySafe, MsgOK, Grows, HistoryOK;
    SteadyServerSafe(|c.servers|, c.history, c.history, i, c.servers[i], c'.servers[i], c.vlogs[i]);
    SafeFramed(c, c', i);
  }

  /** In an orderly run the next entry to apply exists, and it has been chosen. */
  lemma NextIsChosen(c: Cluster, i: nat)
    requires SafeInv(c) && i < |c.servers| && WantsApply(c.servers[i])
    ensures ApplyInRange(c.servers[i])
    ensures DeliverySafe(|c.servers|, c.history,
                         Delivery(i, c.servers[i].lastApplied + 1, NextApplied(c.servers[i])))
  {
    hide ServerOK, Held, HistoryOK, BallotsSafe, Inv, NotAhead, LeaderOK, Chosen;
    ServerFacts(c, i);
    var n, h, s, v := |c.servers|, c.history, c.servers[i], c.vlogs[i];
    assert ServerSafe(n, h, s, v);
    LastOfVirtual(s, v);
    var t: nat, m: nat :| t <= s.currentTerm && Backed(n, h, v, s.commitIndex, t, m);
    assert Delivers(n, h, Delivery(i, s.lastApplied + 1, NextApplied(s)), t, m);
  }

  // ---------------------------------------------------------------- the whole

  lemma InitSafe(n: nat)
    ensures SafeInv(Init(n))
  {
    InitOK(n);
  }

  lemma StepKeepsSafe(c: Cluster, step: Step)
    requires SafeInv(c) && Enabled(c, step) && Orderly(c, step)
    ensures SafeInv(Do(c, step))
  {
    hide Inv, ServersOK, ServerSafe, BallotsSafe, MsgSafe, DeliverySafe, HistoryOK, MsgOK, ServerOK, Grows, LeaderOK,
      Retained, NotAhead, MayCommit, DoTimeout, DoVote, DoVoteReply, DoStart, DoSendAppend, DoSendSnapshot, DoAppend,
      DoInstall, OnAppendReply, OnInstallReply;
    StepKeepsInv(c, step);
    InvFacts(c);
    match step
    case Timeout(i) => TimeoutKeepsSafe(c, i);
    case HandleVote(m) => VoteKeepsSafe(c, m);
    case HandleVoteReply(m) => VoteReplyKeepsSafe(c, m);
    case Start(i, command) => StartKeepsSafe(c, i, command);
    case SendAppend(i, p) => SendAppendKeepsSafe(c, i, p);
    case HandleAppend(m) => AppendKeepsSafe(c, m);
    case HandleAppendReply(m) =>
      ServerFacts(c, m.src);
      AppendReplyFields(c.servers[m.src], c.vlogs[m.src], m.dst, m.aa, m.ar);
      ReplyKeepsSafe(c, Do(c, step), m.src);
    case SendSnapshot(i, p) => SendSnapshotKeepsSafe(c, i, p);
    case HandleInstall(m) => InstallKeepsSafe(c, m);
    case HandleInstallReply(m) =>
      ServerFacts(c, m.src);
      InstallReplyFields(c.servers[m.src], c.vlogs[m.src], m.dst, m.sa, m.sr);
      ReplyKeepsSafe(c, Do(c, step), m.src);
    case Compact(i, index) => QuietKeepsSafe(c, Do(c, step), i);
    case Apply(i) =>
      NextIsChosen(c, i);
      QuietKeepsSafe(c, Do(c, step), i);
    case Restart(i) =>
      ServerFacts(c, i);
      QuietKeepsSafe(c, Do(c, step), i);
  }

  lemma InvFacts(c: Cluster)
    requires Inv(c)
    ensures WellFormed(c)
  {
  }

  lemma {:induction false} OrderlySafe(n: nat, states: seq<Cluster>, steps: seq<Step>, k: nat)
    requires IsOrderlyRun(n, states, steps) && k < |states|
    ensures SafeInv(states[k]) && |states[k].servers| == n
  {
    hide SafeInv, Do, Enabled, Orderly, WellFormed;
    if k == 0 {
      InitSafe(n);
    } else {
      OrderlySafe(n, states, steps, k - 1);
      assert steps[k - 1] == steps[k - 1];
      assert Next(states[k - 1], steps[k - 1], states[k - 1 + 1]);
      StepKeepsSafe(states[k - 1], steps[k - 1]);
      SameSize(states[k - 1], steps[k - 1]);
    }
  }

  /** State Machine Safety (section 5.4.3): no two servers are ever handed different commands for the
      same index, over a whole orderly run with any losses, delays, crashes, elections and snapshots. */
  lemma StateMachineSafety(n: nat, states: seq<Cluster>, steps: seq<Step>, j: nat, k: nat, d: Delivery, e: Delivery)
    requires IsOrderlyRun(n, states, steps) && j <= k < |states|
    requires d in states[j].delivered && e in states[k].delivered && d.index == e.index
    ensures d.command == e.command
  {
    hide SafeInv, Do, Enabled, Orderly;
    OrderlySafe(n, states, steps, k);
    DeliveredStays(n, states, steps, j, k, d);
    OneCommandPerIndex(states[k], d, e);
  }

  lemma {:induction false} DeliveredStays(n: nat, states: seq<Cluster>, steps: seq<Step>, j: nat, k: nat, d: Delivery)
    requires IsRun(n, states, steps) && j <= k < |states| && d in states[j].delivered
    ensures d in states[k].delivered
    decreases k
  {
    if j < k {
      DeliveredStays(n, states, steps, j, k - 1, d);
      assert Next(states[k - 1], steps[k - 1], states[k - 1 + 1]);
    }
  }

  lemma OneCommandPerIndex(c: Cluster, d: Delivery, e: Delivery)
    requires SafeInv(c) && d in c.delivered && e in c.delivered && d.index == e.index
    ensures d.command == e.command
  {
    hide Inv, HistoryOK, BallotsSafe, ServerSafe, Chosen;
    var n, h := |c.servers|, c.history;
    var t: nat, m: nat :| Delivers(n, h, d, t, m);
    var u: nat, l: nat :| Delivers(n, h, e, u, l);
    ChosenFacts(c);
    if t <= u {
      ReignOfChosen(n, h, u, l);
      ChosenAgree(n, h, t, m, u);
    } else {
      ReignOfChosen(n, h, t, m);
      ChosenAgree(n, h, u, l, t);
    }
  }

  lemma ChosenFacts(c: Cluster)
    requires Inv(c)
    ensures HistoryOK(|c.servers|, c.history)
  {
  }

  lemma ReignOfChosen(n: nat, h: History, t: nat, m: nat)
    requires Chosen(n, h, t, m)
    ensures t in h.reigns
  {
  }

  /** Leader Completeness (section 5.4): an entry some leader committed is in the log of every leader
      of a later term, at every later moment of an orderly run. */
  lemma CommittedStays(n: nat, states: seq<Cluster>, steps: seq<Step>, j: nat, k: nat, a: nat, t: nat, b: nat,
                       u: nat, x: nat)
    requires IsOrderlyRun(n, states, steps) && j <= k < |states|
    requires Leads(states[j], a, t) && Leads(states[k], b, u) && t <= u
    requires x <= states[j].servers[a].commitIndex
    ensures a < |states[j].vlogs| && b < |states[k].vlogs|
    ensures Agree(states[j].vlogs[a], states[k].vlogs[b], x)
  {
    hide SafeInv, Do, Enabled, Orderly;
    OrderlySafe(n, states, steps, j);
    OrderlySafe(n, states, steps, k);
    LeaderOnRecord(n, states, steps, j, k, a, t);
    LeaderOnRecord(n, states, steps, k, k, b, u);
    RunExtends(n, states, steps, j, k);
    CommittedInLater(states[j], states[k], a, b, u, x);
  }

  lemma CommittedInLater(c: Cluster, c': Cluster, a: nat, b: nat, u: nat, x: nat)
    requires SafeInv(c) && SafeInv(c') && Extends(c.history, c'.history) && |c.servers| == |c'.servers|
    requires a < |c.servers| && c.servers[a].currentTerm <= u && x <= c.servers[a].commitIndex && Leads(c', b, u)
    ensures Agree(c.vlogs[a], c'.vlogs[b], x)
  {
    hide HistoryOK, ServerOK, BallotsSafe, Held, MsgOK, NotAhead, Retained, Chosen;
    var n, h, h', s, v := |c.servers|, c.history, c'.history, c.servers[a], c.vlogs[a];
    ServerFacts(c', b);
    assert ServerSafe(n, h, s, v);
    if s.commitIndex > 0 {
      var t: nat, m: nat :| t <= s.currentTerm && Backed(n, h, v, s.commitIndex, t, m);
      ChosenExtends(n, h, h', t, m);
      ChosenAgree(n, h', t, m, u);
    }
  }

  lemma ChosenExtends(n: nat, h: History, h': History, t: nat, m: nat)
    requires Extends(h, h') && Chosen(n, h, t, m)
    ensures Chosen(n, h', t, m) && t in h.reigns && Agree(h.reigns[t].log, h'.reigns[t].log, m)
  {
    AckersGrow(h, h', t, m);
  }

  /** The hypothesis on appends is exact, request by request: the follower keeps everything it has
      acknowledged to the sender if and only if the request is orderly. */
  lemma OrderlyAppendExactly(c: Cluster, m: Msg)
    requires Inv(c) && Enabled(c, HandleAppend(m))
    requires m.aa.term >= c.servers[m.dst].currentTerm && Matches(c.servers[m.dst], m.aa)
    ensures m.aa.term in c.history.reigns
    ensures Orderly(c, HandleAppend(m)) <==>
              forall b :: b in c.history.acks && b.server == m.dst && b.term == m.aa.term ==>
                Agree(c.history.reigns[m.aa.term].log, DoAppend(c, m).vlogs[m.dst], b.length)
  {
    hide LogOK, NotAhead, VoteOK, CandidateOK, LeaderOK, TermsWithin, OnAppend, Retained;
    var n, h, i := |c.servers|, c.history, m.dst;
    ServerInv(c, i);
    assert MsgOK(n, h, m);
    AcceptedServerOK(n, h, i, c.servers[i], c.vlogs[i], c.tallies[i], c.answered, m.src, m.aa, m.full);
    var log := h.reigns[m.aa.term].log;
    forall b | b in h.acks && b.server == i && b.term == m.aa.term
      ensures Agree(log, m.full, b.length) <==> b.length <= |m.full|
    {
      assert AckOK(n, h, b);
    }
  }

  /** The hypothesis on snapshots is exact as well: the follower keeps everything it shares with the
      log of the sender if and only if the request is orderly. */
  lemma OrderlyInstallExactly(c: Cluster, m: Msg)
    requires Inv(c) && Enabled(c, HandleInstall(m)) && Installs(c.servers[m.dst], m.sa)
    ensures m.sa.term in c.history.reigns
    ensures var log := c.history.reigns[m.sa.term].log;
            Orderly(c, HandleInstall(m)) <==>
              forall k: nat :: Agree(c.vlogs[m.dst], log, k) ==> Agree(DoInstall(c, m).vlogs[m.dst], log, k)
    ensures Orderly(c, HandleInstall(m)) <==>
              !Agree(c.vlogs[m.dst], c.history.reigns[m.sa.term].log, m.sa.lastIndex + 1)
  {
    hide HistoryOK, ServersOK, OnInstall;
    assert MsgOK(|c.servers|, c.history, m);
    var log, v := c.history.reigns[m.sa.term].log, c.vlogs[m.dst];
    assert forall k: nat :: Agree(m.full, log, k) <==> k <= m.sa.lastIndex;
    assert DoInstall(c, m).vlogs[m.dst] == m.full;
    if forall k: nat :: Agree(v, log, k) ==> Agree(m.full, log, k) {
      forall k: nat | Agree(v, log, k) ensures k <= m.sa.lastIndex {
        assert Agree(m.full, log, k);
      }
    }
  }

  /** What a follower can look at: a snapshot is orderly when it reaches to the end of the log, or when
      the log has another term at its last index, which section 7 of the paper tells a follower to check. */
  lemma CheckedInstallIsOrderly(c: Cluster, m: Msg)
    requires Inv(c) && Enabled(c, HandleInstall(m)) && Installs(c.servers[m.dst], m.sa)
    requires var s := c.servers[m.dst]; s.LastIndex() <= m.sa.lastIndex || s.TermOf(m.sa.lastIndex) != m.sa.lastTerm
    ensures Orderly(c, HandleInstall(m))
  {
    hide HistoryOK, LogOK, VoteOK, NotAhead, CandidateOK, LeaderOK, TermsWithin;
    assert MsgOK(|c.servers|, c.history, m);
    var s, v, log := c.servers[m.dst], c.vlogs[m.dst], c.history.reigns[m.sa.term].log;
    ServerInv(c, m.dst);
    LastOfVirtual(s, v);
    if s.LastIndex() > m.sa.lastIndex {
      TermOfVirtual(s, v, m.sa.lastIndex);
      assert log[m.sa.lastIndex - 1] == m.full[m.sa.lastIndex - 1] != v[m.sa.lastIndex - 1];
    }
  }

  /** A follower loses nothing it promised: of an append it accepts, nothing it acknowledged to the sender;
      of a snapshot it installs, nothing it shares with the log of the sender. */
  ghost predicate KeepsPromises(c: Cluster, step: Step)
    requires WellFormed(c) && Enabled(c, step)
  {
    match step
    case HandleAppend(m) =>
      m.aa.term >= c.servers[m.dst].currentTerm && Matches(c.servers[m.dst], m.aa) ==>
        m.aa.term in c.history.reigns
        && forall b :: b in c.history.acks && b.server == m.dst && b.term == m.aa.term ==>
             Agree(c.history.reigns[m.aa.term].log, DoAppend(c, m).vlogs[m.dst], b.length)
    case HandleInstall(m) =>
      Installs(c.servers[m.dst], m.sa) ==>
        m.sa.term in c.history.reigns
        && forall k: nat :: Agree(c.vlogs[m.dst], c.history.reigns[m.sa.term].log, k) ==>
             Agree(DoInstall(c, m).vlogs[m.dst], c.history.reigns[m.sa.term].log, k)
    case _ => true
  }

  lemma OrderlyExactly(c: Cluster, step: Step)
    requires Inv(c) && Enabled(c, step)
    ensures Orderly(c, step) <==> KeepsPromises(c, step)
  {
    hide Inv, Matches, DoAppend, DoInstall, Covers, Agree;
    InvFacts(c);
    match step
    case HandleAppend(m) =>
      if m.aa.term >= c.servers[m.dst].currentTerm && Matches(c.servers[m.dst], m.aa) { OrderlyAppendExactly(c, m); }
    case HandleInstall(m) =>
      if Installs(c.servers[m.dst], m.sa) { OrderlyInstallExactly(c, m); }
    case _ =>
  }

  ghost predicate PromisesKept(c: Cluster, step: Step) {
    WellFormed(c) && Enabled(c, step) && KeepsPromises(c, step)
  }

  /** The orderly runs are exactly those in which no follower ever loses what it promised. */
  lemma OrderlyRunExactly(n: nat, states: seq<Cluster>, steps: seq<Step>)
    requires IsRun(n, states, steps)
    ensures IsOrderlyRun(n, states, steps) <==> forall k :: 0 <= k < |steps| ==> PromisesKept(states[k], steps[k])
  {
    hide Inv, Do, Enabled, WellFormed, OrderlyStep, PromisesKept;
    forall k | 0 <= k < |steps| ensures OrderlyStep(states[k], steps[k]) <==> PromisesKept(states[k], steps[k]) {
      RunInv(n, states, steps, k);
      assert Next(states[k], steps[k], states[k + 1]);
      StepExactly(states[k], steps[k]);
    }
  }

  lemma StepExactly(c: Cluster, step: Step)
    requires Inv(c) && WellFormed(c) && Enabled(c, step)
    ensures OrderlyStep(c, step) <==> PromisesKept(c, step)
  {
    hide Inv, WellFormed, Enabled, Orderly, KeepsPromises;
    OrderlyExactly(c, step);
  }
}
