/** What holds over every run, whatever the network loses, delays, reorders or repeats, and however
    often servers crash and compact their logs. */
module RaftTheorems {
  import opened Collections
  import opened RaftTypes
  import opened RaftSteps
  import opened RaftCluster
  import opened RaftInvariant
  import opened RaftPreservation

  // ---------------------------------------------------------------- every state, and any two states

  lemma {:induction false} RunInv(n: nat, states: seq<Cluster>, steps: seq<Step>, k: nat)
    requires IsRun(n, states, steps) && k < |states|
    ensures Inv(states[k]) && |states[k].servers| == n
  {
    hide Inv, Do, Enabled;
    if k == 0 {
      InitOK(n);
    } else {
      RunInv(n, states, steps, k - 1);
      assert Next(states[k - 1], steps[k - 1], states[k - 1 + 1]);
      StepKeepsInv(states[k - 1], steps[k - 1]);
      SameSize(states[k - 1], steps[k - 1]);
    }
  }

  lemma SameSize(c: Cluster, step: Step)
    requires WellFormed(c) && Enabled(c, step)
    ensures |Do(c, step).servers| == |c.servers|
  {
  }

  /** Terms never go back, and within a term a vote is only cast once. */
  ghost predicate KeepsWord(s: Server, s': Server) {
    && s.currentTerm <= s'.currentTerm
    && (s.currentTerm == s'.currentTerm && s.votedFor != NOBODY ==> s'.votedFor == s.votedFor)
  }

  /** A server only starts leading a term as its candidate, and never withdraws a commit while it leads. */
  ghost predicate KeepsOffice(s: Server, s': Server) {
    s'.role == Leader ==>
      && s.currentTerm == s'.currentTerm
      && if s.role == Leader then s.commitIndex <= s'.commitIndex else s.role == Candidate
  }

  /** What every handler does, except the ones that install, compact, apply and restart: it keeps term, vote
      and office, and neither applies nor compacts anything. */
  ghost predicate Steady(s: Server, s': Server) {
    KeepsWord(s, s') && KeepsOffice(s, s') && s'.lastApplied <= s.lastApplied && s'.snapIndex == s.snapIndex
  }

  lemma TimeoutSteady(s: Server)
    ensures Steady(s, OnTimeout(s).0)
  {
  }

  lemma VoteSteady(s: Server, a: VoteArgs)
    ensures Steady(s, OnRequestVote(s, a).0)
  {
  }

  lemma VoteReplySteady(s: Server, term: nat, r: VoteReply)
    ensures Steady(s, OnVoteReply(s, term, r))
  {
  }

  lemma AppendSteady(s: Server, a: AppendArgs)
    ensures Steady(s, OnAppend(s, a).0)
  {
    hide Rejection, Spliced;
  }

  lemma AppendReplySteady(s: Server, peer: nat, a: AppendArgs, r: AppendReply)
    requires peer < |s.nextIndex| && peer < |s.matchIndex|
    ensures Steady(s, OnAppendReply(s, peer, a, r))
  {
    hide CommitPoint, BackUp;
  }

  lemma InstallReplySteady(s: Server, peer: nat, a: SnapArgs, r: SnapReply)
    requires peer < |s.nextIndex| && peer < |s.matchIndex|
    ensures Steady(s, OnInstallReply(s, peer, a, r))
  {
    hide CommitPoint;
  }

  lemma StartSteady(s: Server, command: Command)
    requires s.me < |s.matchIndex|
    ensures Steady(s, OnStart(s, command))
  {
  }

  predicate IsQuiet(step: Step) {
    !step.HandleInstall? && !step.Compact? && !step.Apply? && !step.Restart?
  }

  lemma QuietSteady(c: Cluster, step: Step)
    requires WellFormed(c) && Enabled(c, step) && IsQuiet(step) && Mover(step) < |c.servers|
    ensures |Do(c, step).servers| == |c.servers|
    ensures Steady(c.servers[Mover(step)], Do(c, step).servers[Mover(step)])
  {
    hide Steady, OnTimeout, OnRequestVote, OnVoteReply, OnAppend, OnAppendReply, OnInstallReply, AppendFor, SnapshotMsg;
    match step
    case Timeout(i) => TimeoutSteady(c.servers[i]);
    case HandleVote(m) => VoteSteady(c.servers[m.dst], m.va);
    case HandleVoteReply(m) => VoteReplySteady(c.servers[m.src], m.va.term, m.vr);
    case Start(i, command) => StartSteady(c.servers[i], command);
    case SendAppend(i, _) => SelfSteady(c.servers[i]);
    case HandleAppend(m) => AppendSteady(c.servers[m.dst], m.aa);
    case HandleAppendReply(m) => AppendReplySteady(c.servers[m.src], m.dst, m.aa, m.ar);
    case SendSnapshot(i, _) => SelfSteady(c.servers[i]);
    case HandleInstallReply(m) => InstallReplySteady(c.servers[m.src], m.dst, m.sa, m.sr);
  }

  lemma SelfSteady(s: Server)
    ensures Steady(s, s)
  {
  }

  lemma StepKeepsWord(c: Cluster, step: Step, i: nat)
    requires Inv(c) && Enabled(c, step) && i < |c.servers|
    ensures var c' := Do(c, step);
            && |c'.servers| == |c.servers|
            && KeepsWord(c.servers[i], c'.servers[i]) && KeepsOffice(c.servers[i], c'.servers[i])
  {
    hide Inv, Do, Enabled;
    WellFormedInv(c);
    Untouched(c, step, i);
    if i == Mover(step) {
      if IsQuiet(step) { QuietSteady(c, step); } else { LoudKeepsWord(c, step); }
    }
  }

  lemma LoudKeepsWord(c: Cluster, step: Step)
    requires Inv(c) && Enabled(c, step) && !IsQuiet(step) && Mover(step) < |c.servers|
    ensures |Do(c, step).servers| == |c.servers|
    ensures var s, s' := c.servers[Mover(step)], Do(c, step).servers[Mover(step)];
            KeepsWord(s, s') && KeepsOffice(s, s')
  {
    hide Inv, NextApplied;
    WellFormedInv(c);
    if step.Restart? { DiskInSync(c, step.i); }
  }

  lemma DiskInSync(c: Cluster, i: nat)
    requires Inv(c) && i < |c.servers|
    ensures c.servers[i].InSync()
  {
    hide HistoryOK, MsgOK, LogOK;
    ServerInv(c, i);
  }

  /** A step changes only the server whose mutex it holds. */
  lemma Untouched(c: Cluster, step: Step, i: nat)
    requires WellFormed(c) && Enabled(c, step) && i < |c.servers|
    ensures |Do(c, step).servers| == |c.servers|
    ensures i != Mover(step) ==> Do(c, step).servers[i] == c.servers[i]
  {
    hide OnRequestVote, OnTimeout, OnVoteReply, OnAppend, OnAppendReply, OnStart, OnInstall, OnInstallReply,
      OnSnapshot, OnRestart, AppendFor, SnapshotMsg;
  }

  /** History only accumulates. */
  ghost predicate Extends(h: History, h': History) {
    && (forall t :: t in h.reigns ==> t in h'.reigns && SameReign(h.reigns[t], h'.reigns[t]))
    && (forall slot :: slot in h.ballots ==> slot in h'.ballots && h'.ballots[slot] == h.ballots[slot])
    && h.acks <= h'.acks
  }

  lemma {:induction false} RunExtends(n: nat, states: seq<Cluster>, steps: seq<Step>, j: nat, k: nat)
    requires IsRun(n, states, steps) && j <= k < |states|
    ensures Extends(states[j].history, states[k].history)
    decreases k
  {
    hide Inv, Do, Enabled;
    if j < k {
      RunExtends(n, states, steps, j, k - 1);
      RunInv(n, states, steps, k - 1);
      assert Next(states[k - 1], steps[k - 1], states[k - 1 + 1]);
      StepKeepsInv(states[k - 1], steps[k - 1]);
    }
  }

  // ---------------------------------------------------------------- elections

  ghost predicate Leads(c: Cluster, i: nat, t: nat) {
    i < |c.servers| && c.servers[i].role == Leader && c.servers[i].currentTerm == t
  }

  /** Whoever leads a term is the leader history names from then on. */
  lemma LeaderOnRecord(n: nat, states: seq<Cluster>, steps: seq<Step>, j: nat, k: nat, a: nat, t: nat)
    requires IsRun(n, states, steps) && j <= k < |states| && Leads(states[j], a, t)
    ensures t in states[k].history.reigns && states[k].history.reigns[t].leader == a
    ensures a < |states[j].vlogs| && IsPrefix(states[j].vlogs[a], states[k].history.reigns[t].log)
  {
    RunInv(n, states, steps, j);
    ServerInv(states[j], a);
    RunExtends(n, states, steps, j, k);
  }

  /** Election Safety (section 5.2): at most one server ever leads a term. */
  lemma ElectionSafety(n: nat, states: seq<Cluster>, steps: seq<Step>, j: nat, k: nat, a: nat, b: nat, t: nat)
    requires IsRun(n, states, steps) && j < |states| && k < |states|
    requires Leads(states[j], a, t) && Leads(states[k], b, t)
    ensures a == b
  {
    hide IsRun, Leads;
    var last := Max(j, k);
    LeaderOnRecord(n, states, steps, j, last, a, t);
    LeaderOnRecord(n, states, steps, k, last, b, t);
  }

  /** The bare counter `votesReceived` is the number of distinct voters whose vote of this term,
      on disk for as long as they stay in the term, is for this candidate. */
  lemma VotesAreVoters(n: nat, states: seq<Cluster>, steps: seq<Step>, k: nat, a: nat)
    requires IsRun(n, states, steps) && k < |states| && a < n && |states[k].servers| == n
    requires states[k].servers[a].role == Candidate
    ensures var c, s := states[k], states[k].servers[a];
            && |c.tallies| == n && |c.tallies[a]| == s.votes && a in c.tallies[a]
            && forall v :: v in c.tallies[a] ==>
                 && v < n && s.currentTerm <= c.servers[v].currentTerm
                 && (c.servers[v].currentTerm == s.currentTerm ==> c.servers[v].disk.votedFor == a)
  {
    RunInv(n, states, steps, k);
    var c, s := states[k], states[k].servers[a];
    ServerInv(c, a);
    forall v | v in c.tallies[a]
      ensures && v < n && s.currentTerm <= c.servers[v].currentTerm
              && (c.servers[v].currentTerm == s.currentTerm ==> c.servers[v].disk.votedFor == a)
    {
      ServerInv(c, v);
      assert Slot(v, s.currentTerm) in c.history.ballots;
    }
  }

  // ---------------------------------------------------------------- logs

  /** Log Matching (section 5.3), for any two virtual logs at any two moments of a run. */
  lemma LogMatching(n: nat, states: seq<Cluster>, steps: seq<Step>, j: nat, k: nat, a: nat, b: nat, x: nat)
    requires IsRun(n, states, steps) && j < |states| && k < |states|
    requires a < |states[j].vlogs| && b < |states[k].vlogs|
    requires x < |states[j].vlogs[a]| && x < |states[k].vlogs[b]|
    requires states[j].vlogs[a][x].term == states[k].vlogs[b][x].term
    ensures Agree(states[j].vlogs[a], states[k].vlogs[b], x + 1)
  {
    hide IsRun, LogOK;
    var h := states[Max(j, k)].history;
    VirtualLogOK(n, states, steps, j, Max(j, k), a);
    VirtualLogOK(n, states, steps, k, Max(j, k), b);
    MatchingTerms(h, states[j].vlogs[a], states[k].vlogs[b], x);
  }

  lemma VirtualLogOK(n: nat, states: seq<Cluster>, steps: seq<Step>, j: nat, k: nat, a: nat)
    requires IsRun(n, states, steps) && j <= k < |states| && a < |states[j].vlogs|
    ensures LogOK(states[k].history, states[j].vlogs[a])
  {
    RunInv(n, states, steps, j);
    ServerInv(states[j], a);
    RunExtends(n, states, steps, j, k);
    var h, h', v := states[j].history, states[k].history, states[j].vlogs[a];
    forall x: nat | x < |v| ensures EntryOK(h', v, x) {
      assert EntryOK(h, v, x);
    }
  }

  /** The entry a server still holds at a one-based log index. */
  ghost predicate Holds(s: Server, index: nat) {
    s.snapIndex < index <= s.LastIndex()
  }

  /** Log Matching on what the servers really store: below an index where two logs have the same
      term, they store the same entry wherever both still store one. */
  lemma StoredLogsMatch(n: nat, states: seq<Cluster>, steps: seq<Step>, j: nat, k: nat, a: nat, b: nat, x: nat, y: nat)
    requires IsRun(n, states, steps) && j < |states| && k < |states|
    requires a < |states[j].servers| && b < |states[k].servers|
    requires var s, s' := states[j].servers[a], states[k].servers[b];
             Holds(s, x) && Holds(s', x) && s.TermOf(x) == s'.TermOf(x) && Holds(s, y) && Holds(s', y) && y <= x
    ensures var s, s' := states[j].servers[a], states[k].servers[b];
            s.log[y - s.snapIndex - 1] == s'.log[y - s'.snapIndex - 1]
  {
    hide IsRun, LogOK, Agree;
    RunInv(n, states, steps, j);
    RunInv(n, states, steps, k);
    ServerInv(states[j], a);
    ServerInv(states[k], b);
    var s, s', v, v' := states[j].servers[a], states[k].servers[b], states[j].vlogs[a], states[k].vlogs[b];
    TermOfVirtual(s, v, x);
    TermOfVirtual(s', v', x);
    LogMatching(n, states, steps, j, k, a, b, x - 1);
    AgreeAt(v, v', x, y - 1);
  }

  lemma AgreeAt(a: seq<Entry>, b: seq<Entry>, k: nat, i: nat)
    requires Agree(a, b, k) && i < k
    ensures i < |a| && i < |b| && a[i] == b[i]
  {
  }

  /** Leader Append-Only (section 5.3): a leader never changes or removes an entry of its log. */
  lemma LeaderAppendOnly(n: nat, states: seq<Cluster>, steps: seq<Step>, j: nat, k: nat, a: nat, t: nat)
    requires IsRun(n, states, steps) && j <= k < |states|
    requires Leads(states[j], a, t) && Leads(states[k], a, t)
    ensures a < |states[j].vlogs| && a < |states[k].vlogs| && IsPrefix(states[j].vlogs[a], states[k].vlogs[a])
  {
    LeaderOnRecord(n, states, steps, j, k, a, t);
    RunInv(n, states, steps, k);
    ServerInv(states[k], a);
  }

  /** Every append request in the network was built by its sender, from its whole log of that moment. */
  lemma {:induction false} RequestOrigin(n: nat, states: seq<Cluster>, steps: seq<Step>, k: nat, m: Msg)
    returns (j: nat)
    requires IsRun(n, states, steps) && k < |states| && m in states[k].net && m.AppendReq?
    ensures j < k && steps[j] == SendAppend(m.src, m.dst)
    ensures m.src < |states[j].servers| == |states[j].vlogs| && InRange(states[j].servers[m.src], m.dst)
    ensures states[j].servers[m.src].role == Leader
    ensures m.aa == AppendFor(states[j].servers[m.src], m.dst) && m.full == states[j].vlogs[m.src]
  {
    hide OnTimeout, OnRequestVote, OnAppend, OnInstall, OnVoteReply, OnAppendReply, OnInstallReply, OnStart, AppendFor;
    assert k > 0;
    var c, step := states[k - 1], steps[k - 1];
    assert Next(c, step, states[k - 1 + 1]);
    if m in c.net {
      j := RequestOrigin(n, states, steps, k - 1, m);
    } else {
      NewRequest(c, step, m);
      j := k - 1;
    }
  }

  lemma NewRequest(c: Cluster, step: Step, m: Msg)
    requires WellFormed(c) && Enabled(c, step) && m !in c.net && m in Do(c, step).net && m.AppendReq?
    ensures step == SendAppend(m.src, m.dst)
    ensures m.aa == AppendFor(c.servers[m.src], m.dst) && m.full == c.vlogs[m.src]
  {
    hide OnTimeout, OnRequestVote, OnAppend, OnInstall, OnVoteReply, OnAppendReply, OnInstallReply, OnStart, AppendFor;
  }

  /** An accepted append makes the follower's virtual log equal to the sender's whole log as it was
      when the request was built, however late the request arrives. */
  lemma AcceptedAppendCopies(n: nat, states: seq<Cluster>, steps: seq<Step>, k: nat, m: Msg) returns (j: nat)
    requires IsRun(n, states, steps) && k < |steps| && steps[k] == HandleAppend(m)
    requires m.AppendReq? && m.dst < |states[k].servers| && OnAppend(states[k].servers[m.dst], m.aa).1.success
    ensures j < k && steps[j] == SendAppend(m.src, m.dst) && m.src < |states[j].vlogs|
    ensures m.dst < |states[k + 1].vlogs| && states[k + 1].vlogs[m.dst] == states[j].vlogs[m.src]
  {
    hide HistoryOK, ServerOK, AppendReqOK, OnAppend;
    assert Next(states[k], steps[k], states[k + 1]);
    j := RequestOrigin(n, states, steps, k, m);
    RunInv(n, states, steps, k);
    var c, i := states[k], m.dst;
    ServerInv(c, i);
    assert MsgOK(|c.servers|, c.history, m);
    SuccessAccepts(c.servers[i], m.aa);
    AcceptedServerOK(|c.servers|, c.history, i, c.servers[i], c.vlogs[i], c.tallies[i], c.answered, m.src, m.aa,
      m.full);
  }

  lemma SuccessAccepts(s: Server, a: AppendArgs)
    ensures OnAppend(s, a).1.success <==> a.term >= s.currentTerm && Matches(s, a)
  {
  }

  // ---------------------------------------------------------------- where commands come from

  ghost predicate RecordedAt(h: History, e: Entry, t: nat, x: nat) {
    t in h.reigns && x < |h.reigns[t].log| && h.reigns[t].log[x] == e
  }

  /** The entry is in the log of some leader. */
  ghost predicate Recorded(h: History, e: Entry) {
    exists t: nat, x: nat :: RecordedAt(h, e, t, x)
  }

  lemma EntryIsRecorded(h: History, log: seq<Entry>, x: nat)
    requires LogOK(h, log) && x < |log|
    ensures Recorded(h, log[x])
  {
    assert EntryOK(h, log, x);
    assert RecordedAt(h, log[x], log[x].term, x);
  }

  /** A step adds no entry but the one that Start was called with. */
  lemma NewEntry(c: Cluster, step: Step, e: Entry)
    requires Inv(c) && Enabled(c, step) && Recorded(Do(c, step).history, e)
    ensures Recorded(c.history, e) || (step.Start? && e.command == step.command)
  {
    hide Inv, HistoryOK, OnTimeout, OnRequestVote, OnVoteReply, OnAppend, OnAppendReply, OnInstall, OnInstallReply;
    WellFormedInv(c);
    SameOrNewReigns(c, step);
    var h, h' := c.history, Do(c, step).history;
    var t: nat, x: nat :| RecordedAt(h', e, t, x);
    if RecordedAt(h, e, t, x) {
    } else if step.HandleVoteReply? {
      ServerLogOK(c, step.m.src);
      EntryIsRecorded(h, c.vlogs[step.m.src], x);
    }
  }

  lemma ServerLogOK(c: Cluster, i: nat)
    requires Inv(c) && i < |c.servers|
    ensures i < |c.vlogs| && LogOK(c.history, c.vlogs[i])
  {
    hide HistoryOK, MsgOK, LogOK;
    ServerInv(c, i);
  }

  /** Only an election and a Start touch the logs of leaders in history. */
  lemma SameOrNewReigns(c: Cluster, step: Step)
    requires Inv(c) && Enabled(c, step)
    ensures var h, h' := c.history, Do(c, step).history;
            match step
            case HandleVoteReply(m) =>
              && m.src < |c.vlogs|
              && forall t :: t in h'.reigns ==>
                   (t in h.reigns && h'.reigns[t] == h.reigns[t]) || h'.reigns[t].log == c.vlogs[m.src]
            case Start(i, command) =>
              forall t :: t in h'.reigns && t in h.reigns ==>
                h'.reigns[t] == h.reigns[t]
                || h'.reigns[t].log == h.reigns[t].log + [Entry(c.servers[i].currentTerm, command)]
            case _ => h'.reigns == h.reigns
    ensures step.Start? ==> Do(c, step).history.reigns.Keys == c.history.reigns.Keys
  {
    hide Inv, OnTimeout, OnRequestVote, OnVoteReply, OnAppend, OnAppendReply, OnInstall, OnInstallReply, OnStart,
      OnSnapshot, OnRestart;
    WellFormedInv(c);
  }

  lemma WellFormedInv(c: Cluster)
    requires Inv(c)
    ensures WellFormed(c)
  {
  }

  /** Every entry of every log was put there by a Start of its command. */
  lemma {:induction false} EntryOrigin(n: nat, states: seq<Cluster>, steps: seq<Step>, k: nat, e: Entry)
    returns (j: nat)
    requires IsRun(n, states, steps) && k < |states| && Recorded(states[k].history, e)
    ensures j < k && steps[j].Start? && steps[j].command == e.command
  {
    hide Inv, Recorded, Do, Enabled, WellFormed;
    if k == 0 {
      NothingRecorded(n, e);
    } else {
      RunInv(n, states, steps, k - 1);
      assert Next(states[k - 1], steps[k - 1], states[k - 1 + 1]);
      NewEntry(states[k - 1], steps[k - 1], e);
      if Recorded(states[k - 1].history, e) {
        j := EntryOrigin(n, states, steps, k - 1, e);
      } else {
        j := k - 1;
      }
    }
  }

  lemma NothingRecorded(n: nat, e: Entry)
    ensures !Recorded(Init(n).history, e)
  {
  }

  /** Raft makes nothing up: every command a service is handed was given to Start before. */
  lemma {:induction false} CommandOrigin(n: nat, states: seq<Cluster>, steps: seq<Step>, k: nat, d: Delivery)
    returns (j: nat)
    requires IsRun(n, states, steps) && k < |states| && d in states[k].delivered
    ensures j < k && steps[j].Start? && steps[j].command == d.command
  {
    hide Inv, Do, Enabled, Recorded;
    assert k > 0;
    assert Next(states[k - 1], steps[k - 1], states[k - 1 + 1]);
    if d in states[k - 1].delivered {
      j := CommandOrigin(n, states, steps, k - 1, d);
    } else {
      RunInv(n, states, steps, k - 1);
      var e := AppliedEntry(states[k - 1], steps[k - 1], d);
      j := EntryOrigin(n, states, steps, k - 1, e);
    }
  }

  lemma AppliedEntry(c: Cluster, step: Step, d: Delivery) returns (e: Entry)
    requires Inv(c) && Enabled(c, step) && d in Do(c, step).delivered && d !in c.delivered
    ensures Recorded(c.history, e) && e.command == d.command
  {
    hide HistoryOK, MsgOK, LogOK, VoteOK, NotAhead, CandidateOK, LeaderOK, Recorded, OnTimeout, OnRequestVote,
      OnVoteReply, OnAppend, OnAppendReply, OnInstall, OnInstallReply, OnStart;
    var s, v := c.servers[step.i], c.vlogs[step.i];
    ServerInv(c, step.i);
    e := s.log[s.lastApplied - s.snapIndex];
    EntryIsRecorded(c.history, v, s.lastApplied);
  }

  // ---------------------------------------------------------------- a leader's bookkeeping

  /** Leader index safety: in every reachable state every slice a leader takes of its log is in range. */
  lemma LeaderIndexSafety(n: nat, states: seq<Cluster>, steps: seq<Step>, k: nat, a: nat, p: nat)
    requires IsRun(n, states, steps) && k < |states| && a < |states[k].servers| && p < n
    requires states[k].servers[a].role == Leader
    ensures var s := states[k].servers[a];
            && p < |s.nextIndex| && p < |s.matchIndex| && a < |s.matchIndex|
            && 1 <= s.nextIndex[p] <= s.LastIndex() + 1
            && s.matchIndex[p] <= s.LastIndex() && s.matchIndex[a] == s.LastIndex()
            && (s.nextIndex[p] > s.snapIndex ==> InRange(s, p))
  {
    RunInv(n, states, steps, k);
    ServerInv(states[k], a);
  }

  /** Fast back-up makes progress: after a rejection the leader's next request to that peer starts
      at 1 or strictly below the rejected one. */
  lemma FastBackUp(n: nat, states: seq<Cluster>, steps: seq<Step>, k: nat, m: Msg)
    requires IsRun(n, states, steps) && k < |steps| && steps[k] == HandleAppendReply(m)
    requires m.AppendRep? && !m.ar.success && m.src < |states[k].servers| && m.dst < n
    requires Leads(states[k], m.src, m.aa.term) && Leads(states[k + 1], m.src, m.aa.term)
    ensures m.dst < |states[k + 1].servers[m.src].nextIndex|
    ensures var next := states[k + 1].servers[m.src].nextIndex[m.dst];
            1 <= next <= Max(1, m.aa.prevIndex)
  {
    hide LogOK, HistoryOK;
    assert Next(states[k], steps[k], states[k + 1]);
    RunInv(n, states, steps, k);
    var c, i := states[k], m.src;
    ServerInv(c, i);
    assert MsgOK(|c.servers|, c.history, m);
    BackUpBounded(n, c.history, c.servers[i], c.vlogs[i], i, m.dst, m.aa, m.full, m.ar);
  }

  // ---------------------------------------------------------------- durability

  /** What is on disk is what is in memory at every lock release, so a crash loses none of it. */
  lemma RestartForgetsNothing(n: nat, states: seq<Cluster>, steps: seq<Step>, k: nat, a: nat)
    requires IsRun(n, states, steps) && k < |states| && a < |states[k].servers|
    ensures var s := states[k].servers[a];
            && s.disk == s.Saved()
            && OnRestart(s).Saved() == s.Saved()
            && OnRestart(s).lastApplied == OnRestart(s).commitIndex == s.snapIndex
  {
    RunInv(n, states, steps, k);
    ServerInv(states[k], a);
  }

  /** Over a whole run, crashes included, a server's term never decreases and it never changes its
      vote within a term. */
  lemma {:induction false} TermsAndVotesHold(n: nat, states: seq<Cluster>, steps: seq<Step>, j: nat, k: nat, a: nat)
    requires IsRun(n, states, steps) && j <= k < |states| && a < n
    ensures |states[j].servers| == |states[k].servers| == n
    ensures KeepsWord(states[j].servers[a], states[k].servers[a])
    decreases k
  {
    hide Inv, Do, Enabled;
    RunInv(n, states, steps, j);
    RunInv(n, states, steps, k);
    if j < k {
      TermsAndVotesHold(n, states, steps, j, k - 1, a);
      RunInv(n, states, steps, k - 1);
      assert Next(states[k - 1], steps[k - 1], states[k - 1 + 1]);
      StepKeepsWord(states[k - 1], steps[k - 1], a);
    }
  }

  // ---------------------------------------------------------------- the commit rule

  /** The positions of `matchIndex` that reach `index`. */
  ghost function Reaching(matchIndex: seq<nat>, index: nat): set<nat> {
    set p: nat | p < |matchIndex| && matchIndex[p] >= index
  }

  /** Counting with the source's loop is counting a set of peers. */
  lemma {:induction false} AgreeingCounts(matchIndex: seq<nat>, index: nat)
    ensures Agreeing(matchIndex, index) == |Reaching(matchIndex, index)|
  {
    if |matchIndex| > 0 {
      hide Reaching;
      AgreeingCounts(matchIndex[..|matchIndex| - 1], index);
      ReachingNext(matchIndex, index);
    } else {
      assert Reaching(matchIndex, index) == {};
    }
  }

  lemma ReachingNext(matchIndex: seq<nat>, index: nat)
    requires |matchIndex| > 0
    ensures var last := |matchIndex| - 1;
            && last !in Reaching(matchIndex[..last], index)
            && Reaching(matchIndex, index) ==
               Reaching(matchIndex[..last], index) + if matchIndex[last] >= index then {last} else {}
  {
  }

  /** `index` may be committed: its entry is of the leader's own term and a strict majority has
      acknowledged it (Figure 2 and section 5.4.2 of the extended Raft paper). */
  ghost predicate MayCommit(s: Server, vlog: seq<Entry>, index: nat) {
    1 <= index <= |vlog| && vlog[index - 1].term == s.currentTerm && |Reaching(s.matchIndex, index)| > s.peers / 2
  }

  /** `advanceCommit` moves the commit index to the greatest index above it that may be committed,
      and leaves it alone when there is none. The source also has a branch for indices inside the
      snapshot; it is never reached, because commitIndex is never below lastIncludedIndex. */
  lemma AdvanceCommitMeans(s: Server, v: seq<Entry>)
    requires Retained(s, v) && s.snapIndex <= s.commitIndex
    ensures var s' := AdvanceCommit(s);
            && s' == s.(commitIndex := s'.commitIndex) && s'.commitIndex >= s.commitIndex
            && (s'.commitIndex > s.commitIndex ==> MayCommit(s', v, s'.commitIndex))
            && forall x: nat :: x > s'.commitIndex ==> !MayCommit(s', v, x)
  {
    LastOfVirtual(s, v);
    var s' := AdvanceCommit(s);
    if s'.commitIndex > s.commitIndex { CommittableMeans(s, v, s'.commitIndex); }
    forall x: nat | x > s'.commitIndex ensures !MayCommit(s', v, x) {
      if x <= |v| { CommittableMeans(s, v, x); }
    }
  }

  lemma CommittableMeans(s: Server, v: seq<Entry>, x: nat)
    requires Retained(s, v) && s.snapIndex < x <= |v|
    ensures x <= s.LastIndex() && (Committable(s, x) <==> MayCommit(s, v, x))
  {
    TermOfVirtual(s, v, x);
    AgreeingCounts(s.matchIndex, x);
  }

  /** The commit rule, in every reachable state: when a leader has counted an acknowledgement its
      commit index is the greatest one that may be committed, or what it was when none above it may;
      so an entry of an older term is only ever committed below one of the leader's own. */
  lemma CommitRule(n: nat, states: seq<Cluster>, steps: seq<Step>, k: nat, m: Msg)
    requires IsRun(n, states, steps) && k < |steps| && m.src < n && |states[k].servers| == n
    requires || (m.AppendRep? && steps[k] == HandleAppendReply(m) && m.ar.success && Leads(states[k], m.src, m.aa.term))
             || (m.SnapRep? && steps[k] == HandleInstallReply(m) && m.sr.term == m.sa.term
               && Leads(states[k], m.src, m.sa.term))
    requires Leads(states[k + 1], m.src, states[k].servers[m.src].currentTerm)
    ensures m.src < |states[k].vlogs|
    ensures var s, s', v := states[k].servers[m.src], states[k + 1].servers[m.src], states[k].vlogs[m.src];
            && s'.commitIndex >= s.commitIndex
            && (s'.commitIndex > s.commitIndex ==> MayCommit(s', v, s'.commitIndex))
            && forall x: nat :: x > s'.commitIndex ==> !MayCommit(s', v, x)
  {
    hide HistoryOK, LogOK, MsgOK, AdvanceCommit, MayCommit;
    assert Next(states[k], steps[k], states[k + 1]);
    RunInv(n, states, steps, k);
    var c, i := states[k], m.src;
    ServerInv(c, i);
    var s := c.servers[i];
    var s1 := if m.AppendRep? then Counted(s, m.dst, m.aa.prevIndex + |m.aa.entries|)
      else Counted(s, m.dst, m.sa.lastIndex);
    AdvanceCommitMeans(s1, c.vlogs[i]);
    if m.AppendRep? {
      CountedAppend(s, c.vlogs[i], m.dst, m.aa, m.ar);
    } else {
      CountedInstall(s, c.vlogs[i], m.dst, m.sa, m.sr);
    }
  }

  function Counted(s: Server, peer: nat, length: nat): Server
    requires peer < |s.matchIndex|
  {
    s.(matchIndex := s.matchIndex[peer := Max(s.matchIndex[peer], length)])
  }

  lemma CountedAppend(s: Server, v: seq<Entry>, peer: nat, a: AppendArgs, r: AppendReply)
    requires peer < |s.nextIndex| == |s.matchIndex| && Retained(s, v) && s.snapIndex <= s.commitIndex
    requires s.currentTerm == a.term && s.role == Leader && r.success && r.term <= s.currentTerm
    ensures var s', s1 := OnAppendReply(s, peer, a, r), Counted(s, peer, a.prevIndex + |a.entries|);
            && s'.commitIndex == AdvanceCommit(s1).commitIndex && s'.matchIndex == s1.matchIndex
            && s'.currentTerm == s1.currentTerm && s'.peers == s1.peers
            && forall x: nat :: MayCommit(s', v, x) <==> MayCommit(AdvanceCommit(s1), v, x)
  {
    var s1 := Counted(s, peer, a.prevIndex + |a.entries|);
    SameCommitPoint(s1, s1.(nextIndex := s.nextIndex[peer := a.prevIndex + |a.entries| + 1]), s1.LastIndex());
  }

  lemma CountedInstall(s: Server, v: seq<Entry>, peer: nat, a: SnapArgs, r: SnapReply)
    requires peer < |s.nextIndex| == |s.matchIndex| && Retained(s, v) && s.snapIndex <= s.commitIndex
    requires s.currentTerm == a.term == r.term && s.role == Leader
    ensures var s', s1 := OnInstallReply(s, peer, a, r), Counted(s, peer, a.lastIndex);
            && s'.commitIndex == AdvanceCommit(s1).commitIndex && s'.matchIndex == s1.matchIndex
            && s'.currentTerm == s1.currentTerm && s'.peers == s1.peers
            && forall x: nat :: MayCommit(s', v, x) <==> MayCommit(AdvanceCommit(s1), v, x)
  {
    var s1 := Counted(s, peer, a.lastIndex);
    SameCommitPoint(s1, s1.(nextIndex := s.nextIndex[peer := Max(s.nextIndex[peer], a.lastIndex + 1)]), s1.LastIndex());
  }

  lemma {:induction false} SameCommitPoint(s: Server, s': Server, x: nat)
    requires x <= s.LastIndex() && s' == s.(nextIndex := s'.nextIndex)
    ensures CommitPoint(s, x) == CommitPoint(s', x)
  {
    if x > s.commitIndex {
      assert Committable(s, x) == Committable(s', x);
      if !Committable(s, x) { SameCommitPoint(s, s', x - 1); }
    }
  }

  /** While a server leads a term its commit index never decreases, over the whole leadership. */
  lemma {:induction false} LeaderCommitsGrow(n: nat, states: seq<Cluster>, steps: seq<Step>, j: nat, k: nat, a: nat,
                                             t: nat)
    requires IsRun(n, states, steps) && j <= k < |states|
    requires Leads(states[j], a, t) && Leads(states[k], a, t)
    ensures states[j].servers[a].commitIndex <= states[k].servers[a].commitIndex
    decreases k
  {
    hide Do, Enabled, ServerOK, HistoryOK;
    if j < k {
      RunInv(n, states, steps, k - 1);
      RunInv(n, states, steps, k);
      assert Next(states[k - 1], steps[k - 1], states[k - 1 + 1]);
      StepKeepsWord(states[k - 1], steps[k - 1], a);
      LeaderOnRecord(n, states, steps, j, k - 1, a, t);
      NoSecondCandidacy(states[k - 1], a, t);
      LeaderCommitsGrow(n, states, steps, j, k - 1, a, t);
    }
  }

  lemma NoSecondCandidacy(c: Cluster, a: nat, t: nat)
    requires Inv(c) && a < |c.servers| && t in c.history.reigns && c.history.reigns[t].leader == a
    requires c.servers[a].currentTerm == t
    ensures c.servers[a].role != Candidate
  {
    ServerInv(c, a);
  }
}
