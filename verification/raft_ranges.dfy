/** When the indices of a server stay inside its log, so that BackgroundApplyRoutine and Snapshot never
    index outside it (src/raft/raft.go:259-263 and 800-803), over runs of any kind. */
module RaftRanges {
  import opened Collections
  import opened RaftTypes
  import opened RaftSteps
  import opened RaftCluster
  import opened RaftInvariant
  import opened RaftPreservation
  import opened RaftTheorems
  import opened RaftSafety

  predicate Inside(s: Server) {
    s.snapIndex <= s.lastApplied <= s.commitIndex <= s.LastIndex()
  }

  ghost predicate AllInside(c: Cluster) {
    forall i {:trigger c.servers[i]} :: 0 <= i < |c.servers| ==> Inside(c.servers[i])
  }

  /** A snapshot that is installed reaches at least to what its receiver knows to be committed. A receiver
      can check this before it installs. */
  ghost predicate CoversCommit(c: Cluster, step: Step) {
    step.HandleInstall? && step.m.SnapReq? && step.m.dst < |c.servers| && Installs(c.servers[step.m.dst], step.m.sa) ==>
      c.servers[step.m.dst].commitIndex <= step.m.sa.lastIndex
  }

  // ---------------------------------------------------------------- one step

  lemma TimeoutInside(s: Server)
    requires Inside(s)
    ensures Inside(OnTimeout(s).0)
  {
  }

  lemma VoteInside(s: Server, a: VoteArgs)
    requires Inside(s)
    ensures Inside(OnRequestVote(s, a).0)
  {
  }

  lemma VoteReplyInside(s: Server, term: nat, r: VoteReply)
    requires Inside(s)
    ensures Inside(OnVoteReply(s, term, r))
  {
  }

  lemma AppendInside(s: Server, a: AppendArgs)
    requires Inside(s)
    ensures Inside(OnAppend(s, a).0)
  {
    hide Rejection;
  }

  lemma AdvanceInside(s: Server)
    requires Inside(s)
    ensures Inside(AdvanceCommit(s))
  {
  }

  lemma AppendReplyInside(s: Server, peer: nat, a: AppendArgs, r: AppendReply)
    requires peer < |s.nextIndex| && peer < |s.matchIndex| && Inside(s)
    ensures Inside(OnAppendReply(s, peer, a, r))
  {
    hide AdvanceCommit;
    var newMatch := a.prevIndex + |a.entries|;
    AdvanceInside(s.(matchIndex := s.matchIndex[peer := Max(s.matchIndex[peer], newMatch)],
                     nextIndex := s.nextIndex[peer := newMatch + 1]));
  }

  lemma InstallReplyInside(s: Server, peer: nat, a: SnapArgs, r: SnapReply)
    requires peer < |s.nextIndex| && peer < |s.matchIndex| && Inside(s)
    ensures Inside(OnInstallReply(s, peer, a, r))
  {
    hide AdvanceCommit;
    AdvanceInside(s.(matchIndex := s.matchIndex[peer := Max(s.matchIndex[peer], a.lastIndex)],
                     nextIndex := s.nextIndex[peer := Max(s.nextIndex[peer], a.lastIndex + 1)]));
  }

  /** The one handler that can leave the log behind, and exactly when it does. */
  lemma InstallInside(s: Server, a: SnapArgs)
    requires Inside(s)
    ensures Inside(OnInstall(s, a).0) <==> (Installs(s, a) ==> s.commitIndex <= a.lastIndex)
  {
  }

  lemma RestartInside(s: Server)
    requires s.InSync()
    ensures Inside(OnRestart(s))
  {
  }

  lemma StepInside(c: Cluster, step: Step)
    requires Inv(c) && Enabled(c, step) && Mover(step) < |c.servers| && Inside(c.servers[Mover(step)])
    ensures |Do(c, step).servers| == |c.servers|
    ensures Inside(Do(c, step).servers[Mover(step)]) <==> CoversCommit(c, step)
  {
    hide Inside, Inv, OnTimeout, OnRequestVote, OnVoteReply, OnAppend, OnAppendReply, OnInstall, OnInstallReply,
      OnRestart, Installs, AppendFor, SnapshotMsg;
    InvFacts(c);
    match step
    case Timeout(i) => TimeoutInside(c.servers[i]);
    case HandleVote(m) => VoteInside(c.servers[m.dst], m.va);
    case HandleVoteReply(m) => VoteReplyInside(c.servers[m.src], m.va.term, m.vr);
    case Start(i, command) => StartInside(c.servers[i], command);
    case SendAppend(i, p) =>
    case HandleAppend(m) => AppendInside(c.servers[m.dst], m.aa);
    case HandleAppendReply(m) => AppendReplyInside(c.servers[m.src], m.dst, m.aa, m.ar);
    case SendSnapshot(i, p) =>
    case HandleInstall(m) => InstallInside(c.servers[m.dst], m.sa);
    case HandleInstallReply(m) => InstallReplyInside(c.servers[m.src], m.dst, m.sa, m.sr);
    case Compact(i, index) => CompactInside(c.servers[i], index);
    case Apply(i) => ApplyInside(c.servers[i]);
    case Restart(i) =>
      ServerFacts(c, i);
      RestartInside(c.servers[i]);
  }

  lemma StartInside(s: Server, command: Command)
    requires s.me < |s.matchIndex| && Inside(s)
    ensures Inside(OnStart(s, command))
  {
  }

  lemma CompactInside(s: Server, index: nat)
    requires Inside(s)
    ensures SnapshotInRange(s, index) && Inside(OnSnapshot(s, index))
  {
  }

  lemma ApplyInside(s: Server)
    requires WantsApply(s) && Inside(s)
    ensures Inside(OnApply(s))
  {
  }

  /** From a state in which all indices are inside the logs, a step leads to another such state if and only
      if it is not the install of a snapshot that ends before the receiver's commit index. */
  lemma InsideExactly(c: Cluster, step: Step)
    requires Inv(c) && Enabled(c, step) && AllInside(c)
    ensures AllInside(Do(c, step)) <==> CoversCommit(c, step)
  {
    hide Inv, Inside, Do, Enabled, CoversCommit;
    InvFacts(c);
    MoverExists(c, step);
    StepInside(c, step);
    forall i: nat | i < |c.servers| && i != Mover(step) ensures Inside(Do(c, step).servers[i]) {
      Untouched(c, step, i);
    }
  }

  lemma MoverExists(c: Cluster, step: Step)
    requires WellFormed(c) && Enabled(c, step)
    ensures Mover(step) < |c.servers|
  {
  }

  // ---------------------------------------------------------------- whole runs

  /** Every install of the first `l` steps covers the receiver's commit index. */
  ghost predicate InstallsCover(states: seq<Cluster>, steps: seq<Step>, l: nat)
    requires l <= |steps| < |states|
  {
    forall k {:trigger steps[k]} :: 0 <= k < l ==> CoversCommit(states[k], steps[k])
  }

  lemma {:induction false} CoveringInside(n: nat, states: seq<Cluster>, steps: seq<Step>, l: nat)
    requires IsRun(n, states, steps) && l <= |steps| && InstallsCover(states, steps, l)
    ensures AllInside(states[l])
  {
    hide Inv, Do, Enabled, CoversCommit, Inside;
    if l == 0 {
      InitInside(n);
    } else {
      CoveringInside(n, states, steps, l - 1);
      RunInv(n, states, steps, l - 1);
      assert Next(states[l - 1], steps[l - 1], states[l - 1 + 1]);
      InsideExactly(states[l - 1], steps[l - 1]);
    }
  }

  lemma InitInside(n: nat)
    ensures AllInside(Init(n))
  {
  }

  /** Over a whole run: all indices are inside the logs in all states if and only if every snapshot that is
      installed covers its receiver's commit index. */
  lemma RunInsideExactly(n: nat, states: seq<Cluster>, steps: seq<Step>)
    requires IsRun(n, states, steps)
    ensures (forall k :: 0 <= k < |states| ==> AllInside(states[k])) <==> InstallsCover(states, steps, |steps|)
  {
    hide Inv, Do, Enabled, CoversCommit, AllInside;
    if InstallsCover(states, steps, |steps|) {
      forall k | 0 <= k < |states| ensures AllInside(states[k]) {
        CoveringInside(n, states, steps, k);
      }
    }
    if forall k :: 0 <= k < |states| ==> AllInside(states[k]) {
      forall k | 0 <= k < |steps| ensures CoversCommit(states[k], steps[k]) {
        RunInv(n, states, steps, k);
        assert Next(states[k], steps[k], states[k + 1]);
        InsideExactly(states[k], steps[k]);
      }
    }
  }

  /** Then what BackgroundApplyRoutine or Snapshot reads next exists. */
  lemma NoPanics(n: nat, states: seq<Cluster>, steps: seq<Step>, k: nat, a: nat, index: nat)
    requires IsRun(n, states, steps) && k < |states| && a < n && InstallsCover(states, steps, k)
    ensures a < |states[k].servers|
    ensures var s := states[k].servers[a]; (WantsApply(s) ==> ApplyInRange(s)) && SnapshotInRange(s, index)
  {
    hide Inv;
    RunInv(n, states, steps, k);
    CoveringInside(n, states, steps, k);
    assert Inside(states[k].servers[a]);
  }

  /** Orderly runs are among these. */
  lemma OrderlyInstallsCover(n: nat, states: seq<Cluster>, steps: seq<Step>)
    requires IsOrderlyRun(n, states, steps)
    ensures InstallsCover(states, steps, |steps|)
  {
    hide SafeInv, Do, Enabled, WellFormed, Orderly;
    forall k | 0 <= k < |steps| ensures CoversCommit(states[k], steps[k]) {
      OrderlySafe(n, states, steps, k);
      assert steps[k] == steps[k];
      OrderlyCoversCommit(states[k], steps[k]);
    }
  }

  lemma OrderlyCoversCommit(c: Cluster, step: Step)
    requires SafeInv(c) && Enabled(c, step) && Orderly(c, step)
    ensures CoversCommit(c, step)
  {
    hide Inv, BallotsSafe, HistoryOK, Held, Committed, MsgSafe, DeliverySafe, Covers;
    InvFacts(c);
    if step.HandleInstall? && Installs(c.servers[step.m.dst], step.m.sa) {
      var s, v := c.servers[step.m.dst], c.vlogs[step.m.dst];
      ChosenFacts(c);
      assert ServerSafe(|c.servers|, c.history, s, v);
      CommitIsCovered(|c.servers|, c.history, s, v, step.m.sa);
    }
  }

  /** As long as all indices are inside the log nothing that is committed stays unapplied. */
  lemma AppliesAllCommitted(s: Server)
    requires Inside(s)
    ensures WantsApply(s) <==> s.lastApplied < s.commitIndex
  {
  }

  // ---------------------------------------------------------------- expression by expression

  /** When the expression of src/raft/raft.go:803 is out of range in a reachable state: everything the server
      holds is applied, something it does not hold is committed, and it holds something. */
  lemma ApplyPanicsExactly(c: Cluster, i: nat)
    requires Inv(c) && i < |c.servers|
    ensures var s := c.servers[i];
            (WantsApply(s) && !ApplyInRange(s)) <==>
            (s.snapIndex < s.LastIndex() <= s.lastApplied < s.commitIndex)
  {
    ServerFacts(c, i);
  }

  /** When the expressions of src/raft/raft.go:259-263 are out of range for some index. */
  lemma SnapshotPanicsExactly(s: Server)
    ensures (exists index: nat :: !SnapshotInRange(s, index)) <==> s.lastApplied > s.LastIndex()
  {
    if s.lastApplied > s.LastIndex() {
      assert !SnapshotInRange(s, s.lastApplied);
    }
  }

  /** Everything that was applied is still held or compacted. */
  ghost predicate AllHeld(c: Cluster) {
    forall i {:trigger c.servers[i]} :: 0 <= i < |c.servers| ==> c.servers[i].lastApplied <= c.servers[i].LastIndex()
  }

  /** A snapshot that is installed reaches at least to what its receiver has applied. */
  ghost predicate CoversApplied(c: Cluster, step: Step) {
    step.HandleInstall? && step.m.SnapReq? && step.m.dst < |c.servers| && Installs(c.servers[step.m.dst], step.m.sa) ==>
      c.servers[step.m.dst].lastApplied <= step.m.sa.lastIndex
  }

  lemma QuietHeld(c: Cluster, step: Step)
    requires Inv(c) && Enabled(c, step) && Mover(step) < |c.servers|
    requires !step.Apply? && !step.HandleInstall? && !step.HandleAppend?
    ensures |Do(c, step).servers| == |c.servers|
    ensures var s, s' := c.servers[Mover(step)], Do(c, step).servers[Mover(step)];
            s'.lastApplied <= s.lastApplied && s.LastIndex() <= s'.LastIndex()
  {
    hide Inv, CommitPoint, BackUp, Agreeing;
    InvFacts(c);
    SameSize(c, step);
    if step.Restart? { ServerFacts(c, step.i); }
  }

  lemma AppendHeld(s: Server, a: AppendArgs)
    ensures var s' := OnAppend(s, a).0; s.lastApplied <= s.LastIndex() ==> s'.lastApplied <= s'.LastIndex()
  {
    hide Rejection;
  }

  lemma InstallHeld(s: Server, a: SnapArgs)
    requires s.lastApplied <= s.LastIndex()
    ensures var s' := OnInstall(s, a).0;
            s'.lastApplied <= s'.LastIndex() <==> (Installs(s, a) ==> s.lastApplied <= a.lastIndex)
  {
  }

  lemma StepHeld(c: Cluster, step: Step)
    requires Inv(c) && Enabled(c, step) && Mover(step) < |c.servers|
    requires c.servers[Mover(step)].lastApplied <= c.servers[Mover(step)].LastIndex()
    ensures |Do(c, step).servers| == |c.servers|
    ensures var s' := Do(c, step).servers[Mover(step)]; s'.lastApplied <= s'.LastIndex() <==> CoversApplied(c, step)
  {
    hide Inv, OnAppend, OnInstall, Installs, NextApplied;
    InvFacts(c);
    match step
    case HandleAppend(m) => AppendHeld(c.servers[m.dst], m.aa);
    case HandleInstall(m) => InstallHeld(c.servers[m.dst], m.sa);
    case Apply(i) =>
    case _ => QuietHeld(c, step);
  }

  /** From a state in which everything applied is held, a step leads to another such state if and only if it
      is not the install of a snapshot that ends before what the receiver has applied. */
  lemma HeldExactly(c: Cluster, step: Step)
    requires Inv(c) && Enabled(c, step) && AllHeld(c)
    ensures AllHeld(Do(c, step)) <==> CoversApplied(c, step)
  {
    hide Inv, Do, Enabled, CoversApplied;
    InvFacts(c);
    MoverExists(c, step);
    StepHeld(c, step);
    forall i: nat | i < |c.servers| && i != Mover(step)
      ensures Do(c, step).servers[i].lastApplied <= Do(c, step).servers[i].LastIndex()
    {
      Untouched(c, step, i);
    }
  }

  ghost predicate InstallsCoverApplied(states: seq<Cluster>, steps: seq<Step>, l: nat)
    requires l <= |steps| < |states|
  {
    forall k {:trigger steps[k]} :: 0 <= k < l ==> CoversApplied(states[k], steps[k])
  }

  lemma {:induction false} CoveringHeld(n: nat, states: seq<Cluster>, steps: seq<Step>, l: nat)
    requires IsRun(n, states, steps) && l <= |steps| && InstallsCoverApplied(states, steps, l)
    ensures AllHeld(states[l])
  {
    hide Inv, Do, Enabled, CoversApplied;
    if l > 0 {
      CoveringHeld(n, states, steps, l - 1);
      RunInv(n, states, steps, l - 1);
      assert Next(states[l - 1], steps[l - 1], states[l - 1 + 1]);
      HeldExactly(states[l - 1], steps[l - 1]);
    }
  }

  /** Over a whole run: no request for a snapshot could make Snapshot panic in any state if and only if every
      snapshot that was installed reaches at least to what its receiver had applied. */
  lemma RunSnapshotsExactly(n: nat, states: seq<Cluster>, steps: seq<Step>)
    requires IsRun(n, states, steps)
    ensures (forall k, i, index: nat :: 0 <= k < |states| && 0 <= i < |states[k].servers| ==>
               SnapshotInRange(states[k].servers[i], index))
            <==> InstallsCoverApplied(states, steps, |steps|)
  {
    hide Inv, Do, Enabled, CoversApplied, SnapshotInRange;
    if InstallsCoverApplied(states, steps, |steps|) {
      forall k, i, index: nat | 0 <= k < |states| && 0 <= i < |states[k].servers|
        ensures SnapshotInRange(states[k].servers[i], index)
      {
        CoveringHeld(n, states, steps, k);
        SnapshotPanicsExactly(states[k].servers[i]);
      }
    }
    if forall k, i, index: nat :: 0 <= k < |states| && 0 <= i < |states[k].servers| ==>
         SnapshotInRange(states[k].servers[i], index) {
      forall k | 0 <= k < |steps| ensures CoversApplied(states[k], steps[k]) {
        InRangeHeld(states[k]);
        InRangeHeld(states[k + 1]);
        RunInv(n, states, steps, k);
        assert Next(states[k], steps[k], states[k + 1]);
        HeldExactly(states[k], steps[k]);
      }
    }
  }

  lemma InRangeHeld(c: Cluster)
    requires forall i, index: nat :: 0 <= i < |c.servers| ==> SnapshotInRange(c.servers[i], index)
    ensures AllHeld(c)
  {
    hide SnapshotInRange;
    forall i | 0 <= i < |c.servers| ensures c.servers[i].lastApplied <= c.servers[i].LastIndex() {
      SnapshotPanicsExactly(c.servers[i]);
    }
  }
}
