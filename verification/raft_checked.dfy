/** What a follower has to check for State Machine Safety to hold: Figure 2's rule for AppendEntries and
    section 7's rule for InstallSnapshot, which the code leaves out (src/raft/raft.go:415-422 and 152-167).
    Both are tests of the receiver's own log against the request, before anything is cut. */
module RaftChecked {
  import opened RaftTypes
  import opened RaftSteps
  import opened RaftCluster
  import opened RaftInvariant
  import opened RaftPreservation
  import opened RaftTheorems
  import opened RaftSafety

  /** Some entry that the server still holds differs from the one that was sent for its index. */
  predicate Conflicts(s: Server, a: AppendArgs)
    requires Matches(s, a)
  {
    exists i: nat {:trigger s.TermOf(i)} ::
      a.prevIndex < i <= s.LastIndex() && i <= a.prevIndex + |a.entries|
      && s.TermOf(i) != a.entries[i - a.prevIndex - 1].term
  }

  /** Accepting the request cuts off no entry, unless there is a conflict. */
  predicate AppendAllowed(s: Server, a: AppendArgs) {
    a.term >= s.currentTerm && Matches(s, a) ==> s.LastIndex() <= a.prevIndex + |a.entries| || Conflicts(s, a)
  }

  /** Installing the snapshot discards no entry behind it, unless the log does not contain its last one. */
  predicate InstallAllowed(s: Server, a: SnapArgs) {
    Installs(s, a) ==> s.LastIndex() <= a.lastIndex || s.TermOf(a.lastIndex) != a.lastTerm
  }

  predicate Allowed(c: Cluster, step: Step)
    requires WellFormed(c) && Enabled(c, step)
  {
    match step
    case HandleAppend(m) => AppendAllowed(c.servers[m.dst], m.aa)
    case HandleInstall(m) => InstallAllowed(c.servers[m.dst], m.sa)
    case _ => true
  }

  predicate CheckedStep(c: Cluster, step: Step) {
    WellFormed(c) && Enabled(c, step) && Allowed(c, step)
  }

  /** A run in which every append that is accepted and every snapshot that is installed passes its check. */
  ghost predicate IsCheckedRun(n: nat, states: seq<Cluster>, steps: seq<Step>) {
    && IsRun(n, states, steps)
    && forall k {:trigger steps[k]} :: 0 <= k < |steps| ==>
         CheckedStep(states[k], steps[k])
  }

  // ---------------------------------------------------------------- one request

  /** Whoever acknowledged `length` entries to the leader of its own term still has them. */
  lemma AckedIsHeld(n: nat, h: History, s: Server, v: seq<Entry>, b: Ack)
    requires ServerSafe(n, h, s, v) && b in h.acks && b.server == s.me && b.term == s.currentTerm
    ensures b.term in h.reigns && (b.length <= |h.reigns[b.term].log| ==> Agree(h.reigns[b.term].log, v, b.length))
  {
    assert Held(h, v, b, s.currentTerm + 1);
  }

  /** A log that shares more with the sender's log than was sent does not conflict with what was sent. */
  lemma SharedNoConflict(s: Server, v: seq<Entry>, a: AppendArgs, full: seq<Entry>, log: seq<Entry>, length: nat)
    requires Retained(s, v) && Matches(s, a) && a.prevIndex <= |full| && a.entries == full[a.prevIndex..]
    requires IsPrefix(full, log) && Agree(log, v, length) && length > |full|
    ensures !Conflicts(s, a) && s.LastIndex() > a.prevIndex + |a.entries|
  {
    LastOfVirtual(s, v);
    forall i: nat | a.prevIndex < i <= s.LastIndex() && i <= a.prevIndex + |a.entries|
      ensures s.TermOf(i) == a.entries[i - a.prevIndex - 1].term
    {
      TermOfVirtual(s, v, i);
      assert a.entries[i - a.prevIndex - 1] == full[i - 1] == log[i - 1] == v[i - 1];
    }
  }

  /** An append that Figure 2 allows to replace the follower's tail is orderly. */
  lemma CheckedAppendIsOrderly(c: Cluster, m: Msg)
    requires SafeInv(c) && Enabled(c, HandleAppend(m)) && AppendAllowed(c.servers[m.dst], m.aa)
    ensures Orderly(c, HandleAppend(m))
  {
    hide Inv, HistoryOK, BallotsSafe, ServersOK, ServerSafe, MsgSafe, DeliverySafe, Matches, Conflicts, AckOK,
      Retained, NotAhead, LeaderOK;
    SafeParts(c, m.dst);
    AppendParts(c, m);
    var n, h, i, a := |c.servers|, c.history, m.dst, m.aa;
    var s, v := c.servers[i], c.vlogs[i];
    if a.term >= s.currentTerm && Matches(s, a) {
      forall b | b in h.acks && b.server == i && b.term == a.term ensures b.length <= a.prevIndex + |a.entries| {
        AckParts(c, b);
        if b.length > |m.full| {
          AckedIsHeld(n, h, s, v, b);
          SharedNoConflict(s, v, a, m.full, h.reigns[a.term].log, b.length);
        }
      }
    }
  }

  lemma SafeParts(c: Cluster, i: nat)
    requires SafeInv(c) && i < |c.servers|
    ensures Inv(c) && i < |c.vlogs| && ServerSafe(|c.servers|, c.history, c.servers[i], c.vlogs[i])
    ensures c.servers[i].me == i && Retained(c.servers[i], c.vlogs[i])
  {
    hide Inv, BallotsSafe, ServerSafe, MsgSafe, DeliverySafe, Retained, NotAhead, LeaderOK;
    InvFacts(c);
    ServerFacts(c, i);
  }

  lemma AppendParts(c: Cluster, m: Msg)
    requires Inv(c) && m in c.net && m.AppendReq?
    ensures m.aa.term in c.history.reigns && IsPrefix(m.full, c.history.reigns[m.aa.term].log)
    ensures m.aa.prevIndex <= |m.full| && m.aa.entries == m.full[m.aa.prevIndex..]
  {
    hide HistoryOK, ServersOK;
    assert MsgOK(|c.servers|, c.history, m);
  }

  /** An acknowledgement is of a real log, and never from a term its server has not reached. */
  lemma AckParts(c: Cluster, b: Ack)
    requires Inv(c) && b in c.history.acks
    ensures b.server < |c.servers| && b.term in c.history.reigns
    ensures b.length <= |c.history.reigns[b.term].log| && b.term <= c.servers[b.server].currentTerm
  {
    hide ServersOK, MsgOK, ReignOK, BallotOK, BidOK, NotAhead;
    assert AckOK(|c.servers|, c.history, b);
    AckTerm(c, b);
  }

  lemma AckTerm(c: Cluster, b: Ack)
    requires Inv(c) && b in c.history.acks && b.server < |c.servers|
    ensures b.term <= c.servers[b.server].currentTerm
  {
    hide HistoryOK, ServersOK, MsgOK;
    ServerFacts(c, b.server);
  }

  // ---------------------------------------------------------------- whole runs

  lemma CheckedStepIsOrderly(c: Cluster, step: Step)
    requires SafeInv(c) && CheckedStep(c, step)
    ensures OrderlyStep(c, step)
  {
    hide SafeInv, Inv, AppendAllowed, Matches, Covers;
    match step
    case HandleAppend(m) => CheckedAppendIsOrderly(c, m);
    case HandleInstall(m) =>
      if Installs(c.servers[m.dst], m.sa) {
        SafeParts(c, m.dst);
        CheckedInstallIsOrderly(c, m);
      }
    case _ =>
  }

  lemma {:induction false} CheckedSafe(n: nat, states: seq<Cluster>, steps: seq<Step>, l: nat)
    requires IsCheckedRun(n, states, steps) && l <= |steps|
    ensures SafeInv(states[l])
  {
    hide SafeInv, Do, Enabled, Orderly, Allowed, WellFormed;
    if l == 0 {
      InitSafe(n);
    } else {
      CheckedSafe(n, states, steps, l - 1);
      assert Next(states[l - 1], steps[l - 1], states[l - 1 + 1]);
      CheckedStepIsOrderly(states[l - 1], steps[l - 1]);
      StepKeepsSafe(states[l - 1], steps[l - 1]);
    }
  }

  /** With both checks every run is orderly, whatever the network does. */
  lemma CheckedRunIsOrderly(n: nat, states: seq<Cluster>, steps: seq<Step>)
    requires IsCheckedRun(n, states, steps)
    ensures IsOrderlyRun(n, states, steps)
  {
    hide SafeInv, OrderlyStep, CheckedStep, Next;
    forall k | 0 <= k < |steps| ensures OrderlyStep(states[k], steps[k]) {
      CheckedSafe(n, states, steps, k);
      assert CheckedStep(states[k], steps[k]);
      CheckedStepIsOrderly(states[k], steps[k]);
    }
  }

  /** State Machine Safety for servers that check: no two of them are ever handed different commands for
      one index. */
  lemma CheckedStateMachineSafety(n: nat, states: seq<Cluster>, steps: seq<Step>, j: nat, k: nat, d: Delivery,
                                  e: Delivery)
    requires IsCheckedRun(n, states, steps) && j <= k < |states|
    requires d in states[j].delivered && e in states[k].delivered && d.index == e.index
    ensures d.command == e.command
  {
    CheckedRunIsOrderly(n, states, steps);
    StateMachineSafety(n, states, steps, j, k, d, e);
  }

  /** Leader Completeness for servers that check: what a leader committed is in the log of every leader of
      the same or a later term from then on. */
  lemma CheckedCommittedStays(n: nat, states: seq<Cluster>, steps: seq<Step>, j: nat, k: nat, a: nat, t: nat,
                              b: nat, u: nat, x: nat)
    requires IsCheckedRun(n, states, steps) && j <= k < |states|
    requires Leads(states[j], a, t) && Leads(states[k], b, u) && t <= u
    requires x <= states[j].servers[a].commitIndex
    ensures a < |states[j].vlogs| && b < |states[k].vlogs|
    ensures Agree(states[j].vlogs[a], states[k].vlogs[b], x)
  {
    CheckedRunIsOrderly(n, states, steps);
    CommittedStays(n, states, steps, j, k, a, t, b, u, x);
  }
}
