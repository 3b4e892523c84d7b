/** The key/value service on top of the Raft cluster: every server feeds what its Raft peer applies to
    its own store, hands its own state to Raft when the log is compacted, and takes over the state in a
    snapshot that Raft installs or finds after a crash (src/kvraft/server.go:80-125).

    The apply channel is taken to deliver at once: the race between the sends of InstallSnapshot and
    BackgroundApplyRoutine is not part of this model. */
module ReplicatedKv {
  import opened Collections
  import opened RaftTypes
  import opened RaftSteps
  import opened RaftCluster
  import opened RaftInvariant
  import opened RaftPreservation
  import opened RaftTheorems
  import opened RaftSafety
  import Kv = KvSpec

  /** How a service reads a command, `msg.Command.(Op)`. */
  type Decode = Command -> Kv.Op

  /** Of every server the store in memory and the state saved with its snapshot, and what travels with
      each snapshot message. A state that was never saved is the empty one: installing it on an empty
      store does nothing, like the undecodable bytes the source then reads. */
  datatype Service = Service(stores: seq<Kv.State>, images: seq<Kv.State>, sent: set<(Msg, Kv.State)>)

  ghost function Idle(n: nat): Service {
    Service(seq(n, _ => Kv.EMPTY), seq(n, _ => Kv.EMPTY), {})
  }

  ghost predicate Fits(c: Cluster, v: Service) {
    |v.stores| == |v.images| == |c.servers|
  }

  predicate Compacts(s: Server, index: nat) {
    s.snapIndex < index <= s.lastApplied
  }

  /** Server `i` takes over the state in a snapshot. */
  function TakenOver(v: Service, i: nat, data: Kv.State): Service
    requires i < |v.stores| == |v.images|
  {
    v.(stores := v.stores[i := Kv.Installed(v.stores[i], data)], images := v.images[i := data])
  }

  /** What the services do when the cluster takes a step. */
  ghost predicate Serves(decode: Decode, c: Cluster, step: Step, v: Service, v': Service)
    requires WellFormed(c) && Enabled(c, step) && Fits(c, v)
  {
    match step
    case Apply(i) =>
      var s := c.servers[i];
      v' == v.(stores := v.stores[i := Kv.Applied(v.stores[i], decode(NextApplied(s)), s.lastApplied + 1)])
    case Compact(i, index) =>
      v' == if Compacts(c.servers[i], index) then v.(images := v.images[i := v.stores[i]]) else v
    case SendSnapshot(i, p) =>
      v' == v.(sent := v.sent + {(SnapshotMsg(c, i, p), v.images[i])})
    case HandleInstall(m) =>
      if Installs(c.servers[m.dst], m.sa) then exists data :: (m, data) in v.sent && v' == TakenOver(v, m.dst, data)
      else v' == v
    case Restart(i) => v' == v.(stores := v.stores[i := Kv.Installed(Kv.EMPTY, v.images[i])])
    case _ => v' == v
  }

  ghost predicate Moves(decode: Decode, c: Cluster, step: Step, v: Service, v': Service) {
    WellFormed(c) && Enabled(c, step) && Fits(c, v) && Serves(decode, c, step, v, v')
  }

  /** The services follow the first `l` steps of a run. */
  ghost predicate Follows(decode: Decode, n: nat, states: seq<Cluster>, steps: seq<Step>, services: seq<Service>,
                          l: nat)
    requires |states| == |steps| + 1 && l <= |steps|
  {
    && |services| == l + 1 && services[0] == Idle(n)
    && forall k {:trigger services[k]} :: 0 <= k < l ==>
       Moves(decode, states[k], steps[k], services[k], services[k + 1])
  }

  /** An orderly run of the cluster with its services. */
  ghost predicate IsServiceRun(decode: Decode, n: nat, states: seq<Cluster>, steps: seq<Step>, services: seq<Service>) {
    IsOrderlyRun(n, states, steps) && Follows(decode, n, states, steps, services, |steps|)
  }

  // ---------------------------------------------------------------- committed logs

  function Ops(decode: Decode, log: seq<Entry>): (ops: seq<Kv.Op>)
    ensures |ops| == |log| && forall i :: 0 <= i < |log| ==> ops[i] == decode(log[i].command)
  {
    seq(|log|, i requires 0 <= i < |log| => decode(log[i].command))
  }

  function State(decode: Decode, log: seq<Entry>): Kv.State {
    Kv.Fold(Ops(decode, log), |log|)
  }

  lemma {:induction false} SameFold(a: seq<Kv.Op>, b: seq<Kv.Op>, k: nat)
    requires k <= |a| && k <= |b| && forall i :: 0 <= i < k ==> a[i] == b[i]
    ensures Kv.Fold(a, k) == Kv.Fold(b, k)
  {
    if k > 0 { SameFold(a, b, k - 1); }
  }

  lemma {:induction false} PrefixState(decode: Decode, a: seq<Entry>, b: seq<Entry>)
    requires IsPrefix(a, b)
    ensures State(decode, a) == Kv.Fold(Ops(decode, b), |a|)
  {
    SameFold(Ops(decode, a), Ops(decode, b), |a|);
  }

  /** Any two committed logs agree as far as the shorter goes. */
  lemma CommittedAgree(n: nat, h: History, a: seq<Entry>, x: nat, hi: nat, b: seq<Entry>, y: nat, hi': nat)
    requires HistoryOK(n, h) && BallotsSafe(h) && Committed(n, h, a, x, hi) && Committed(n, h, b, y, hi') && x <= y
    ensures Agree(a, b, x)
  {
    hide HistoryOK, BallotsSafe, Chosen;
    if x > 0 {
      var t: nat, m: nat :| t <= hi && Backed(n, h, a, x, t, m);
      var u: nat, l: nat :| u <= hi' && Backed(n, h, b, y, u, l);
      ReignOfChosen(n, h, t, m);
      ReignOfChosen(n, h, u, l);
      if t <= u { ChosenAgree(n, h, t, m, u); } else { ChosenAgree(n, h, u, l, t); }
    }
  }

  /** `log` is committed as a whole. */
  ghost predicate Settled(n: nat, h: History, log: seq<Entry>) {
    exists hi: nat :: Committed(n, h, log, |log|, hi)
  }

  lemma SettledAgree(n: nat, h: History, a: seq<Entry>, b: seq<Entry>)
    requires HistoryOK(n, h) && BallotsSafe(h) && Settled(n, h, a) && Settled(n, h, b) && |a| <= |b|
    ensures IsPrefix(a, b)
  {
    hide HistoryOK, BallotsSafe, Committed;
    var hi: nat :| Committed(n, h, a, |a|, hi);
    var hi': nat :| Committed(n, h, b, |b|, hi');
    CommittedAgree(n, h, a, |a|, hi, b, |b|, hi');
  }

  lemma SettledExtends(n: nat, h: History, h': History, log: seq<Entry>)
    requires Extends(h, h') && Settled(n, h, log)
    ensures Settled(n, h', log)
  {
    hide Chosen, Extends;
    var hi: nat :| Committed(n, h, log, |log|, hi);
    if |log| > 0 {
      var t: nat, m: nat :| t <= hi && Backed(n, h, log, |log|, t, m);
      ChosenExtends(n, h, h', t, m);
      assert Backed(n, h', log, |log|, t, m);
    }
    assert Committed(n, h', log, |log|, hi);
  }

  /** What a server may apply next is settled. */
  lemma NextSettled(c: Cluster, i: nat)
    requires SafeInv(c) && i < |c.servers| && WantsApply(c.servers[i])
    ensures i < |c.vlogs| && ApplyInRange(c.servers[i]) && c.servers[i].lastApplied < |c.vlogs[i]|
    ensures c.vlogs[i][c.servers[i].lastApplied].command == NextApplied(c.servers[i])
    ensures Settled(|c.servers|, c.history, c.vlogs[i][..c.servers[i].lastApplied + 1])
  {
    hide Inv, BallotsSafe, HistoryOK, Held, Chosen, Committed, NotAhead, LeaderOK;
    ServerFacts(c, i);
    var n, h, s, v := |c.servers|, c.history, c.servers[i], c.vlogs[i];
    assert ServerSafe(n, h, s, v);
    var x := s.lastApplied + 1;
    LastOfVirtual(s, v);
    FewerCommitted(n, h, v, s.commitIndex, s.currentTerm, x);
    LongerCommitted(n, h, v, v[..x], x, s.currentTerm);
    assert Committed(n, h, v[..x], |v[..x]|, s.currentTerm);
  }

  // ---------------------------------------------------------------- the invariant

  /** `state` is that after a settled log of at least `length` entries. */
  ghost predicate Reflects(decode: Decode, n: nat, h: History, state: Kv.State, length: nat) {
    exists log :: Settled(n, h, log) && |log| >= length && state == State(decode, log)
  }

  ghost predicate ServiceInv(decode: Decode, c: Cluster, v: Service) {
    && Fits(c, v)
    && (forall i :: 0 <= i < |c.servers| ==>
       Reflects(decode, |c.servers|, c.history, v.stores[i], c.servers[i].lastApplied))
    && (forall i :: 0 <= i < |c.servers| ==>
       Reflects(decode, |c.servers|, c.history, v.images[i], c.servers[i].snapIndex))
    && (forall m, data :: (m, data) in v.sent && m.SnapReq? ==>
          Reflects(decode, |c.servers|, c.history, data, m.sa.lastIndex))
  }

  /** A log that the state reflects. */
  lemma Reflected(decode: Decode, n: nat, h: History, state: Kv.State, length: nat) returns (log: seq<Entry>)
    requires Reflects(decode, n, h, state, length)
    ensures Settled(n, h, log) && |log| >= length && state == State(decode, log)
  {
    hide Settled, State;
    log :| Settled(n, h, log) && |log| >= length && state == State(decode, log);
  }

  lemma ReflectsExtends(decode: Decode, n: nat, h: History, h': History, state: Kv.State, length: nat, less: nat)
    requires Extends(h, h') && Reflects(decode, n, h, state, length) && less <= length
    ensures Reflects(decode, n, h', state, less)
  {
    hide Settled, Extends, State;
    var log :| Settled(n, h, log) && |log| >= length && state == State(decode, log);
    SettledExtends(n, h, h', log);
  }

  lemma EmptyReflects(decode: Decode, n: nat, h: History)
    ensures Reflects(decode, n, h, Kv.EMPTY, 0)
  {
    var log: seq<Entry> := [];
    assert Committed(n, h, log, |log|, 0);
    assert Settled(n, h, log) && Kv.EMPTY == State(decode, log);
  }

  /** Applying the next entry. */
  lemma AppliedReflects(decode: Decode, c: Cluster, i: nat, state: Kv.State)
    requires SafeInv(c) && i < |c.servers| && WantsApply(c.servers[i]) && ApplyInRange(c.servers[i])
    requires Reflects(decode, |c.servers|, c.history, state, c.servers[i].lastApplied)
    ensures var s := c.servers[i];
            Reflects(decode, |c.servers|, c.history, Kv.Applied(state, decode(NextApplied(s)), s.lastApplied + 1),
              s.lastApplied + 1)
  {
    hide Inv, BallotsSafe, HistoryOK, Settled, ServerSafe, MsgSafe, DeliverySafe, WantsApply, Kv.Applied, NextApplied;
    NextSettled(c, i);
    ChosenFacts(c);
    var n, h, s := |c.servers|, c.history, c.servers[i];
    var x, next := s.lastApplied + 1, c.vlogs[i][..s.lastApplied + 1];
    var log :| Settled(n, h, log) && |log| >= s.lastApplied && state == State(decode, log);
    if x <= |log| {
      SettledAgree(n, h, next, log);
      Kv.RepeatChangesNothing(Ops(decode, log), x, |log|);
    } else {
      SettledAgree(n, h, log, next);
      PrefixState(decode, log, next);
    }
  }

  /** Installing a snapshot. */
  lemma InstalledReflects(decode: Decode, n: nat, h: History, state: Kv.State, x: nat, data: Kv.State, y: nat)
    requires HistoryOK(n, h) && BallotsSafe(h)
    requires Reflects(decode, n, h, state, x) && Reflects(decode, n, h, data, y)
    ensures Reflects(decode, n, h, Kv.Installed(state, data), Max(x, y))
  {
    hide HistoryOK, BallotsSafe, Settled, Kv.Installed, Kv.Fold;
    var a :| Settled(n, h, a) && |a| >= x && state == State(decode, a);
    var b :| Settled(n, h, b) && |b| >= y && data == State(decode, b);
    if |a| <= |b| {
      SettledAgree(n, h, a, b);
      PrefixState(decode, a, b);
      Kv.SnapshotIsJoin(Ops(decode, b), |b|, |a|);
    } else {
      SettledAgree(n, h, b, a);
      PrefixState(decode, b, a);
      Kv.SnapshotIsJoin(Ops(decode, a), |b|, |a|);
    }
  }

  // ---------------------------------------------------------------- one step

  lemma SafeFacts(c: Cluster)
    requires SafeInv(c)
    ensures Inv(c) && WellFormed(c) && HistoryOK(|c.servers|, c.history) && BallotsSafe(c.history)
  {
  }

  /** What a step does to the two indices of a server that the services follow. */
  lemma IndicesNext(c: Cluster, step: Step, i: nat)
    requires Inv(c) && Enabled(c, step) && i < |c.servers|
    ensures |Do(c, step).servers| == |c.servers|
    ensures var s, s' := c.servers[i], Do(c, step).servers[i];
            match step
            case Apply(j) => s'.snapIndex == s.snapIndex && s'.lastApplied == s.lastApplied + (if i == j then 1 else 0)
            case Compact(j, index) =>
              && s'.lastApplied == s.lastApplied
              && s'.snapIndex == if i == j && Compacts(s, index) then index else s.snapIndex
            case HandleInstall(m) =>
              if i == m.dst && Installs(s, m.sa)
              then s'.lastApplied == Max(s.lastApplied, m.sa.lastIndex) && s'.snapIndex == m.sa.lastIndex
              else s'.lastApplied == s.lastApplied && s'.snapIndex == s.snapIndex
            case Restart(j) =>
              s'.lastApplied == (if i == j then s.snapIndex else s.lastApplied) && s'.snapIndex == s.snapIndex
            case _ => s'.lastApplied <= s.lastApplied && s'.snapIndex == s.snapIndex
  {
    hide Inv, Do, Enabled;
    WellFormedInv(c);
    Untouched(c, step, i);
    if i == Mover(step) {
      if IsQuiet(step) { QuietSteady(c, step); } else { LoudIndices(c, step); }
    }
  }

  lemma LoudIndices(c: Cluster, step: Step)
    requires Inv(c) && Enabled(c, step) && !IsQuiet(step) && Mover(step) < |c.servers|
    ensures |Do(c, step).servers| == |c.servers|
    ensures var s, s' := c.servers[Mover(step)], Do(c, step).servers[Mover(step)];
            match step
            case Apply(_) => s'.snapIndex == s.snapIndex && s'.lastApplied == s.lastApplied + 1
            case Compact(_, index) =>
              s'.lastApplied == s.lastApplied && s'.snapIndex == if Compacts(s, index) then index else s.snapIndex
            case HandleInstall(m) =>
              if Installs(s, m.sa)
              then s'.lastApplied == Max(s.lastApplied, m.sa.lastIndex) && s'.snapIndex == m.sa.lastIndex
              else s'.lastApplied == s.lastApplied && s'.snapIndex == s.snapIndex
            case Restart(_) => s'.lastApplied == s.snapIndex && s'.snapIndex == s.snapIndex
            case _ => true
  {
    hide Inv, NextApplied;
    WellFormedInv(c);
    if step.Restart? { DiskInSync(c, step.i); }
  }

  lemma StoreNext(decode: Decode, c: Cluster, step: Step, v: Service, v': Service, i: nat)
    requires SafeInv(c) && Enabled(c, step) && ServiceInv(decode, c, v) && i < |c.servers|
    requires Serves(decode, c, step, v, v')
    ensures |v'.stores| == |c.servers| == |Do(c, step).servers|
    ensures Reflects(decode, |c.servers|, c.history, v'.stores[i], Do(c, step).servers[i].lastApplied)
  {
    hide SafeInv, Inv, BallotsSafe, HistoryOK, Do, Kv.Applied, Kv.Installed, WantsApply, NextApplied, Reflects;
    SafeFacts(c);
    IndicesNext(c, step, i);
    var n, h, s := |c.servers|, c.history, c.servers[i];
    var x := Do(c, step).servers[i].lastApplied;
    if step == Apply(i) {
      AppliedReflects(decode, c, i, v.stores[i]);
    } else if step.HandleInstall? && i == step.m.dst && Installs(s, step.m.sa) {
      var data :| (step.m, data) in v.sent && v'.stores == v.stores[i := Kv.Installed(v.stores[i], data)];
      InstalledReflects(decode, n, h, v.stores[i], s.lastApplied, data, step.m.sa.lastIndex);
    } else if step == Restart(i) {
      EmptyReflects(decode, n, h);
      InstalledReflects(decode, n, h, Kv.EMPTY, 0, v.images[i], s.snapIndex);
    } else {
      ReflectsLess(decode, n, h, v.stores[i], s.lastApplied, x);
    }
  }

  lemma ReflectsLess(decode: Decode, n: nat, h: History, state: Kv.State, length: nat, less: nat)
    requires Reflects(decode, n, h, state, length) && less <= length
    ensures Reflects(decode, n, h, state, less)
  {
    hide Settled, State;
  }

  lemma ImageNext(decode: Decode, c: Cluster, step: Step, v: Service, v': Service, i: nat)
    requires SafeInv(c) && Enabled(c, step) && ServiceInv(decode, c, v) && i < |c.servers|
    requires Serves(decode, c, step, v, v')
    ensures |v'.images| == |c.servers| == |Do(c, step).servers|
    ensures Reflects(decode, |c.servers|, c.history, v'.images[i], Do(c, step).servers[i].snapIndex)
  {
    hide SafeInv, Inv, BallotsSafe, HistoryOK, Do, Kv.Applied, Kv.Installed, WantsApply, NextApplied, Reflects;
    SafeFacts(c);
    IndicesNext(c, step, i);
    if step.Compact? && i == step.i && Compacts(c.servers[i], step.index) {
      ReflectsLess(decode, |c.servers|, c.history, v.stores[i], c.servers[i].lastApplied, step.index);
    }
  }

  lemma SentNext(decode: Decode, c: Cluster, step: Step, v: Service, v': Service, m: Msg, data: Kv.State)
    requires WellFormed(c) && Enabled(c, step) && ServiceInv(decode, c, v) && Serves(decode, c, step, v, v')
    requires (m, data) in v'.sent && m.SnapReq?
    ensures Reflects(decode, |c.servers|, c.history, data, m.sa.lastIndex)
  {
    hide Reflects, Kv.Applied, Kv.Installed;
  }

  lemma StepKeepsServiceInv(decode: Decode, c: Cluster, step: Step, v: Service, v': Service)
    requires SafeInv(c) && Enabled(c, step) && ServiceInv(decode, c, v) && Serves(decode, c, step, v, v')
    requires Extends(c.history, Do(c, step).history)
    ensures ServiceInv(decode, Do(c, step), v')
  {
    hide SafeInv, Inv, WellFormed, Reflects, Do, Serves, Extends;
    SafeFacts(c);
    var c', n := Do(c, step), |c.servers|;
    SameSize(c, step);
    Sizes(decode, c, step, v, v');
    forall i: nat | i < n
      ensures Reflects(decode, n, c'.history, v'.stores[i], c'.servers[i].lastApplied)
      ensures Reflects(decode, n, c'.history, v'.images[i], c'.servers[i].snapIndex)
    {
      StoreNext(decode, c, step, v, v', i);
      ImageNext(decode, c, step, v, v', i);
      ReflectsExtends(decode, n, c.history, c'.history, v'.stores[i], c'.servers[i].lastApplied,
        c'.servers[i].lastApplied);
      ReflectsExtends(decode, n, c.history, c'.history, v'.images[i], c'.servers[i].snapIndex, c'.servers[i].snapIndex);
    }
    forall m, data | (m, data) in v'.sent && m.SnapReq? ensures Reflects(decode, n, c'.history, data, m.sa.lastIndex) {
      SentNext(decode, c, step, v, v', m, data);
      ReflectsExtends(decode, n, c.history, c'.history, data, m.sa.lastIndex, m.sa.lastIndex);
    }
  }

  lemma Sizes(decode: Decode, c: Cluster, step: Step, v: Service, v': Service)
    requires WellFormed(c) && Enabled(c, step) && Fits(c, v) && Serves(decode, c, step, v, v')
    ensures Fits(c, v')
  {
    hide Kv.Applied, Kv.Installed;
  }

  // ---------------------------------------------------------------- whole runs

  lemma {:induction false} ServiceRunInv(decode: Decode, n: nat, states: seq<Cluster>, steps: seq<Step>,
                                         services: seq<Service>, k: nat)
    requires IsServiceRun(decode, n, states, steps, services) && k < |states|
    ensures SafeInv(states[k]) && |states[k].servers| == n && ServiceInv(decode, states[k], services[k])
  {
    hide SafeInv, ServiceInv, Do, Enabled, Orderly, WellFormed, Serves, Extends;
    OrderlySafe(n, states, steps, k);
    if k == 0 {
      IdleInv(decode, n);
    } else {
      ServiceRunInv(decode, n, states, steps, services, k - 1);
      assert Moves(decode, states[k - 1], steps[k - 1], services[k - 1], services[k - 1 + 1]);
      assert steps[k - 1] == steps[k - 1];
      assert Next(states[k - 1], steps[k - 1], states[k - 1 + 1]);
      RunExtends(n, states, steps, k - 1, k);
      StepKeepsServiceInv(decode, states[k - 1], steps[k - 1], services[k - 1], services[k]);
    }
  }

  lemma IdleInv(decode: Decode, n: nat)
    ensures ServiceInv(decode, Init(n), Idle(n))
  {
    hide Reflects;
    EmptyReflects(decode, n, Init(n).history);
  }

  /** One log for all: at any two moments of an orderly run, the stores of any two servers are the plain
      folds over two prefixes of one log of committed entries, each no shorter than what its Raft peer
      has applied. */
  lemma OneLog(decode: Decode, n: nat, states: seq<Cluster>, steps: seq<Step>, services: seq<Service>,
               j: nat, a: nat, k: nat, b: nat) returns (log: seq<Entry>, x: nat, y: nat)
    requires IsServiceRun(decode, n, states, steps, services) && j <= k < |states| && a < n && b < n
    ensures |states[j].servers| == |services[j].stores| == |states[k].servers| == |services[k].stores| == n
    ensures x <= |log| && y <= |log| && Settled(n, states[k].history, log)
    ensures states[j].servers[a].lastApplied <= x && services[j].stores[a] == Kv.Fold(Ops(decode, log), x)
    ensures states[k].servers[b].lastApplied <= y && services[k].stores[b] == Kv.Fold(Ops(decode, log), y)
  {
    hide SafeInv, Inv, HistoryOK, BallotsSafe, Settled, Extends, IsServiceRun, IsRun, State, Kv.Fold;
    RunOf(decode, n, states, steps, services);
    ServiceRunInv(decode, n, states, steps, services, j);
    ServiceRunInv(decode, n, states, steps, services, k);
    RunExtends(n, states, steps, j, k);
    var h, h' := states[j].history, states[k].history;
    var u := Reflected(decode, n, h, services[j].stores[a], states[j].servers[a].lastApplied);
    var w := Reflected(decode, n, h', services[k].stores[b], states[k].servers[b].lastApplied);
    SettledExtends(n, h, h', u);
    SafeFacts(states[k]);
    log, x, y := if |u| <= |w| then w else u, |u|, |w|;
    if |u| <= |w| { SettledAgree(n, h', u, w); } else { SettledAgree(n, h', w, u); }
    PrefixState(decode, u, log);
    PrefixState(decode, w, log);
  }

  lemma RunOf(decode: Decode, n: nat, states: seq<Cluster>, steps: seq<Step>, services: seq<Service>)
    requires IsServiceRun(decode, n, states, steps, services)
    ensures IsRun(n, states, steps) && |services| == |states|
  {
  }

  /** Replicas never disagree: two servers, at whatever moments, whose last effective write has the same
      index hold the same store and the same table of client ids. */
  lemma ReplicasAgree(decode: Decode, n: nat, states: seq<Cluster>, steps: seq<Step>, services: seq<Service>,
                      j: nat, a: nat, k: nat, b: nat)
    requires IsServiceRun(decode, n, states, steps, services) && j <= k < |states| && a < n && b < n
    requires a < |services[j].stores| && b < |services[k].stores|
    requires services[j].stores[a].lastIndex == services[k].stores[b].lastIndex
    ensures services[j].stores[a] == services[k].stores[b]
  {
    hide IsServiceRun, Settled, Kv.Fold;
    var log, x, y := OneLog(decode, n, states, steps, services, j, a, k, b);
    var ops := Ops(decode, log);
    if x <= y { Kv.IndexTellsApart(ops, x, y); } else { Kv.IndexTellsApart(ops, y, x); }
  }

  /** Exactly once, for the replicated service: when the committed writes of each client first appear in
      order, every server's store is the plain fold of Put and Append over a prefix of the committed log
      without its repeated writes. */
  lemma ReplicasApplyOnce(decode: Decode, n: nat, states: seq<Cluster>, steps: seq<Step>, services: seq<Service>,
                          k: nat, a: nat) returns (log: seq<Entry>)
    requires IsServiceRun(decode, n, states, steps, services) && k < |states| && a < n
    ensures |states[k].servers| == |services[k].stores| == n
    ensures states[k].servers[a].lastApplied <= |log| && Settled(n, states[k].history, log)
    ensures Kv.InOrder(Ops(decode, log)) ==>
              services[k].stores[a].store == Kv.Plain(Kv.Once(Ops(decode, log), |log|))
  {
    hide SafeInv, Settled, IsServiceRun, IsRun, Kv.Fold, Kv.InOrder, Kv.Once, Kv.Plain;
    RunOf(decode, n, states, steps, services);
    ServiceRunInv(decode, n, states, steps, services, k);
    log := Reflected(decode, n, states[k].history, services[k].stores[a], states[k].servers[a].lastApplied);
    if Kv.InOrder(Ops(decode, log)) { Kv.ExactlyOnce(Ops(decode, log), |log|); }
  }

  // ---------------------------------------------------------------- services exist for every run

  /** Every snapshot message carries a state. */
  ghost predicate Carried(c: Cluster, v: Service) {
    forall m :: m in c.net && m.SnapReq? ==> exists data :: (m, data) in v.sent
  }

  lemma ServiceExists(decode: Decode, c: Cluster, step: Step, v: Service) returns (v': Service)
    requires WellFormed(c) && Enabled(c, step) && Fits(c, v) && Carried(c, v)
    ensures Serves(decode, c, step, v, v') && Fits(Do(c, step), v') && Carried(Do(c, step), v')
  {
    hide Kv.Applied, Kv.Installed, WellFormed, OnRequestVote, OnTimeout, OnVoteReply, OnAppend, OnAppendReply,
      OnStart, OnInstall, OnInstallReply, OnSnapshot, OnRestart, AppendFor, SnapshotMsg, NextApplied;
    SameSize(c, step);
    match step
    case Apply(i) =>
      var s := c.servers[i];
      v' := v.(stores := v.stores[i := Kv.Applied(v.stores[i], decode(NextApplied(s)), s.lastApplied + 1)]);
    case Compact(i, index) =>
      v' := if Compacts(c.servers[i], index) then v.(images := v.images[i := v.stores[i]]) else v;
    case SendSnapshot(i, p) =>
      v' := v.(sent := v.sent + {(SnapshotMsg(c, i, p), v.images[i])});
      CarriedMore(c, step, v, v');
    case HandleInstall(m) =>
      v' := v;
      if Installs(c.servers[m.dst], m.sa) {
        var data :| (m, data) in v.sent;
        v' := TakenOver(v, m.dst, data);
      }
    case Restart(i) => v' := v.(stores := v.stores[i := Kv.Installed(Kv.EMPTY, v.images[i])]);
    case _ => v' := v;
  }

  lemma CarriedMore(c: Cluster, step: Step, v: Service, v': Service)
    requires WellFormed(c) && step.SendSnapshot? && Enabled(c, step) && |v.images| == |c.servers| && Carried(c, v)
    requires v'.sent == v.sent + {(SnapshotMsg(c, step.i, step.peer), v.images[step.i])}
    ensures Carried(Do(c, step), v')
  {
    hide SnapshotMsg;
    forall m | m in Do(c, step).net && m.SnapReq? ensures exists data :: (m, data) in v'.sent {
      if m in c.net {
        var data :| (m, data) in v.sent;
        assert (m, data) in v'.sent;
      } else {
        assert (m, v.images[step.i]) in v'.sent;
      }
    }
  }

  lemma {:induction false} ServicesExist(decode: Decode, n: nat, states: seq<Cluster>, steps: seq<Step>, l: nat)
    returns (services: seq<Service>)
    requires IsRun(n, states, steps) && l <= |steps|
    ensures Follows(decode, n, states, steps, services, l) && |services| == l + 1
    ensures Fits(states[l], services[l]) && Carried(states[l], services[l])
  {
    hide Do, Enabled, WellFormed, Serves, Carried, Follows;
    if l == 0 {
      services := [Idle(n)];
      NothingSent(decode, n, states, steps);
    } else {
      var before := ServicesExist(decode, n, states, steps, l - 1);
      assert Next(states[l - 1], steps[l - 1], states[l - 1 + 1]);
      var last := ServiceExists(decode, states[l - 1], steps[l - 1], before[l - 1]);
      services := before + [last];
      FollowsMore(decode, n, states, steps, before, last, l - 1);
    }
  }

  lemma FollowsMore(decode: Decode, n: nat, states: seq<Cluster>, steps: seq<Step>, services: seq<Service>,
                    last: Service, l: nat)
    requires |states| == |steps| + 1 && l < |steps| && Follows(decode, n, states, steps, services, l)
    requires Moves(decode, states[l], steps[l], services[l], last)
    ensures Follows(decode, n, states, steps, services + [last], l + 1)
  {
    hide Moves;
    var more := services + [last];
    forall k | 0 <= k < l + 1 ensures Moves(decode, states[k], steps[k], more[k], more[k + 1]) {
      assert services[k] == more[k];
    }
  }

  lemma NothingSent(decode: Decode, n: nat, states: seq<Cluster>, steps: seq<Step>)
    requires IsRun(n, states, steps)
    ensures Follows(decode, n, states, steps, [Idle(n)], 0)
    ensures Fits(states[0], Idle(n)) && Carried(states[0], Idle(n))
  {
  }
}
