/** The handlers of the key/value servers on top of the replicated service: what an OK tells a client about
    the committed log (src/kvraft/server.go:112-219). */
module ReplicatedRequests {
  import opened RaftTypes
  import opened RaftSteps
  import opened RaftCluster
  import opened RaftInvariant
  import opened RaftPreservation
  import opened RaftTheorems
  import opened RaftSafety
  import opened ReplicatedKv
  import Kv = KvSpec
  import Wait = KvWaiters

  /** The cluster, its services, and the waiting handlers of every server. */
  datatype System = System(raft: Cluster, service: Service, waiters: seq<Wait.World>)

  datatype Move =
    | RaftMove(step: Step)
    | RaftStart(i: nat, command: Command, h: nat) // handler `h` of server `i` calls rf.Start
    | Local(i: nat, event: Wait.Event)            // a step of the handlers that Raft does not see

  ghost function Boot(n: nat): System {
    System(Init(n), Idle(n), seq(n, _ => Wait.Fresh(Kv.EMPTY)))
  }

  ghost predicate Sized(s: System) {
    WellFormed(s.raft) && Fits(s.raft, s.service) && |s.waiters| == |s.raft.servers|
  }

  predicate IsLocal(c: Cluster, i: nat, e: Wait.Event)
    requires i < |c.servers|
  {
    match e
    case Refuse(_, _, _) => c.servers[i].role != Leader
    case Register(_, _) => true
    case Notify => true
    case Receive(_) => true
    case TimeOut(_) => true
    case Forget(_) => true
    case _ => false
  }

  /** What `ApplyRoutine` and a restart make of the handlers of the server that takes the step. */
  ghost predicate Noticed(decode: Decode, c: Cluster, step: Step, v': Service, ws: seq<Wait.World>,
                          ws': seq<Wait.World>)
    requires WellFormed(c) && Enabled(c, step) && |ws| == |v'.images| == |c.servers|
  {
    match step
    case Apply(i) =>
      var e := Wait.Process(c.servers[i].lastApplied + 1, decode(NextApplied(c.servers[i])));
      Wait.Possible(ws[i], e) && ws' == ws[i := Wait.Do(ws[i], e)]
    case HandleInstall(m) =>
      if Installs(c.servers[m.dst], m.sa)
      then var e := Wait.Install(v'.images[m.dst]);
           Wait.Possible(ws[m.dst], e) && ws' == ws[m.dst := Wait.Do(ws[m.dst], e)]
      else ws' == ws
    case Restart(i) => ws' == ws[i := Wait.Fresh(Kv.Installed(Kv.EMPTY, v'.images[i]))]
    case _ => ws' == ws
  }

  /** The handler that called `rf.Start` goes on with the index it returned. */
  ghost predicate Begun(decode: Decode, c: Cluster, i: nat, command: Command, h: nat, ws: seq<Wait.World>,
                        ws': seq<Wait.World>)
    requires i < |c.servers| == |ws|
  {
    var e := Wait.Begin(h, decode(command), c.servers[i].LastIndex() + 1);
    Wait.Possible(ws[i], e) && ws' == ws[i := Wait.Do(ws[i], e)]
  }

  ghost predicate Goes(decode: Decode, s: System, move: Move, s': System) {
    && Sized(s)
    && match move
       case RaftMove(step) =>
         && !step.Start? && OrderlyStep(s.raft, step) && s'.raft == Do(s.raft, step)
         && Serves(decode, s.raft, step, s.service, s'.service)
         && |s'.service.images| == |s.raft.servers|
         && Noticed(decode, s.raft, step, s'.service, s.waiters, s'.waiters)
       case RaftStart(i, command, h) =>
         && OrderlyStep(s.raft, Step.Start(i, command)) && s'.raft == Do(s.raft, Step.Start(i, command))
         && s'.service == s.service && Begun(decode, s.raft, i, command, h, s.waiters, s'.waiters)
       case Local(i, e) =>
         && i < |s.raft.servers| && s'.raft == s.raft && s'.service == s.service
         && IsLocal(s.raft, i, e) && Wait.Possible(s.waiters[i], e)
         && s'.waiters == s.waiters[i := Wait.Do(s.waiters[i], e)]
  }

  ghost predicate IsSystemRun(decode: Decode, n: nat, states: seq<System>, moves: seq<Move>) {
    && |states| == |moves| + 1
    && states[0] == Boot(n)
    && forall k {:trigger moves[k]} :: 0 <= k < |moves| ==> Goes(decode, states[k], moves[k], states[k + 1])
  }

  // ---------------------------------------------------------------- the invariant

  /** The record's operation is at its index in `log`, and was processed in the state after `y` entries. */
  ghost predicate Placed(decode: Decode, n: nat, h: History, r: Wait.Record, log: seq<Entry>, y: nat) {
    && Settled(n, h, log) && 1 <= r.index <= |log| && r.index <= y + 1 && y <= |log|
    && decode(log[r.index - 1].command) == r.op
    && r.before == Kv.Fold(Ops(decode, log), y)
  }

  ghost predicate RecordPlaced(decode: Decode, n: nat, h: History, r: Wait.Record) {
    exists log, y: nat :: Placed(decode, n, h, r, log, y)
  }

  ghost predicate WaiterOK(decode: Decode, n: nat, h: History, store: Kv.State, w: Wait.World) {
    && Wait.Inv(w) && w.kv == store
    && forall r :: r in w.processed ==> RecordPlaced(decode, n, h, r)
  }

  ghost predicate SystemInv(decode: Decode, n: nat, s: System) {
    && Sized(s) && |s.raft.servers| == n
    && SafeInv(s.raft) && ServiceInv(decode, s.raft, s.service)
    && forall i :: 0 <= i < n ==> WaiterOK(decode, n, s.raft.history, s.service.stores[i], s.waiters[i])
  }

  lemma PlacedExtends(decode: Decode, n: nat, h: History, h': History, r: Wait.Record)
    requires Extends(h, h') && RecordPlaced(decode, n, h, r)
    ensures RecordPlaced(decode, n, h', r)
  {
    hide Extends, Settled, Kv.Fold;
    var log, y: nat :| Placed(decode, n, h, r, log, y);
    SettledExtends(n, h, h', log);
    assert Placed(decode, n, h', r, log, y);
  }

  lemma WaiterExtends(decode: Decode, n: nat, h: History, h': History, store: Kv.State, w: Wait.World)
    requires Extends(h, h') && WaiterOK(decode, n, h, store, w)
    ensures WaiterOK(decode, n, h', store, w)
  {
    hide Extends, RecordPlaced, Wait.Inv;
    forall r | r in w.processed ensures RecordPlaced(decode, n, h', r) {
      PlacedExtends(decode, n, h, h', r);
    }
  }

  /** Processing the next entry that Raft applies puts a record in its place. */
  lemma NextPlaced(decode: Decode, c: Cluster, i: nat, r: Wait.Record)
    requires SafeInv(c) && i < |c.servers| && WantsApply(c.servers[i]) && ApplyInRange(c.servers[i])
    requires Reflects(decode, |c.servers|, c.history, r.before, c.servers[i].lastApplied)
    requires r.index == c.servers[i].lastApplied + 1 && r.op == decode(NextApplied(c.servers[i]))
    ensures RecordPlaced(decode, |c.servers|, c.history, r)
  {
    hide SafeInv, Inv, HistoryOK, BallotsSafe, Settled, WantsApply, NextApplied, Kv.Fold;
    NextSettled(c, i);
    SafeFacts(c);
    var n, h, x := |c.servers|, c.history, r.index;
    var next := c.vlogs[i][..x];
    var log := Reflected(decode, n, h, r.before, x - 1);
    assert r.before == Kv.Fold(Ops(decode, log), |log|);
    if x <= |log| {
      SettledAgree(n, h, next, log);
      assert log[x - 1] == next[x - 1];
      assert Placed(decode, n, h, r, log, |log|);
    } else {
      SettledAgree(n, h, log, next);
      PrefixState(decode, log, next);
      assert next[x - 1] == c.vlogs[i][x - 1];
      assert Placed(decode, n, h, r, next, |log|);
    }
  }

  lemma ProcessOK(decode: Decode, c: Cluster, i: nat, store: Kv.State, w: Wait.World)
    requires SafeInv(c) && i < |c.servers| && WantsApply(c.servers[i]) && ApplyInRange(c.servers[i])
    requires Reflects(decode, |c.servers|, c.history, store, c.servers[i].lastApplied)
    requires WaiterOK(decode, |c.servers|, c.history, store, w)
    requires Wait.Possible(w, Wait.Process(c.servers[i].lastApplied + 1, decode(NextApplied(c.servers[i]))))
    ensures var x, op := c.servers[i].lastApplied + 1, decode(NextApplied(c.servers[i]));
            WaiterOK(decode, |c.servers|, c.history, Kv.Applied(store, op, x), Wait.Do(w, Wait.Process(x, op)))
  {
    hide SafeInv, Wait.Inv, RecordPlaced, Reflects, WantsApply, ApplyInRange, NextApplied, Kv.Applied, Kv.Answered;
    var x, op := c.servers[i].lastApplied + 1, decode(NextApplied(c.servers[i]));
    Wait.EventKeepsInv(w, Wait.Process(x, op));
    NextPlaced(decode, c, i, Wait.Record(x, op, store, Kv.Applied(store, op, x), Kv.Answered(store, op)));
  }

  lemma LocalOK(decode: Decode, n: nat, h: History, store: Kv.State, w: Wait.World, e: Wait.Event)
    requires WaiterOK(decode, n, h, store, w) && Wait.Possible(w, e) && !e.Process? && !e.Install?
    ensures WaiterOK(decode, n, h, store, Wait.Do(w, e))
  {
    hide Wait.Inv, RecordPlaced;
    Wait.EventKeepsInv(w, e);
  }

  lemma InstallOK(decode: Decode, n: nat, h: History, store: Kv.State, w: Wait.World, data: Kv.State)
    requires WaiterOK(decode, n, h, store, w) && Wait.Possible(w, Wait.Install(data))
    ensures WaiterOK(decode, n, h, Kv.Installed(store, data), Wait.Do(w, Wait.Install(data)))
  {
    hide Wait.Inv, RecordPlaced, Kv.Installed;
    Wait.EventKeepsInv(w, Wait.Install(data));
  }

  lemma FreshOK(decode: Decode, n: nat, h: History, store: Kv.State)
    ensures WaiterOK(decode, n, h, store, Wait.Fresh(store))
  {
    hide RecordPlaced;
  }

  // ---------------------------------------------------------------- one move

  /** The handlers of one server after a step of the cluster, still with respect to the history before. */
  lemma NoticedOK(decode: Decode, s: System, step: Step, v': Service, ws': seq<Wait.World>, i: nat)
    requires SystemInv(decode, |s.raft.servers|, s) && Enabled(s.raft, step) && i < |s.raft.servers|
    requires Serves(decode, s.raft, step, s.service, v') && |v'.images| == |s.raft.servers|
    requires Noticed(decode, s.raft, step, v', s.waiters, ws')
    ensures i < |ws'| && i < |v'.stores|
    ensures WaiterOK(decode, |s.raft.servers|, s.raft.history, v'.stores[i], ws'[i])
  {
    hide SafeInv, WellFormed, WaiterOK, Reflects, Kv.Applied, Kv.Installed, NextApplied, WantsApply, ApplyInRange,
      Wait.Do, Wait.Possible;
    var c, n, h, v := s.raft, |s.raft.servers|, s.raft.history, s.service;
    if step == Apply(i) {
      ApplyFacts(c, i);
      ProcessOK(decode, c, i, v.stores[i], s.waiters[i]);
    } else if step.HandleInstall? && i == step.m.dst && Installs(c.servers[i], step.m.sa) {
      InstallOK(decode, n, h, v.stores[i], s.waiters[i], v'.images[i]);
    } else if step == Restart(i) {
      FreshOK(decode, n, h, v'.stores[i]);
    }
  }

  lemma ApplyFacts(c: Cluster, i: nat)
    requires WellFormed(c) && Enabled(c, Apply(i))
    ensures i < |c.servers| && WantsApply(c.servers[i]) && ApplyInRange(c.servers[i])
  {
  }

  lemma StepExtends(c: Cluster, step: Step)
    requires SafeInv(c) && OrderlyStep(c, step)
    ensures SafeInv(Do(c, step)) && Extends(c.history, Do(c, step).history)
    ensures |Do(c, step).servers| == |c.servers|
  {
    hide SafeInv, Inv, Do, Enabled, Orderly, WellFormed;
    SafeFacts(c);
    StepKeepsSafe(c, step);
    StepKeepsInv(c, step);
    SameSize(c, step);
  }

  /** A step of the cluster with its services and handlers. */
  lemma ClusterMoveKeepsInv(decode: Decode, s: System, step: Step, s': System)
    requires SystemInv(decode, |s.raft.servers|, s) && OrderlyStep(s.raft, step) && s'.raft == Do(s.raft, step)
    requires Serves(decode, s.raft, step, s.service, s'.service) && |s'.waiters| == |s.raft.servers|
    requires forall i: nat :: i < |s.raft.servers| && i < |s'.service.stores| ==>
               WaiterOK(decode, |s.raft.servers|, s.raft.history, s'.service.stores[i], s'.waiters[i])
    ensures SystemInv(decode, |s.raft.servers|, s')
  {
    hide SafeInv, Inv, WellFormed, ServiceInv, WaiterOK, Do, Enabled, Orderly, Serves, Extends;
    var n, h, h' := |s.raft.servers|, s.raft.history, s'.raft.history;
    StepExtends(s.raft, step);
    StepKeepsServiceInv(decode, s.raft, step, s.service, s'.service);
    SafeFacts(s'.raft);
    ServiceFits(decode, s'.raft, s'.service);
    forall i | 0 <= i < n ensures WaiterOK(decode, n, h', s'.service.stores[i], s'.waiters[i]) {
      WaiterExtends(decode, n, h, h', s'.service.stores[i], s'.waiters[i]);
    }
  }

  lemma ServiceFits(decode: Decode, c: Cluster, v: Service)
    requires ServiceInv(decode, c, v)
    ensures Fits(c, v)
  {
  }

  lemma NoticedSize(decode: Decode, c: Cluster, step: Step, v': Service, ws: seq<Wait.World>, ws': seq<Wait.World>)
    requires WellFormed(c) && Enabled(c, step) && |ws| == |v'.images| == |c.servers|
    requires Noticed(decode, c, step, v', ws, ws')
    ensures |ws'| == |ws|
  {
    hide Wait.Do, Wait.Possible, Kv.Installed, NextApplied;
  }

  lemma MoveKeepsInv(decode: Decode, s: System, move: Move, s': System)
    requires SystemInv(decode, |s.raft.servers|, s) && Goes(decode, s, move, s')
    ensures SystemInv(decode, |s.raft.servers|, s')
  {
    hide SafeInv, WellFormed, ServiceInv, WaiterOK, Do, Enabled, Orderly, Serves, Noticed, Wait.Do, Wait.Possible;
    var n, h := |s.raft.servers|, s.raft.history;
    match move
    case RaftMove(step) =>
      NoticedSize(decode, s.raft, step, s'.service, s.waiters, s'.waiters);
      forall i: nat | i < n && i < |s'.service.stores|
        ensures WaiterOK(decode, n, h, s'.service.stores[i], s'.waiters[i])
      {
        NoticedOK(decode, s, step, s'.service, s'.waiters, i);
      }
      ClusterMoveKeepsInv(decode, s, step, s');
    case RaftStart(i, command, _) =>
      StartServes(decode, s, i, command);
      BegunOK(decode, s, i, command, move.h, s'.waiters);
      ClusterMoveKeepsInv(decode, s, Step.Start(i, command), s');
    case Local(i, e) =>
      LocalOK(decode, n, h, s.service.stores[i], s.waiters[i], e);
  }

  lemma StartServes(decode: Decode, s: System, i: nat, command: Command)
    requires Sized(s) && Enabled(s.raft, Step.Start(i, command))
    ensures i < |s.raft.servers| && Serves(decode, s.raft, Step.Start(i, command), s.service, s.service)
  {
  }

  lemma BegunOK(decode: Decode, s: System, i: nat, command: Command, h: nat, ws': seq<Wait.World>)
    requires SystemInv(decode, |s.raft.servers|, s) && i < |s.raft.servers|
    requires Begun(decode, s.raft, i, command, h, s.waiters, ws')
    ensures |ws'| == |s.waiters|
    ensures forall j: nat :: j < |s.raft.servers| ==>
              WaiterOK(decode, |s.raft.servers|, s.raft.history, s.service.stores[j], ws'[j])
  {
    hide SafeInv, WellFormed, ServiceInv, WaiterOK, Wait.Do, Wait.Possible;
    var e := Wait.Begin(h, decode(command), s.raft.servers[i].LastIndex() + 1);
    LocalOK(decode, |s.raft.servers|, s.raft.history, s.service.stores[i], s.waiters[i], e);
  }

  // ---------------------------------------------------------------- whole runs

  lemma {:induction false} SystemRunInv(decode: Decode, n: nat, states: seq<System>, moves: seq<Move>, k: nat)
    requires IsSystemRun(decode, n, states, moves) && k < |states|
    ensures SystemInv(decode, n, states[k])
  {
    hide SystemInv, Goes;
    if k == 0 {
      BootOK(decode, n);
    } else {
      SystemRunInv(decode, n, states, moves, k - 1);
      assert Goes(decode, states[k - 1], moves[k - 1], states[k - 1 + 1]);
      SystemSize(decode, n, states[k - 1]);
      MoveKeepsInv(decode, states[k - 1], moves[k - 1], states[k]);
    }
  }

  lemma SystemSize(decode: Decode, n: nat, s: System)
    requires SystemInv(decode, n, s)
    ensures |s.raft.servers| == n
  {
  }

  lemma BootOK(decode: Decode, n: nat)
    ensures SystemInv(decode, n, Boot(n))
  {
    hide WaiterOK, SafeInv, ServiceInv;
    InitSafe(n);
    IdleInv(decode, n);
    SafeFacts(Init(n));
    FreshOK(decode, n, Init(n).history, Kv.EMPTY);
  }

  lemma {:induction false} SystemExtends(decode: Decode, n: nat, states: seq<System>, moves: seq<Move>, j: nat, k: nat)
    requires IsSystemRun(decode, n, states, moves) && j <= k < |states|
    ensures Extends(states[j].raft.history, states[k].raft.history)
    decreases k
  {
    hide SystemInv, Goes, Extends;
    if j < k {
      SystemExtends(decode, n, states, moves, j, k - 1);
      SystemRunInv(decode, n, states, moves, k - 1);
      assert Goes(decode, states[k - 1], moves[k - 1], states[k - 1 + 1]);
      MoveExtends(decode, n, states[k - 1], moves[k - 1], states[k]);
      ExtendsOn(states[j].raft.history, states[k - 1].raft.history, states[k].raft.history);
    } else {
      ExtendsSelf(states[j].raft.history);
    }
  }

  lemma MoveExtends(decode: Decode, n: nat, s: System, move: Move, s': System)
    requires SystemInv(decode, n, s) && Goes(decode, s, move, s')
    ensures Extends(s.raft.history, s'.raft.history)
  {
    hide SafeInv, WellFormed, ServiceInv, WaiterOK, OrderlyStep, Do, Serves, Noticed, Begun, Extends;
    match move
    case RaftMove(step) => StepExtends(s.raft, step);
    case RaftStart(i, command, _) => StepExtends(s.raft, Step.Start(i, command));
    case Local(_, _) => ExtendsSelf(s.raft.history);
  }

  lemma ExtendsSelf(h: History)
    ensures Extends(h, h)
  {
  }

  lemma ExtendsOn(h: History, h': History, h'': History)
    requires Extends(h, h') && Extends(h', h'')
    ensures Extends(h, h'')
  {
  }

  // ---------------------------------------------------------------- what OK means

  ghost predicate RepliesOk(s: System, a: nat, h: nat) {
    a < |s.waiters| && Wait.RepliesOk(s.waiters[a], h)
  }

  function Reply(s: System, a: nat, h: nat): Wait.Handler
    requires a < |s.waiters| && h in s.waiters[a].handlers
  {
    s.waiters[a].handlers[h]
  }

  /** The operation of handler `f` stands in `log` at the index that Start returned. */
  ghost predicate Stands(decode: Decode, log: seq<Entry>, f: Wait.Handler)
    requires f.Finished?
  {
    1 <= f.index <= |log| && Wait.SameOp(f.op, decode(log[f.index - 1].command))
  }

  /** A GET was answered from the state after the first `y` entries of `log`. */
  ghost predicate Reads(decode: Decode, log: seq<Entry>, y: nat, f: Wait.Handler)
    requires f.Finished?
  {
    f.op.kind == "GET" ==>
      f.index <= y + 1 && y <= |log|
      && f.applied.value == Kv.Lookup(Kv.Fold(Ops(decode, log), y).store, f.op.key)
  }

  /** If every client's ids come in order, the store after the first `y` entries of `log` is what Put and
      Append make of these entries without the repeated writes, and the write of handler `f` is one of them. */
  ghost predicate Executed(decode: Decode, log: seq<Entry>, y: nat, f: Wait.Handler)
    requires f.Finished? && Stands(decode, log, f) && y <= |log|
  {
    var ops := Ops(decode, log);
    Kv.InOrder(ops) ==> Kv.Fold(ops, y).store == Kv.Plain(Kv.Once(ops, y)) && Kv.OnceHas(ops, y, f.index - 1)
  }

  /** An OK means that the operation stands in the committed log where Start said it would, and that a GET
      was answered from a prefix of that log which reaches at least up to it. */
  lemma OkIsSettled(decode: Decode, n: nat, states: seq<System>, moves: seq<Move>, k: nat, a: nat, h: nat)
    returns (log: seq<Entry>, y: nat)
    requires IsSystemRun(decode, n, states, moves) && k < |states| && RepliesOk(states[k], a, h)
    ensures Settled(n, states[k].raft.history, log)
    ensures Stands(decode, log, Reply(states[k], a, h)) && Reads(decode, log, y, Reply(states[k], a, h))
  {
    hide SystemInv, IsSystemRun, WaiterOK, Settled, Placed, Wait.Justifies, Stands, Reads;
    SystemRunInv(decode, n, states, moves, k);
    WaiterFacts(decode, n, states[k], a);
    var w, hist := states[k].waiters[a], states[k].raft.history;
    var r := Wait.OkHasRecord(w, h);
    log, y :| Placed(decode, n, hist, r, log, y);
    PlacedReply(decode, n, hist, r, log, y, w.handlers[h]);
  }

  lemma WaiterFacts(decode: Decode, n: nat, s: System, a: nat)
    requires SystemInv(decode, n, s) && a < |s.waiters|
    ensures Wait.Inv(s.waiters[a])
    ensures forall r :: r in s.waiters[a].processed ==> RecordPlaced(decode, n, s.raft.history, r)
  {
    hide SafeInv, ServiceInv, WellFormed, Wait.Inv, RecordPlaced;
    assert WaiterOK(decode, n, s.raft.history, s.service.stores[a], s.waiters[a]);
  }

  /** What the record of an operation says about the reply it justifies. */
  lemma PlacedReply(decode: Decode, n: nat, h: History, r: Wait.Record, log: seq<Entry>, y: nat, f: Wait.Handler)
    requires Placed(decode, n, h, r, log, y) && f.Finished? && Wait.Justifies(r, f)
    ensures Settled(n, h, log) && Stands(decode, log, f) && Reads(decode, log, y, f)
  {
    hide Settled, Kv.Fold;
  }

  lemma {:induction false} WriteExecuted(decode: Decode, log: seq<Entry>, y: nat, f: Wait.Handler)
    requires f.Finished? && Kv.IsWrite(f.op) && Stands(decode, log, f) && f.index <= y <= |log|
    ensures Executed(decode, log, y, f)
  {
    hide Kv.Fold, Kv.Plain, Kv.Once, Kv.InOrder, Kv.OnceHas;
    var ops := Ops(decode, log);
    if Kv.InOrder(ops) {
      Kv.ExactlyOnce(ops, y);
      Kv.OnceHasAll(ops, y, f.index - 1);
    }
  }

  /** An acknowledged write is in every store whose Raft peer has applied its index, from then on and on
      every server, whatever crashes and elections follow: the store is the fold over a committed log that
      has the write at its index, and with ids in order it is executed there exactly once. */
  lemma WritesStay(decode: Decode, n: nat, states: seq<System>, moves: seq<Move>,
                   j: nat, a: nat, h: nat, k: nat, b: nat)
    returns (log: seq<Entry>)
    requires IsSystemRun(decode, n, states, moves) && j <= k < |states| && RepliesOk(states[j], a, h)
    requires b < |states[k].service.stores| && b < |states[k].raft.servers|
    requires Kv.IsWrite(Reply(states[j], a, h).op)
    requires Reply(states[j], a, h).index <= states[k].raft.servers[b].lastApplied
    ensures Settled(n, states[k].raft.history, log) && states[k].service.stores[b] == State(decode, log)
    ensures Stands(decode, log, Reply(states[j], a, h)) && Executed(decode, log, |log|, Reply(states[j], a, h))
  {
    hide SafeInv, WaiterOK, WellFormed, Settled, Kv.Fold, Executed, Extends;
    var early, y := OkIsSettled(decode, n, states, moves, j, a, h);
    SystemRunInv(decode, n, states, moves, k);
    SystemExtends(decode, n, states, moves, j, k);
    var hist, f := states[k].raft.history, Reply(states[j], a, h);
    SettledExtends(n, states[j].raft.history, hist, early);
    SafeFacts(states[k].raft);
    log := Reflected(decode, n, hist, states[k].service.stores[b], states[k].raft.servers[b].lastApplied);
    StandsIn(decode, n, hist, early, log, f);
    WriteExecuted(decode, log, |log|, f);
  }

  /** What stands in one settled log stands in every other that is long enough. */
  lemma StandsIn(decode: Decode, n: nat, h: History, a: seq<Entry>, b: seq<Entry>, f: Wait.Handler)
    requires HistoryOK(n, h) && BallotsSafe(h) && Settled(n, h, a) && Settled(n, h, b)
    requires f.Finished? && Stands(decode, a, f) && f.index <= |b|
    ensures Stands(decode, b, f)
  {
    hide HistoryOK, BallotsSafe, Settled;
    if |a| <= |b| { SettledAgree(n, h, a, b); } else { SettledAgree(n, h, b, a); }
  }

  /** A GET that is answered after a write was acknowledged is answered from a prefix of the log that has
      the write in it, unless the GET itself was already committed when the write was acknowledged, as an
      earlier attempt of the same request can be. */
  lemma ReadsSeeWrites(decode: Decode, n: nat, states: seq<System>, moves: seq<Move>,
                       j: nat, a: nat, h: nat, k: nat, b: nat, g: nat)
    returns (log: seq<Entry>, y: nat, early: seq<Entry>)
    requires IsSystemRun(decode, n, states, moves) && j <= k < |states|
    requires RepliesOk(states[j], a, h) && Kv.IsWrite(Reply(states[j], a, h).op)
    requires RepliesOk(states[k], b, g) && Reply(states[k], b, g).op.kind == "GET"
    ensures Settled(n, states[k].raft.history, log) && Settled(n, states[j].raft.history, early)
    ensures Stands(decode, log, Reply(states[k], b, g)) && Reads(decode, log, y, Reply(states[k], b, g))
    ensures (Reply(states[j], a, h).index <= y && Stands(decode, log, Reply(states[j], a, h)))
            || Stands(decode, early, Reply(states[k], b, g))
  {
    hide SafeInv, ServiceInv, WaiterOK, WellFormed, Settled, Kv.Fold, Extends;
    var write, read := Reply(states[j], a, h), Reply(states[k], b, g);
    early, y := OkIsSettled(decode, n, states, moves, j, a, h);
    log, y := OkIsSettled(decode, n, states, moves, k, b, g);
    SystemRunInv(decode, n, states, moves, k);
    SystemExtends(decode, n, states, moves, j, k);
    var hist := states[k].raft.history;
    SettledExtends(n, states[j].raft.history, hist, early);
    SafeFacts(states[k].raft);
    if write.index <= y {
      StandsIn(decode, n, hist, early, log, write);
    } else {
      StandsIn(decode, n, hist, log, early, read);
    }
  }

  /** The index a handler goes on with is the place of its command in the log of its leader. */
  lemma BegunAtItsPlace(decode: Decode, n: nat, s: System, i: nat, command: Command, h: nat, s': System)
    requires SystemInv(decode, n, s) && Goes(decode, s, RaftStart(i, command, h), s')
    ensures i < |s'.waiters| && i < |s'.raft.vlogs| && h in s'.waiters[i].handlers
    ensures s'.waiters[i].handlers[h].Started? && s'.waiters[i].handlers[h].op == decode(command)
    ensures var x := s'.waiters[i].handlers[h].index;
            x == |s'.raft.vlogs[i]| > 0 && s'.raft.vlogs[i][x - 1].command == command
  {
    hide SafeInv, ServiceInv, WaiterOK, Inv;
    SafeFacts(s.raft);
    ServerFacts(s.raft, i);
    LastOfVirtual(s.raft.servers[i], s.raft.vlogs[i]);
  }

  // ---------------------------------------------------------------- where entries come from

  /** Every entry of a log was put there by a handler that called `rf.Start` with its command. */
  lemma {:induction false} HandlerOfEntry(decode: Decode, n: nat, states: seq<System>, moves: seq<Move>,
                                          k: nat, e: Entry)
    returns (l: nat)
    requires IsSystemRun(decode, n, states, moves) && k < |states| && Recorded(states[k].raft.history, e)
    ensures l < k && moves[l].RaftStart? && moves[l].command == e.command
  {
    hide SystemInv, Goes, Recorded;
    if k == 0 {
      NothingRecorded(n, e);
    } else {
      SystemRunInv(decode, n, states, moves, k - 1);
      assert Goes(decode, states[k - 1], moves[k - 1], states[k - 1 + 1]);
      MoveEntry(decode, n, states[k - 1], moves[k - 1], states[k], e);
      if Recorded(states[k - 1].raft.history, e) {
        l := HandlerOfEntry(decode, n, states, moves, k - 1, e);
      } else {
        l := k - 1;
      }
    }
  }

  lemma MoveEntry(decode: Decode, n: nat, s: System, move: Move, s': System, e: Entry)
    requires SystemInv(decode, n, s) && Goes(decode, s, move, s') && Recorded(s'.raft.history, e)
    ensures Recorded(s.raft.history, e) || (move.RaftStart? && e.command == move.command)
  {
    hide SafeInv, WellFormed, ServiceInv, WaiterOK, Orderly, Do, Enabled, Serves, Noticed, Begun, Recorded;
    SafeFacts(s.raft);
    match move
    case RaftMove(step) => NewEntry(s.raft, step, e);
    case RaftStart(i, command, _) => NewEntry(s.raft, Step.Start(i, command), e);
    case Local(_, _) =>
  }

  lemma SettledRecorded(n: nat, h: History, log: seq<Entry>, x: nat)
    requires Settled(n, h, log) && x < |log|
    ensures Recorded(h, log[x])
  {
    var hi: nat :| Committed(n, h, log, |log|, hi);
    var t: nat, m: nat :| t <= hi && Backed(n, h, log, |log|, t, m);
    assert RecordedAt(h, log[x], t, x);
  }

  /** Nobody has called `rf.Start` for the operation of `f` in the first `j` moves. */
  ghost predicate NotBegun(decode: Decode, moves: seq<Move>, j: nat, f: Wait.Handler)
    requires f.Finished? && j <= |moves|
  {
    forall l :: 0 <= l < j && moves[l].RaftStart? ==> !Wait.SameOp(f.op, decode(moves[l].command))
  }

  /** Reads see writes: a GET whose first attempt begins after a write was acknowledged is answered from a
      prefix of the log that has the write in it; with ids in order, from the store in which the write has
      been executed exactly once. */
  lemma LaterReadsSeeWrites(decode: Decode, n: nat, states: seq<System>, moves: seq<Move>,
                            j: nat, a: nat, h: nat, k: nat, b: nat, g: nat)
    returns (log: seq<Entry>, y: nat)
    requires IsSystemRun(decode, n, states, moves) && j <= k < |states|
    requires RepliesOk(states[j], a, h) && Kv.IsWrite(Reply(states[j], a, h).op)
    requires RepliesOk(states[k], b, g) && Reply(states[k], b, g).op.kind == "GET"
    requires NotBegun(decode, moves, j, Reply(states[k], b, g))
    ensures Settled(n, states[k].raft.history, log)
    ensures Stands(decode, log, Reply(states[k], b, g)) && Reads(decode, log, y, Reply(states[k], b, g))
    ensures Stands(decode, log, Reply(states[j], a, h)) && Reply(states[j], a, h).index <= y <= |log|
    ensures Executed(decode, log, y, Reply(states[j], a, h))
  {
    hide IsSystemRun, Settled, Kv.Fold, Executed, Recorded;
    var read := Reply(states[k], b, g);
    var early;
    log, y, early := ReadsSeeWrites(decode, n, states, moves, j, a, h, k, b, g);
    if Stands(decode, early, read) {
      SettledRecorded(n, states[j].raft.history, early, read.index - 1);
      var l := HandlerOfEntry(decode, n, states, moves, j, early[read.index - 1]);
      assert false;
    }
    WriteExecuted(decode, log, y, Reply(states[j], a, h));
  }
}
