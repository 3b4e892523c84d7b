/** The handlers of src/kvraft/server.go that wait for their operation (`waitAppliedOrTimeout`), under
    every interleaving with `ApplyRoutine`. Registering, processing, notifying, receiving or giving up,
    and taking the channel out of the table again are separate steps, because the source holds the lock
    around some of them and around none of the others. */
module KvWaiters {
  import opened KvSpec

  datatype Option<T> = None | Some(value: T)

  /** A channel of capacity one, made for an index of the log. */
  datatype Channel = Channel(index: nat, buffer: Option<Op>)

  datatype Handler =
    | Started(op: Op, index: nat)
    | Waiting(op: Op, index: nat, channel: nat)
    | Received(op: Op, index: nat, applied: Op)
    | GaveUp(op: Op, index: nat)
    | Finished(op: Op, index: nat, ok: bool, applied: Op)

  /** An operation this server processed: where, from which state, to which state, and what it sent. */
  datatype Record = Record(index: nat, op: Op, before: State, after: State, sent: Op)

  datatype World = World(
    kv: State,
    results: map<nat, nat>,           // index -> channel
    channels: map<nat, Channel>,
    handlers: map<nat, Handler>,
    pending: Option<(nat, Op)>,       // looked up by ApplyRoutine, not yet sent
    processed: set<Record>)

  datatype Event =
    | Begin(h: nat, op: Op, index: nat)  // rf.Start returned this index; it may be shared with others
    | Refuse(h: nat, op: Op, index: nat) // rf.Start said this server is not the leader
    | Register(h: nat, channel: nat)
    | Process(index: nat, op: Op)
    | Install(snapshot: State)
    | Notify
    | Receive(h: nat)
    | TimeOut(h: nat)
    | Forget(h: nat)                     // delete the index from `results` and reply

  /** What `Get` and `PutAppend` make of the requests of the clerk: a GET carries no value. */
  predicate Made(op: Op) {
    op.kind == "GET" ==> op.value == ""
  }

  predicate SameOp(a: Op, b: Op) {
    a.kind == b.kind && a.key == b.key && a.reqId == b.reqId && a.client == b.client
  }

  predicate IsWaiting(w: World, h: nat) {
    h in w.handlers && w.handlers[h].Waiting? && w.handlers[h].channel in w.channels
  }

  predicate Possible(w: World, e: Event) {
    match e
    case Begin(h, op, _) => h !in w.handlers && Made(op)
    case Refuse(h, op, _) => h !in w.handlers && Made(op)
    case Register(h, ch) => h in w.handlers && w.handlers[h].Started? && ch !in w.channels
    case Process(_, op) => w.pending == None && Made(op)
    case Install(_) => w.pending == None
    case Notify => w.pending.Some?
    case Receive(h) => IsWaiting(w, h) && w.channels[w.handlers[h].channel].buffer.Some?
    case TimeOut(h) => IsWaiting(w, h)
    case Forget(h) => h in w.handlers && (w.handlers[h].Received? || w.handlers[h].GaveUp?)
  }

  function Do(w: World, e: Event): World
    requires Possible(w, e)
  {
    match e
    case Begin(h, op, index) => w.(handlers := w.handlers[h := Started(op, index)])
    case Refuse(h, op, index) => w.(handlers := w.handlers[h := Finished(op, index, false, op)])
    case Register(h, ch) =>
      var s := w.handlers[h];
      w.(handlers := w.handlers[h := Waiting(s.op, s.index, ch)],
         channels := w.channels[ch := Channel(s.index, None)],
         results := w.results[s.index := ch])
    case Process(index, op) =>
      var sent := Answered(w.kv, op);
      w.(kv := Applied(w.kv, op, index),
         processed := w.processed + {Record(index, op, w.kv, Applied(w.kv, op, index), sent)},
         pending := if index in w.results then Some((w.results[index], sent)) else None)
    case Install(snapshot) => w.(kv := Installed(w.kv, snapshot))
    case Notify =>
      var (ch, sent) := w.pending.value;
      w.(pending := None,
         channels := if ch in w.channels && w.channels[ch].buffer == None
                     then w.channels[ch := w.channels[ch].(buffer := Some(sent))]
                     else w.channels)
    case Receive(h) =>
      var s := w.handlers[h];
      w.(handlers := w.handlers[h := Received(s.op, s.index, w.channels[s.channel].buffer.value)],
         channels := w.channels[s.channel := w.channels[s.channel].(buffer := None)])
    case TimeOut(h) => w.(handlers := w.handlers[h := GaveUp(w.handlers[h].op, w.handlers[h].index)])
    case Forget(h) =>
      var s := w.handlers[h];
      var done := if s.Received? then Finished(s.op, s.index, SameOp(s.op, s.applied), s.applied)
                  else Finished(s.op, s.index, false, s.op);
      w.(handlers := w.handlers[h := done], results := w.results - {s.index})
  }

  /** A server that starts with this state and without any handler. */
  function Fresh(kv: State): World {
    World(kv, map[], map[], map[], None, {})
  }

  ghost predicate IsRun(worlds: seq<World>, events: seq<Event>) {
    && |worlds| == |events| + 1
    && worlds[0] == Fresh(EMPTY)
    && forall k {:trigger events[k]} :: 0 <= k < |events| ==>
         Possible(worlds[k], events[k]) && worlds[k + 1] == Do(worlds[k], events[k])
  }

  // ---------------------------------------------------------------- what every channel carries

  /** `sent` is what this server sent for an operation it processed at `index`. */
  ghost predicate Came(processed: set<Record>, index: nat, sent: Op) {
    exists r :: r in processed && r.index == index && r.sent == sent
  }

  ghost predicate RecordOK(r: Record) {
    r.after == Applied(r.before, r.op, r.index) && r.sent == Answered(r.before, r.op) && Made(r.op)
  }

  ghost predicate Inv(w: World) {
    && (forall r :: r in w.processed ==> RecordOK(r))
    && (forall i :: i in w.results ==> w.results[i] in w.channels && w.channels[w.results[i]].index == i)
    && (forall ch :: ch in w.channels && w.channels[ch].buffer.Some? ==>
          Came(w.processed, w.channels[ch].index, w.channels[ch].buffer.value))
    && (w.pending.Some? ==>
          w.pending.value.0 in w.channels && Came(w.processed, w.channels[w.pending.value.0].index, w.pending.value.1))
    && (forall h :: h in w.handlers && w.handlers[h].Waiting? ==>
          w.handlers[h].channel in w.channels && w.channels[w.handlers[h].channel].index == w.handlers[h].index)
    && (forall h :: h in w.handlers && w.handlers[h].Received? ==>
          Came(w.processed, w.handlers[h].index, w.handlers[h].applied))
    && (forall h :: h in w.handlers && w.handlers[h].Finished? && w.handlers[h].ok ==>
          Came(w.processed, w.handlers[h].index, w.handlers[h].applied)
            && SameOp(w.handlers[h].op, w.handlers[h].applied))
  }

  lemma CameStays(p: set<Record>, p': set<Record>, index: nat, sent: Op)
    requires p <= p' && Came(p, index, sent)
    ensures Came(p', index, sent)
  {
    var r :| r in p && r.index == index && r.sent == sent;
    assert r in p';
  }

  lemma ProcessKeepsInv(w: World, index: nat, op: Op)
    requires Inv(w) && Possible(w, Process(index, op))
    ensures Inv(Do(w, Process(index, op)))
  {
    hide Came, Applied, Answered;
    var w' := Do(w, Process(index, op));
    forall i, sent | Came(w.processed, i, sent) ensures Came(w'.processed, i, sent) {
      CameStays(w.processed, w'.processed, i, sent);
    }
    NewRecord(w, w', index, op);
  }

  lemma NewRecord(w: World, w': World, index: nat, op: Op)
    requires w.pending == None && Made(op) && w' == Do(w, Process(index, op))
    ensures Came(w'.processed, index, Answered(w.kv, op))
  {
    var r := Record(index, op, w.kv, Applied(w.kv, op, index), Answered(w.kv, op));
    assert r in w'.processed;
  }

  lemma EventKeepsInv(w: World, e: Event)
    requires Inv(w) && Possible(w, e)
    ensures Inv(Do(w, e))
  {
    hide Came, Applied, Answered, Installed, RecordOK;
    if e.Process? { ProcessKeepsInv(w, e.index, e.op); }
  }

  lemma {:induction false} RunInv(worlds: seq<World>, events: seq<Event>, k: nat)
    requires IsRun(worlds, events) && k < |worlds|
    ensures Inv(worlds[k])
  {
    hide Do, Possible;
    if k > 0 {
      hide Inv;
      RunInv(worlds, events, k - 1);
      assert worlds[k - 1 + 1] == Do(worlds[k - 1], events[k - 1]);
      EventKeepsInv(worlds[k - 1], events[k - 1]);
    }
  }

  /** Reply soundness. A handler only reports OK if this server has processed, at the very index that
      Start returned, an operation with the same type, key, client and id. For a write the table of ids then
      holds its id or a greater one; a GET is answered with what the store held at that step. */
  lemma OkMeansProcessed(worlds: seq<World>, events: seq<Event>, k: nat, h: nat) returns (r: Record)
    requires IsRun(worlds, events) && k < |worlds| && RepliesOk(worlds[k], h)
    ensures r in worlds[k].processed && Justifies(r, worlds[k].handlers[h])
  {
    RunInv(worlds, events, k);
    r := OkHasRecord(worlds[k], h);
  }

  predicate RepliesOk(w: World, h: nat) {
    h in w.handlers && w.handlers[h].Finished? && w.handlers[h].ok
  }

  ghost predicate Justifies(r: Record, f: Handler)
    requires f.Finished?
  {
    && r.index == f.index && SameOp(f.op, r.op)
    && (IsWrite(f.op) ==> f.op.client in r.after.lastApplied && r.after.lastApplied[f.op.client] >= f.op.reqId)
    && (f.op.kind == "GET" ==> f.applied.value == Lookup(r.before.store, f.op.key))
  }

  lemma OkHasRecord(w: World, h: nat) returns (r: Record)
    requires Inv(w) && RepliesOk(w, h)
    ensures r in w.processed && Justifies(r, w.handlers[h])
  {
    var f := w.handlers[h];
    r :| r in w.processed && r.index == f.index && r.sent == f.applied;
    assert RecordOK(r);
  }

  /** Everything on record was really processed by a step of the run. */
  lemma {:induction false} RecordsAreSteps(worlds: seq<World>, events: seq<Event>, k: nat, r: Record) returns (j: nat)
    requires IsRun(worlds, events) && k < |worlds| && r in worlds[k].processed
    ensures j < k && events[j] == Process(r.index, r.op)
    ensures worlds[j].kv == r.before && worlds[j + 1].kv == r.after
  {
    assert k > 0;
    assert worlds[k - 1 + 1] == Do(worlds[k - 1], events[k - 1]);
    if r in worlds[k - 1].processed {
      j := RecordsAreSteps(worlds, events, k - 1, r);
    } else {
      j := k - 1;
    }
  }

  // ---------------------------------------------------------------- a waiter is served

  /** What a handler reports once it has been handed an operation, or has given up: OK exactly when type, key,
      client and id are its own. */
  lemma ReportsExactly(w: World, h: nat)
    requires Possible(w, Forget(h))
    ensures h in Do(w, Forget(h)).handlers
    ensures forall i :: i in Do(w, Forget(h)).results <==> i in w.results && i != w.handlers[h].index
    ensures var before, f := w.handlers[h], Do(w, Forget(h)).handlers[h];
            && f.Finished? && f.op == before.op && f.index == before.index
            && (before.GaveUp? ==> !f.ok)
            && (before.Received? ==>
                  && f.applied == before.applied
                  && (f.ok <==> f.op.kind == f.applied.kind && f.op.key == f.applied.key
                                && f.op.client == f.applied.client && f.op.reqId == f.applied.reqId))
  {
  }

  /** Nothing but its own timeout keeps a waiting handler from its answer: when an operation is processed at
      the index it waits for, it is sent that operation with its result, and reports OK if and only if the
      operation is its own. */
  lemma WaiterIsServed(w: World, h: nat, op: Op) returns (w': World)
    requires Inv(w) && h in w.handlers && w.handlers[h].Waiting? && w.pending == None && Made(op)
    requires w.handlers[h].index in w.results && w.results[w.handlers[h].index] == w.handlers[h].channel
    requires w.channels[w.handlers[h].channel].buffer == None
    ensures var index := w.handlers[h].index;
            var w1 := Do(w, Process(index, op));
            && w1.pending.Some? && var w2 := Do(w1, Notify);
            && Possible(w2, Receive(h)) && var w3 := Do(w2, Receive(h));
            && Possible(w3, Forget(h)) && w' == Do(w3, Forget(h))
    ensures h in w'.handlers && w'.handlers[h].Finished? && w'.pending == None
    ensures w'.handlers[h].index == w.handlers[h].index && w'.handlers[h].op == w.handlers[h].op
    ensures w'.handlers[h].applied ==
            if op.kind == "GET" then op.(value := Lookup(w.kv.store, op.key)) else op
    ensures w'.handlers[h].ok <==>
              w.handlers[h].op.kind == op.kind && w.handlers[h].op.key == op.key
              && w.handlers[h].op.client == op.client && w.handlers[h].op.reqId == op.reqId
  {
    hide Applied;
    var w1 := Do(w, Process(w.handlers[h].index, op));
    var w2 := Do(w1, Notify);
    w' := Do(Do(w2, Receive(h)), Forget(h));
  }

  /** An answer that nobody has taken yet is not overwritten, and one without a taker is dropped. */
  lemma NotifyDrops(w: World)
    requires Possible(w, Notify)
    requires w.pending.value.0 in w.channels ==> w.channels[w.pending.value.0].buffer.Some?
    ensures Do(w, Notify) == w.(pending := None)
  {
  }

  /** Registering makes a handler the one that is notified for its index. */
  lemma RegisteredIsNotified(w: World, h: nat, channel: nat)
    requires Possible(w, Register(h, channel))
    ensures var w' := Do(w, Register(h, channel));
            && h in w'.handlers && w'.handlers[h] == Waiting(w.handlers[h].op, w.handlers[h].index, channel)
            && w.handlers[h].index in w'.results && w'.results[w.handlers[h].index] == channel
            && channel in w'.channels && w'.channels[channel] == Channel(w.handlers[h].index, None)
  {
  }
}
