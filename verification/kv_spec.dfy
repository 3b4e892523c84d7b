/** The replicated key/value state machine of src/kvraft/server.go as a function of the committed log. */
module KvSpec {
  import opened Collections
  import Dedup = Deduplication

  /** `kind` is "GET", "Put", "Append", or anything else a client sent. */
  datatype Op = Op(kind: string, reqId: int, client: int, key: string, value: string)

  type Store = map<string, string>

  /** `lastIndex` is `lastIncludedIndex`: the index of the last write that took effect. */
  datatype State = State(store: Store, lastApplied: map<int, int>, lastIndex: nat)

  const EMPTY: State := State(map[], map[], 0)

  predicate IsWrite(op: Op) {
    op.kind != "GET"
  }

  function Lookup(store: Store, key: string): string {
    if key in store then store[key] else ""
  }

  /** `handlePutAppend`. */
  function Write(store: Store, op: Op): Store {
    if op.kind == "Put" then store[op.key := op.value]
    else if op.kind == "Append" then store[op.key := Lookup(store, op.key) + op.value]
    else store
  }

  function AsRequest(op: Op): Dedup.Request {
    Dedup.Request(IsWrite(op), op.client, op.reqId)
  }

  predicate IsNew(s: State, op: Op) {
    Dedup.IsNew(s.lastApplied, AsRequest(op))
  }

  /** What `ApplyRoutine` does to the state for one log entry. */
  function Applied(s: State, op: Op, index: nat): State {
    if IsWrite(op) && IsNew(s, op)
    then State(Write(s.store, op), s.lastApplied[op.client := op.reqId], index)
    else s
  }

  /** `handleGet`: the operation sent back to the waiting handler. */
  function Answered(s: State, op: Op): Op {
    if op.kind == "GET" && op.key in s.store then op.(value := s.store[op.key]) else op
  }

  /** What `ApplyRoutine` does to the state for a snapshot it could decode. */
  function Installed(s: State, snapshot: State): State {
    if snapshot.lastIndex > s.lastIndex then snapshot else s
  }

  /** The state after the first `k` entries of the log, one after the other. */
  function Fold(log: seq<Op>, k: nat): State
    requires k <= |log|
  {
    if k == 0 then EMPTY else Applied(Fold(log, k - 1), log[k - 1], k)
  }

  // ---------------------------------------------------------------- which writes take effect

  function Requests(log: seq<Op>): (r: seq<Dedup.Request>)
    ensures |r| == |log| && forall i :: 0 <= i < |log| ==> r[i] == AsRequest(log[i])
  {
    seq(|log|, i requires 0 <= i < |log| => AsRequest(log[i]))
  }

  predicate Effective(log: seq<Op>, k: nat)
    requires k < |log|
  {
    Dedup.Effective(Requests(log), k)
  }

  /** The table of the server is the table of its log. */
  lemma {:induction false} TableOfFold(log: seq<Op>, k: nat)
    requires k <= |log|
    ensures Fold(log, k).lastApplied == Dedup.TableAt(Requests(log), k)
  {
    hide Write;
    if k > 0 { TableOfFold(log, k - 1); }
  }

  /** `lastApplied` holds the greatest id of each client's writes so far. */
  lemma {:induction false} LastAppliedIsGreatest(log: seq<Op>, k: nat)
    requires k <= |log|
    ensures Dedup.GreatestIds(Requests(log), k, Fold(log, k).lastApplied)
  {
    TableOfFold(log, k);
    Dedup.TableIsGreatest(Requests(log), k);
  }

  /** With no hypothesis on the log: the writes that take effect are exactly each client's strict
      running maxima. */
  lemma {:induction false} EffectiveExactly(log: seq<Op>, k: nat)
    requires k < |log|
    ensures Effective(log, k) <==> IsWrite(log[k]) && IsNew(Fold(log, k), log[k])
  {
    TableOfFold(log, k);
    Dedup.EffectiveExactly(Requests(log), k);
  }

  // ---------------------------------------------------------------- repeated entries and snapshots

  /** The index kept with the state is that of the last write that took effect, or 0. */
  lemma {:induction false} IndexIsLastEffective(log: seq<Op>, k: nat)
    requires k <= |log|
    ensures Fold(log, k).lastIndex <= k
    ensures Fold(log, k).lastIndex > 0 ==> Effective(log, Fold(log, k).lastIndex - 1)
    ensures forall i :: Fold(log, k).lastIndex <= i < k ==> !Effective(log, i)
  {
    hide Write, Effective, IsNew, IsWrite;
    if k > 0 {
      IndexIsLastEffective(log, k - 1);
      EffectiveExactly(log, k - 1);
    }
  }

  /** An entry that is delivered again changes nothing. */
  lemma {:induction false} RepeatChangesNothing(log: seq<Op>, i: nat, m: nat)
    requires 1 <= i <= m <= |log|
    ensures Applied(Fold(log, m), log[i - 1], i) == Fold(log, m)
  {
    LastAppliedIsGreatest(log, m);
  }

  /** The index kept with the state tells states of the same log apart: it never goes back, and while
      it stays the same so does the whole state. */
  lemma {:induction false} IndexTellsApart(log: seq<Op>, j: nat, k: nat)
    requires j <= k <= |log|
    ensures Fold(log, j).lastIndex <= Fold(log, k).lastIndex <= k
    ensures Fold(log, j).lastIndex == Fold(log, k).lastIndex ==> Fold(log, j) == Fold(log, k)
    decreases k
  {
    hide Write, IsNew;
    if j < k {
      IndexTellsApart(log, j, k - 1);
    } else if k > 0 {
      IndexTellsApart(log, k - 1, k - 1);
    }
  }

  /** Installing a snapshot is a join: with one taken after `k` entries, a server that has applied `m`
      is in the state after the longer prefix. */
  lemma {:induction false} SnapshotIsJoin(log: seq<Op>, k: nat, m: nat)
    requires k <= |log| && m <= |log|
    ensures Installed(Fold(log, m), Fold(log, k)) == Fold(log, Max(k, m))
  {
    hide Applied;
    if k <= m { IndexTellsApart(log, k, m); } else { IndexTellsApart(log, m, k); }
  }

  // ---------------------------------------------------------------- whole runs of deliveries

  /** What arrives on the apply channel: a log entry, a snapshot of a prefix of the log, or bytes that
      do not decode (the empty snapshot `Make` sends at the very first start). */
  datatype Delivery = Entry(index: nat) | Prefix(upTo: nat) | Undecodable

  predicate Refers(log: seq<Op>, d: Delivery) {
    match d
    case Entry(index) => 1 <= index <= |log|
    case Prefix(upTo) => upTo <= |log|
    case Undecodable => true
  }

  function Reached(seen: nat, d: Delivery): nat {
    match d
    case Entry(index) => Max(seen, index)
    case Prefix(upTo) => Max(seen, upTo)
    case Undecodable => seen
  }

  /** The longest prefix seen after `ds`. */
  function Seen(ds: seq<Delivery>): nat {
    if ds == [] then 0 else Reached(Seen(ds[..|ds| - 1]), ds[|ds| - 1])
  }

  /** Entries may come again, but none comes before all entries below it have been seen. */
  ghost predicate NoSkips(log: seq<Op>, ds: seq<Delivery>) {
    forall i :: 0 <= i < |ds| ==> Refers(log, ds[i]) && (ds[i].Entry? ==> ds[i].index <= Seen(ds[..i]) + 1)
  }

  function Step(log: seq<Op>, s: State, d: Delivery): State
    requires Refers(log, d)
  {
    match d
    case Entry(index) => Applied(s, log[index - 1], index)
    case Prefix(upTo) => Installed(s, Fold(log, upTo))
    case Undecodable => s
  }

  function Deliver(log: seq<Op>, ds: seq<Delivery>): State
    requires forall i :: 0 <= i < |ds| ==> Refers(log, ds[i])
  {
    if ds == [] then EMPTY else Step(log, Deliver(log, ds[..|ds| - 1]), ds[|ds| - 1])
  }

  /** The optimised server refines the plain fold: after any deliveries without skips its store, its
      table of client ids and its index are those of the longest prefix of the log it has seen. */
  lemma {:induction false} ServerIsFold(log: seq<Op>, ds: seq<Delivery>)
    requires NoSkips(log, ds)
    ensures Seen(ds) <= |log| && Deliver(log, ds) == Fold(log, Seen(ds))
  {
    hide Applied, Installed;
    if ds != [] {
      var rest, last := ds[..|ds| - 1], ds[|ds| - 1];
      assert forall i :: 0 <= i < |rest| ==> rest[..i] == ds[..i];
      ServerIsFold(log, rest);
      match last
      case Entry(index) =>
        if index <= Seen(rest) { RepeatChangesNothing(log, index, Seen(rest)); }
      case Prefix(upTo) => SnapshotIsJoin(log, upTo, Seen(rest));
      case Undecodable =>
    }
  }

  // ---------------------------------------------------------------- exactly once

  predicate FirstTime(log: seq<Op>, k: nat)
    requires k < |log|
  {
    Dedup.FirstTime(Requests(log), k)
  }

  ghost predicate InOrder(log: seq<Op>) {
    Dedup.InOrder(Requests(log))
  }

  /** The log with every repeated write, and every read, taken out. */
  function Once(log: seq<Op>, k: nat): seq<Op>
    requires k <= |log|
  {
    if k == 0 then [] else Once(log, k - 1) + if FirstTime(log, k - 1) then [log[k - 1]] else []
  }

  /** Put and Append, one after the other, on a map. */
  function Plain(writes: seq<Op>): Store {
    if writes == [] then map[] else Write(Plain(writes[..|writes| - 1]), writes[|writes| - 1])
  }

  /** Exactly-once: when ids first appear in order, the store is the plain fold of Put and Append over
      the log without its repeated writes. */
  lemma {:induction false} ExactlyOnce(log: seq<Op>, k: nat)
    requires InOrder(log) && k <= |log|
    ensures Fold(log, k).store == Plain(Once(log, k))
  {
    hide Write, Effective, FirstTime, IsNew, InOrder, IsWrite;
    if k > 0 {
      ExactlyOnce(log, k - 1);
      EffectiveExactly(log, k - 1);
      EffectiveIsFirst(log, k - 1);
      FirstIsWrite(log, k - 1);
      var rest := Once(log, k - 1);
      assert (rest + [log[k - 1]])[..|rest|] == rest && rest + [] == rest;
    }
  }

  lemma {:induction false} EffectiveIsFirst(log: seq<Op>, k: nat)
    requires InOrder(log) && k < |log|
    ensures Effective(log, k) <==> FirstTime(log, k)
  {
    hide Dedup.Effective, Dedup.FirstTime, Dedup.InOrder;
    Dedup.ExactlyOnceIffInOrder(Requests(log));
  }

  lemma FirstIsWrite(log: seq<Op>, k: nat)
    requires k < |log|
    ensures FirstTime(log, k) ==> IsWrite(log[k])
  {
  }

  predicate SameId(a: Op, b: Op) {
    IsWrite(a) && IsWrite(b) && a.client == b.client && a.reqId == b.reqId
  }

  // ---------------------------------------------------------------- what Put and Append leave in the store

  predicate Puts(op: Op, key: string) {
    op.kind == "Put" && op.key == key
  }

  predicate Appends(op: Op, key: string) {
    op.kind == "Append" && op.key == key
  }

  /** The values appended to a key from entry `i` on, in log order. */
  function Tail(writes: seq<Op>, key: string, i: nat): string
    requires i <= |writes|
    decreases |writes| - i
  {
    if i == |writes| then ""
    else (if Appends(writes[i], key) then writes[i].value else "") + Tail(writes, key, i + 1)
  }

  /** Entry `p` is the last Put of the key; `p` is -1 when there is none. */
  ghost predicate IsLastPut(writes: seq<Op>, key: string, p: int) {
    && -1 <= p < |writes| && (p >= 0 ==> Puts(writes[p], key))
    && forall i :: p < i < |writes| ==> !Puts(writes[i], key)
  }

  lemma {:induction false} TailNext(writes: seq<Op>, w: Op, key: string, i: nat)
    requires i <= |writes|
    ensures Tail(writes + [w], key, i) == Tail(writes, key, i) + if Appends(w, key) then w.value else ""
    decreases |writes| - i
  {
    if i < |writes| {
      TailNext(writes, w, key, i + 1);
    } else {
      assert Tail(writes + [w], key, i + 1) == "";
    }
  }

  /** One write: Put replaces, Append extends, on its own key; any other kind does nothing. */
  lemma WriteDoes(store: Store, op: Op, key: string)
    ensures Lookup(Write(store, op), key) ==
            if Puts(op, key) then op.value
            else if Appends(op, key) then Lookup(store, key) + op.value
            else Lookup(store, key)
    ensures key in Write(store, op) <==> key in store || Puts(op, key) || Appends(op, key)
  {
  }

  /** The law of the store, over any list of writes: a key holds the value of its last Put, or nothing, and
      behind it the values of all later Appends in log order. */
  lemma {:induction false} StoreHolds(writes: seq<Op>, key: string, p: int)
    requires IsLastPut(writes, key, p)
    ensures Lookup(Plain(writes), key) == (if p >= 0 then writes[p].value else "") + Tail(writes, key, p + 1)
  {
    hide Write, Puts, Appends, Lookup;
    if writes == [] {
      EmptyStore(key);
    } else {
      var rest, w := writes[..|writes| - 1], writes[|writes| - 1];
      assert writes == rest + [w];
      WriteDoes(Plain(rest), w, key);
      if p < |rest| {
        StoreHolds(rest, key, p);
        TailNext(rest, w, key, p + 1);
      } else {
        assert Tail(writes, key, p + 1) == "";
      }
    }
  }

  lemma {:induction false} EmptyStore(key: string)
    ensures Lookup(Plain([]), key) == "" && key !in Plain([]) && Tail([], key, 0) == ""
  {
  }

  /** A key is in the store if and only if it was ever put or appended to. */
  lemma {:induction false} StoreHasKey(writes: seq<Op>, key: string)
    ensures key in Plain(writes) <==> exists i :: 0 <= i < |writes| && (Puts(writes[i], key) || Appends(writes[i], key))
  {
    hide Write, Puts, Appends;
    if writes != [] {
      var rest, w := writes[..|writes| - 1], writes[|writes| - 1];
      WriteDoes(Plain(rest), w, key);
      StoreHasKey(rest, key);
      assert forall i :: 0 <= i < |rest| ==> writes[i] == rest[i];
      assert Puts(w, key) || Appends(w, key) ==> Puts(writes[|rest|], key) || Appends(writes[|rest|], key);
    }
  }

  lemma {:induction false} LastPut(writes: seq<Op>, key: string) returns (p: int)
    ensures IsLastPut(writes, key, p)
  {
    if writes == [] {
      p := -1;
    } else if Puts(writes[|writes| - 1], key) {
      p := |writes| - 1;
    } else {
      p := LastPut(writes[..|writes| - 1], key);
    }
  }

  /** No client uses an id for two different writes. */
  ghost predicate IdsIdentify(log: seq<Op>) {
    forall i, j :: 0 <= i < j < |log| && SameId(log[i], log[j]) ==> log[i] == log[j]
  }

  /** The i-th write is among the writes that are executed once, as the first with its id. */
  ghost predicate OnceHas(log: seq<Op>, k: nat, i: nat)
    requires i < |log| && k <= |log|
  {
    exists o :: o in Once(log, k) && SameId(o, log[i]) && (IdsIdentify(log) ==> o == log[i])
  }

  lemma {:induction false} FirstIsOnce(log: seq<Op>, k: nat, i: nat)
    requires i < k <= |log| && FirstTime(log, i)
    ensures log[i] in Once(log, k)
  {
    hide FirstTime;
    if i < k - 1 { FirstIsOnce(log, k - 1, i); }
  }

  /** Every write of the log is executed, under the first use of its id. */
  lemma {:induction false} OnceHasAll(log: seq<Op>, k: nat, i: nat)
    requires i < k <= |log| && IsWrite(log[i])
    ensures OnceHas(log, k, i)
  {
    hide Dedup.FirstTime;
    var j := Dedup.FirstUse(Requests(log), i);
    assert FirstTime(log, j) && AsRequest(log[j]) == Requests(log)[j] && AsRequest(log[i]) == Requests(log)[i];
    FirstIsWrite(log, j);
    FirstIsOnce(log, k, j);
  }

  /** Without that order the property is false: a write that is committed after a later one of the same
      client is lost. */
  lemma LateWriteLost(client: int, key: string, value: string)
    requires value != ""
    ensures var log := [Op("Append", 2, client, key, ""), Op("Append", 1, client, key, value)];
            !InOrder(log) && Lookup(Fold(log, 2).store, key) == "" && Lookup(Plain(Once(log, 2)), key) == value
  {
    var a, b := Op("Append", 2, client, key, ""), Op("Append", 1, client, key, value);
    var log := [a, b];
    TwoFolded(a, b);
    TwoOnce(a, b);
    assert Requests(log)[0] == AsRequest(a) && Requests(log)[1] == AsRequest(b);
    assert "" + value == value;
  }

  /** The second of two writes with falling ids is dropped. */
  lemma TwoFolded(a: Op, b: Op)
    requires IsWrite(a) && SameId(a, b.(reqId := a.reqId)) && b.reqId < a.reqId
    ensures Fold([a, b], 2).store == Write(map[], a)
  {
    hide Write;
    assert Fold([a, b], 1) == Applied(EMPTY, a, 1);
  }

  lemma TwoFirst(a: Op, b: Op)
    requires IsWrite(a) && SameId(a, b.(reqId := a.reqId)) && b.reqId < a.reqId
    ensures FirstTime([a, b], 0) && FirstTime([a, b], 1) && !InOrder([a, b])
  {
    assert Requests([a, b])[0] == AsRequest(a) && Requests([a, b])[1] == AsRequest(b);
  }

  /** Both are first uses of their ids, in the wrong order. */
  lemma TwoOnce(a: Op, b: Op)
    requires IsWrite(a) && SameId(a, b.(reqId := a.reqId)) && b.reqId < a.reqId
    ensures !InOrder([a, b]) && Plain(Once([a, b], 2)) == Write(Write(map[], a), b)
  {
    var log := [a, b];
    TwoFirst(a, b);
    hide Write, FirstTime, InOrder;
    assert Once(log, 1) == [a] && Once(log, 2) == [a] + [b];
    assert [a, b][..1] == [a] && Plain([a]) == Write(Plain([]), a);
    assert Plain([a, b]) == Write(Plain([a]), b);
  }
}
