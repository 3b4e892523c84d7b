/** The `RaftKV` object of src/kvraft/server.go: the loop of `ApplyRoutine` over the messages of the
    apply channel. */
module KvServer {
  import opened KvSpec

  /** An `ApplyMsg`: a command with its index, or the bytes of a snapshot, decoded if they decode. */
  datatype Msg = Command(index: nat, op: Op) | Snapshot(state: State) | BadSnapshot

  /** What is handed to the handler waiting for an index. */
  datatype Notice = Notice(index: nat, op: Op)

  function AfterMsg(s: State, m: Msg): State {
    match m
    case Command(index, op) => Applied(s, op, index)
    case Snapshot(state) => Installed(s, state)
    case BadSnapshot => s
  }

  function After(s: State, ms: seq<Msg>): State {
    if ms == [] then s else AfterMsg(After(s, ms[..|ms| - 1]), ms[|ms| - 1])
  }

  /** One notice for every command, answered from the state in which the command was processed. */
  function Notices(s: State, ms: seq<Msg>): seq<Notice> {
    if ms == [] then []
    else
      var rest, m := ms[..|ms| - 1], ms[|ms| - 1];
      Notices(s, rest) + if m.Command? then [Notice(m.index, Answered(After(s, rest), m.op))] else []
  }

  class RaftKV {
    var store: Store
    var lastApplied: map<int, int>
    var lastIncludedIndex: nat

    ghost function Contents(): State
      reads this
    {
      State(store, lastApplied, lastIncludedIndex)
    }

    constructor ()
      ensures Contents() == EMPTY
    {
      store, lastApplied, lastIncludedIndex := map[], map[], 0;
    }

    method HandlePutAppend(op: Op)
      modifies this`store
      ensures store == Write(old(store), op)
    {
      if op.kind == "Put" {
        store := store[op.key := op.value];
      } else if op.kind == "Append" {
        var before := if op.key in store then store[op.key] else "";
        store := store[op.key := before + op.value];
      }
    }

    method HandleGet(op: Op) returns (answered: Op)
      ensures answered == if op.key in store then op.(value := store[op.key]) else op
    {
      answered := op;
      if op.key in store {
        answered := op.(value := store[op.key]);
      }
    }

    method Process(index: nat, op: Op) returns (answered: Op)
      modifies this
      ensures Contents() == Applied(old(Contents()), op, index) && answered == Answered(old(Contents()), op)
    {
      answered := op;
      if op.kind == "GET" {
        answered := HandleGet(op);
      } else if op.client !in lastApplied || lastApplied[op.client] < op.reqId {
        lastApplied := lastApplied[op.client := op.reqId];
        HandlePutAppend(op);
        lastIncludedIndex := index;
      }
    }

    /** `ApplyRoutine`, over the messages received so far. */
    method ApplyRoutine(ms: seq<Msg>) returns (notices: seq<Notice>)
      modifies this
      ensures Contents() == After(old(Contents()), ms) && notices == Notices(old(Contents()), ms)
    {
      ghost var s := Contents();
      notices := [];
      var i := 0;
      while i < |ms|
        invariant 0 <= i <= |ms|
        invariant Contents() == After(s, ms[..i]) && notices == Notices(s, ms[..i])
      {
        assert ms[..i + 1][..i] == ms[..i];
        match ms[i] {
          case Command(index, op) =>
            var answered := Process(index, op);
            notices := notices + [Notice(index, answered)];
          case Snapshot(state) =>
            if state.lastIndex > lastIncludedIndex {
              lastIncludedIndex, store, lastApplied := state.lastIndex, state.store, state.lastApplied;
            }
          case BadSnapshot =>
        }
        i := i + 1;
      }
      assert ms[..|ms|] == ms;
    }
  }

  // ---------------------------------------------------------------- with respect to a log

  /** The message that a delivery of a committed log puts on the channel. */
  function MsgFor(log: seq<Op>, d: Delivery): Msg
    requires Refers(log, d)
  {
    match d
    case Entry(index) => Command(index, log[index - 1])
    case Prefix(upTo) => Snapshot(Fold(log, upTo))
    case Undecodable => BadSnapshot
  }

  function MsgsFor(log: seq<Op>, ds: seq<Delivery>): (ms: seq<Msg>)
    requires forall i :: 0 <= i < |ds| ==> Refers(log, ds[i])
    ensures |ms| == |ds| && forall i :: 0 <= i < |ds| ==> ms[i] == MsgFor(log, ds[i])
  {
    seq(|ds|, i requires 0 <= i < |ds| => MsgFor(log, ds[i]))
  }

  lemma {:induction false} AfterIsDeliver(log: seq<Op>, ds: seq<Delivery>)
    requires forall i :: 0 <= i < |ds| ==> Refers(log, ds[i])
    ensures After(EMPTY, MsgsFor(log, ds)) == Deliver(log, ds)
  {
    if ds != [] {
      var rest := ds[..|ds| - 1];
      AfterIsDeliver(log, rest);
      assert MsgsFor(log, ds)[..|ds| - 1] == MsgsFor(log, rest);
    }
  }

  /** A server started empty and fed any such messages holds the fold over the longest prefix seen. */
  lemma {:induction false} RunIsFold(log: seq<Op>, ds: seq<Delivery>)
    requires NoSkips(log, ds)
    ensures Seen(ds) <= |log| && After(EMPTY, MsgsFor(log, ds)) == Fold(log, Seen(ds))
  {
    AfterIsDeliver(log, ds);
    ServerIsFold(log, ds);
  }

  lemma {:induction false} LastNotice(s: State, ms: seq<Msg>, m: Msg)
    requires m.Command?
    ensures Notices(s, ms + [m]) == Notices(s, ms) + [Notice(m.index, Answered(After(s, ms), m.op))]
  {
    hide After, Answered;
    assert (ms + [m])[..|ms|] == ms;
  }

  /** Snapshots are not announced. */
  lemma {:induction false} NoNotice(s: State, ms: seq<Msg>, m: Msg)
    requires !m.Command?
    ensures Notices(s, ms + [m]) == Notices(s, ms)
  {
    hide After, Answered;
    assert (ms + [m])[..|ms|] == ms;
  }

  lemma NoSkipsBefore(log: seq<Op>, ds: seq<Delivery>, d: Delivery)
    requires NoSkips(log, ds + [d])
    ensures NoSkips(log, ds) && Refers(log, d)
  {
    hide Refers, Seen;
    var all := ds + [d];
    assert all[|ds|] == d;
    assert forall j :: 0 <= j < |ds| ==> ds[j] == all[j] && ds[..j] == all[..j];
  }

  /** A GET it then processes as entry `i` returns what that prefix says about its key. */
  lemma {:induction false} NoticeReadsFold(log: seq<Op>, ds: seq<Delivery>, i: nat)
    requires NoSkips(log, ds + [Entry(i)])
    ensures Seen(ds) <= |log| && 1 <= i <= |log|
    ensures var ms := MsgsFor(log, ds + [Entry(i)]);
            |Notices(EMPTY, ms)| > 0
            && Notices(EMPTY, ms)[|Notices(EMPTY, ms)| - 1] == Notice(i, Answered(Fold(log, Seen(ds)), log[i - 1]))
  {
    hide After, Notices, Answered, Fold, Seen;
    NoSkipsBefore(log, ds, Entry(i));
    RunIsFold(log, ds);
    var ms, m := MsgsFor(log, ds), Command(i, log[i - 1]);
    assert MsgsFor(log, ds + [Entry(i)]) == ms + [m];
    LastNotice(EMPTY, ms, m);
  }
}
