/** The deduplication of retried writes that the key/value service and the shardmaster share: a table of
    the last id of every client, and the writes that get past it (src/kvraft/server.go:119-124 and
    src/shardmaster/server.go:176-186). */
module Deduplication {

  /** A logged operation as far as deduplication looks at it. */
  datatype Request = Request(write: bool, client: int, reqId: int)

  type Table = map<int, int>

  predicate IsNew(table: Table, r: Request) {
    r.client !in table || table[r.client] < r.reqId
  }

  /** One logged operation. */
  function Noted(table: Table, r: Request): Table {
    if r.write && IsNew(table, r) then table[r.client := r.reqId] else table
  }

  /** The table after the first `k` operations of the log. */
  function TableAt(log: seq<Request>, k: nat): Table
    requires k <= |log|
  {
    if k == 0 then map[] else Noted(TableAt(log, k - 1), log[k - 1])
  }

  predicate SameClientWrite(a: Request, b: Request) {
    a.write && b.write && a.client == b.client
  }

  /** A write takes effect when its id is above those of all earlier writes of its client. */
  predicate Effective(log: seq<Request>, k: nat)
    requires k < |log|
  {
    log[k].write && forall j :: 0 <= j < k && SameClientWrite(log[j], log[k]) ==> log[j].reqId < log[k].reqId
  }

  /** The table holds the greatest id of each client's writes so far. */
  ghost predicate GreatestIds(log: seq<Request>, k: nat, table: Table)
    requires k <= |log|
  {
    && (forall j :: 0 <= j < k && log[j].write ==> log[j].client in table && log[j].reqId <= table[log[j].client])
    && forall c :: c in table ==>
         exists j :: 0 <= j < k && log[j].write && log[j].client == c && log[j].reqId == table[c]
  }

  lemma {:induction false} TableIsGreatest(log: seq<Request>, k: nat)
    requires k <= |log|
    ensures GreatestIds(log, k, TableAt(log, k))
  {
    if k > 0 {
      TableIsGreatest(log, k - 1);
      var before, after := TableAt(log, k - 1), TableAt(log, k);
      forall c | c in after
        ensures exists j :: 0 <= j < k && log[j].write && log[j].client == c && log[j].reqId == after[c]
      {
        if c in before && after[c] == before[c] {
          var j :| 0 <= j < k - 1 && log[j].write && log[j].client == c && log[j].reqId == before[c];
          assert 0 <= j < k;
        } else {
          assert 0 <= k - 1 < k && log[k - 1].client == c && log[k - 1].reqId == after[c];
        }
      }
    }
  }

  /** With no hypothesis on the log: the writes that get past the table are exactly each client's strict
      running maxima. */
  lemma {:induction false} EffectiveExactly(log: seq<Request>, k: nat)
    requires k < |log|
    ensures Effective(log, k) <==> log[k].write && IsNew(TableAt(log, k), log[k])
  {
    TableIsGreatest(log, k);
  }

  // ---------------------------------------------------------------- exactly once

  /** The first of the writes with this client and id. */
  predicate FirstTime(log: seq<Request>, k: nat)
    requires k < |log|
  {
    log[k].write && forall j :: 0 <= j < k && SameClientWrite(log[j], log[k]) ==> log[j].reqId != log[k].reqId
  }

  /** Every client's write ids first appear in increasing order, as they do when it waits for each
      write to succeed before it issues the next (src/kvraft/client.go:79-92). */
  ghost predicate InOrder(log: seq<Request>) {
    forall j, k :: 0 <= j < k < |log| && FirstTime(log, j) && FirstTime(log, k) && log[j].client == log[k].client ==>
      log[j].reqId < log[k].reqId
  }

  /** The first appearance of the id used at `j`. */
  lemma {:induction false} FirstUse(log: seq<Request>, j: nat) returns (i: nat)
    requires j < |log| && log[j].write
    ensures i <= j && FirstTime(log, i) && log[i].client == log[j].client && log[i].reqId == log[j].reqId
  {
    if FirstTime(log, j) {
      i := j;
    } else {
      var l :| 0 <= l < j && SameClientWrite(log[l], log[j]) && log[l].reqId == log[j].reqId;
      i := FirstUse(log, l);
    }
  }

  /** Exactly the first appearances take effect if and only if they appear in order; otherwise some
      client's write is dropped. */
  lemma ExactlyOnceIffInOrder(log: seq<Request>)
    ensures InOrder(log) <==> forall k :: 0 <= k < |log| ==> (Effective(log, k) <==> FirstTime(log, k))
  {
    if InOrder(log) {
      forall k | 0 <= k < |log| ensures Effective(log, k) <==> FirstTime(log, k) {
        if FirstTime(log, k) {
          forall j | 0 <= j < k && SameClientWrite(log[j], log[k]) ensures log[j].reqId < log[k].reqId {
            var i := FirstUse(log, j);
          }
        }
      }
    }
    if forall k :: 0 <= k < |log| ==> (Effective(log, k) <==> FirstTime(log, k)) {
      forall j, k | 0 <= j < k < |log| && FirstTime(log, j) && FirstTime(log, k) && log[j].client == log[k].client
        ensures log[j].reqId < log[k].reqId
      {
        assert Effective(log, k) && SameClientWrite(log[j], log[k]);
      }
    }
  }
}
