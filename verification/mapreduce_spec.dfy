/** Strings in the order Go sorts them, and what a MapReduce job promises (src/mapreduce). The user's
    map and reduce functions and the hash are arbitrary functions. */
module MapReduceSpec {

  datatype KeyValue = KeyValue(key: string, value: string)

  type MapF = (string, string) -> seq<KeyValue>
  type ReduceF = (string, seq<string>) -> string
  type Hash = string -> nat

  // ---------------------------------------------------------------- string order

  predicate Less(a: string, b: string) {
    b != [] && (a == [] || a[0] < b[0] || (a[0] == b[0] && Less(a[1..], b[1..])))
  }

  lemma {:induction false} LessTransitive(a: string, b: string, c: string)
    requires Less(a, b) && Less(b, c)
    ensures Less(a, c)
  {
    if a != [] && a[0] == b[0] == c[0] { LessTransitive(a[1..], b[1..], c[1..]); }
  }

  lemma {:induction false} LessIrreflexive(a: string)
    ensures !Less(a, a)
  {
    if a != [] { LessIrreflexive(a[1..]); }
  }

  lemma {:induction false} LessTotal(a: string, b: string)
    ensures Less(a, b) || a == b || Less(b, a)
  {
    if a != [] && b != [] && a[0] == b[0] {
      LessTotal(a[1..], b[1..]);
      assert a == [a[0]] + a[1..] && b == [b[0]] + b[1..];
    }
  }

  /** The order is the lexicographic one: a proper prefix comes first, and otherwise the first character in
      which the strings differ decides. */
  lemma {:induction false} LessExactly(a: string, b: string)
    ensures Less(a, b) <==> exists k: nat :: Decides(a, b, k)
  {
    if a != [] && b != [] && a[0] == b[0] {
      LessExactly(a[1..], b[1..]);
      if k: nat :| Decides(a[1..], b[1..], k) {
        DecidesLater(a, b, k);
      }
      if k: nat :| Decides(a, b, k) {
        assert k > 0;
        DecidesLater(a, b, k - 1);
      }
    } else if Less(a, b) {
      assert Decides(a, b, 0);
    }
  }

  /** The strings agree up to `k`, where the first ends or has the smaller character. */
  predicate Decides(a: string, b: string, k: nat) {
    k <= |a| && k < |b| && a[..k] == b[..k] && (k == |a| || a[k] < b[k])
  }

  lemma DecidesLater(a: string, b: string, k: nat)
    requires a != [] && b != [] && a[0] == b[0]
    ensures Decides(a[1..], b[1..], k) <==> Decides(a, b, k + 1)
  {
    if k + 1 <= |a| && k + 1 <= |b| {
      assert a[..k + 1] == [a[0]] + a[1..][..k] && b[..k + 1] == [b[0]] + b[1..][..k];
      assert a[..k + 1][1..] == a[1..][..k] && b[..k + 1][1..] == b[1..][..k];
    }
  }

  // ---------------------------------------------------------------- lists of pairs

  ghost predicate Increasing(out: seq<KeyValue>) {
    forall i, j :: 0 <= i < j < |out| ==> Less(out[i].key, out[j].key)
  }

  ghost predicate HasKey(kvs: seq<KeyValue>, key: string) {
    exists i :: 0 <= i < |kvs| && kvs[i].key == key
  }

  /** All values emitted for a key, as often as they were emitted. */
  function ValuesFor(kvs: seq<KeyValue>, key: string): multiset<string> {
    if kvs == [] then multiset{}
    else
      ValuesFor(kvs[..|kvs| - 1], key)
      + if kvs[|kvs| - 1].key == key then multiset{kvs[|kvs| - 1].value} else multiset{}
  }

  lemma {:induction false} ValuesAppend(a: seq<KeyValue>, b: seq<KeyValue>, key: string)
    ensures ValuesFor(a + b, key) == ValuesFor(a, key) + ValuesFor(b, key)
  {
    if b == [] {
      assert a + b == a;
    } else {
      assert (a + b)[..|a + b| - 1] == a + b[..|b| - 1];
      ValuesAppend(a, b[..|b| - 1], key);
    }
  }

  lemma HasKeyAppend(a: seq<KeyValue>, b: seq<KeyValue>, key: string)
    ensures HasKey(a + b, key) <==> HasKey(a, key) || HasKey(b, key)
  {
    if HasKey(a, key) {
      var i :| 0 <= i < |a| && a[i].key == key;
      assert (a + b)[i].key == key;
    }
    if HasKey(b, key) {
      var i :| 0 <= i < |b| && b[i].key == key;
      assert (a + b)[|a| + i].key == key;
    }
  }

  lemma {:induction false} ValuesOne(kv: KeyValue, key: string)
    ensures ValuesFor([kv], key) == if kv.key == key then multiset{kv.value} else multiset{}
  {
    assert [kv][..0] == [];
  }

  lemma KeyOne(kv: KeyValue, key: string)
    ensures HasKey([kv], key) <==> kv.key == key
  {
    assert [kv][0] == kv;
  }

  /** Taking one pair out of the middle. */
  lemma {:induction false} ValuesWithout(b: seq<KeyValue>, i: nat, key: string)
    requires i < |b|
    ensures ValuesFor(b, key) == ValuesFor(b[..i] + b[i + 1..], key) + ValuesFor([b[i]], key)
  {
    hide ValuesFor;
    assert b == (b[..i] + [b[i]]) + b[i + 1..];
    ValuesAppend(b[..i] + [b[i]], b[i + 1..], key);
    ValuesAppend(b[..i], [b[i]], key);
    ValuesAppend(b[..i], b[i + 1..], key);
  }

  lemma BagWithout(b: seq<KeyValue>, i: nat)
    requires i < |b|
    ensures multiset(b[..i] + b[i + 1..]) == multiset(b) - multiset{b[i]}
  {
    assert b == b[..i] + [b[i]] + b[i + 1..];
  }

  /** Reordering a list changes neither its keys nor their values. */
  lemma {:induction false} ReorderedValues(a: seq<KeyValue>, b: seq<KeyValue>, key: string)
    requires multiset(a) == multiset(b)
    ensures ValuesFor(a, key) == ValuesFor(b, key)
  {
    hide ValuesFor;
    if a == [] {
      assert |a| == |multiset(a)| == |multiset(b)| == |b|;
    } else {
      var last := |a| - 1;
      assert a[last] in multiset(a) && a[last] in b;
      var i :| 0 <= i < |b| && b[i] == a[last];
      BagWithout(a, last);
      BagWithout(b, i);
      ReorderedValues(a[..last] + a[last + 1..], b[..i] + b[i + 1..], key);
      ValuesWithout(a, last, key);
      ValuesWithout(b, i, key);
    }
  }

  lemma ReorderedKeys(a: seq<KeyValue>, b: seq<KeyValue>, key: string)
    requires multiset(a) == multiset(b) && HasKey(a, key)
    ensures HasKey(b, key)
  {
    var i :| 0 <= i < |a| && a[i].key == key;
    assert a[i] in multiset(a) && a[i] in b;
  }

  // ---------------------------------------------------------------- the promise

  /** `value` is the reduce function applied to all values of the key, in some order. */
  ghost predicate IsReduction(kvs: seq<KeyValue>, reduceF: ReduceF, key: string, value: string) {
    exists vals :: multiset(vals) == ValuesFor(kvs, key) && value == reduceF(key, vals)
  }

  /** Exactly the keys of `kvs`, in strictly increasing order, each with its reduction. */
  ghost predicate Reduces(kvs: seq<KeyValue>, reduceF: ReduceF, out: seq<KeyValue>) {
    && Increasing(out)
    && (forall key :: HasKey(out, key) <==> HasKey(kvs, key))
    && forall i :: 0 <= i < |out| ==> IsReduction(kvs, reduceF, out[i].key, out[i].value)
  }

  /** An input file. */
  datatype Input = Input(name: string, contents: string)

  /** Everything the first `m` map tasks emit. */
  function Emitted(inputs: seq<Input>, mapF: MapF, m: nat): seq<KeyValue>
    requires m <= |inputs|
  {
    if m == 0 then [] else Emitted(inputs, mapF, m - 1) + mapF(inputs[m - 1].name, inputs[m - 1].contents)
  }

  /** Everything all map tasks emit. */
  function AllEmitted(inputs: seq<Input>, mapF: MapF): seq<KeyValue> {
    Emitted(inputs, mapF, |inputs|)
  }

  /** What a map task writes for one reduce task. */
  function Part(kvs: seq<KeyValue>, hash: Hash, nReduce: nat, r: nat): seq<KeyValue>
    requires nReduce > 0
  {
    if kvs == [] then []
    else
      Part(kvs[..|kvs| - 1], hash, nReduce, r)
      + if hash(kvs[|kvs| - 1].key) % nReduce == r then [kvs[|kvs| - 1]] else []
  }

  lemma {:induction false} PartAppend(a: seq<KeyValue>, b: seq<KeyValue>, hash: Hash, nReduce: nat, r: nat)
    requires nReduce > 0
    ensures Part(a + b, hash, nReduce, r) == Part(a, hash, nReduce, r) + Part(b, hash, nReduce, r)
  {
    if b == [] {
      assert a + b == a;
    } else {
      assert (a + b)[..|a + b| - 1] == a + b[..|b| - 1];
      PartAppend(a, b[..|b| - 1], hash, nReduce, r);
    }
  }

  lemma PartNext(kvs: seq<KeyValue>, hash: Hash, nReduce: nat, r: nat)
    requires nReduce > 0 && kvs != []
    ensures var rest, last := kvs[..|kvs| - 1], kvs[|kvs| - 1];
            && kvs == rest + [last]
            && Part(kvs, hash, nReduce, r) ==
               if hash(last.key) % nReduce == r then Part(rest, hash, nReduce, r) + [last]
               else Part(rest, hash, nReduce, r)
  {
  }

  /** A reduce task gets all the values of its own keys and nothing else. */
  lemma {:induction false} PartValues(kvs: seq<KeyValue>, hash: Hash, nReduce: nat, r: nat, key: string)
    requires nReduce > 0
    ensures ValuesFor(Part(kvs, hash, nReduce, r), key) ==
            if hash(key) % nReduce == r then ValuesFor(kvs, key) else multiset{}
  {
    if kvs != [] {
      hide ValuesFor, Part;
      var rest, last := kvs[..|kvs| - 1], kvs[|kvs| - 1];
      PartValues(rest, hash, nReduce, r, key);
      PartNext(kvs, hash, nReduce, r);
      ValuesOne(last, key);
      ValuesAppend(rest, [last], key);
      ValuesAppend(Part(rest, hash, nReduce, r), [last], key);
    }
  }

  lemma {:induction false} PartKeys(kvs: seq<KeyValue>, hash: Hash, nReduce: nat, r: nat, key: string)
    requires nReduce > 0
    ensures HasKey(Part(kvs, hash, nReduce, r), key) <==> hash(key) % nReduce == r && HasKey(kvs, key)
  {
    if kvs != [] {
      hide HasKey, Part;
      var rest, last := kvs[..|kvs| - 1], kvs[|kvs| - 1];
      PartKeys(rest, hash, nReduce, r, key);
      PartNext(kvs, hash, nReduce, r);
      KeyOne(last, key);
      HasKeyAppend(rest, [last], key);
      HasKeyAppend(Part(rest, hash, nReduce, r), [last], key);
    }
  }

  // ---------------------------------------------------------------- merging

  /** The map `merge` builds from the reduce outputs, in order; a later output overwrites an earlier. */
  function Loaded(outs: seq<seq<KeyValue>>, n: nat): map<string, string>
    requires n <= |outs|
  {
    if n == 0 then map[] else LoadedFrom(Loaded(outs, n - 1), outs[n - 1])
  }

  function LoadedFrom(m: map<string, string>, out: seq<KeyValue>): map<string, string> {
    if out == [] then m else LoadedFrom(m, out[..|out| - 1])[out[|out| - 1].key := out[|out| - 1].value]
  }

  /** Pair `i` of output `r` is the last one of its key in the first `n` outputs. */
  ghost predicate IsLastPair(outs: seq<seq<KeyValue>>, n: nat, key: string, r: nat, i: nat)
    requires n <= |outs|
  {
    && r < n && i < |outs[r]| && outs[r][i].key == key
    && (forall j :: i < j < |outs[r]| ==> outs[r][j].key != key)
    && forall s :: r < s < n ==> !HasKey(outs[s], key)
  }

  /** Whatever the outputs hold, the map has the value of the last pair of each key. */
  lemma {:induction false} LoadedLastWins(outs: seq<seq<KeyValue>>, n: nat, key: string, r: nat, i: nat)
    requires n <= |outs| && IsLastPair(outs, n, key, r, i)
    ensures key in Loaded(outs, n) && Loaded(outs, n)[key] == outs[r][i].value
  {
    hide LoadedFrom;
    LastInOutput(Loaded(outs, n - 1), outs[n - 1], key);
    assert HasKey(outs[r], key);
    if r < n - 1 { LoadedLastWins(outs, n - 1, key, r, i); }
  }

  lemma {:induction false} LastInOutput(m: map<string, string>, out: seq<KeyValue>, key: string)
    ensures key in LoadedFrom(m, out) <==> key in m || HasKey(out, key)
    ensures key in m && !HasKey(out, key) ==> LoadedFrom(m, out)[key] == m[key]
    ensures forall i :: 0 <= i < |out| && out[i].key == key && (forall j :: i < j < |out| ==> out[j].key != key) ==>
              LoadedFrom(m, out)[key] == out[i].value
  {
    if out != [] {
      var rest, last := out[..|out| - 1], out[|out| - 1];
      LastInOutput(m, rest, key);
      assert out == rest + [last];
      HasKeyAppend(rest, [last], key);
      KeyOne(last, key);
    }
  }

  /** What `merge` writes: the map's entries, sorted by key. */
  ghost predicate Merges(m: map<string, string>, merged: seq<KeyValue>) {
    && Increasing(merged)
    && (forall key :: HasKey(merged, key) <==> key in m)
    && forall i :: 0 <= i < |merged| ==> merged[i].key in m && merged[i].value == m[merged[i].key]
  }

  lemma {:induction false} LoadedFromMeans(m: map<string, string>, out: seq<KeyValue>, key: string)
    requires Increasing(out)
    ensures key in LoadedFrom(m, out) <==> key in m || HasKey(out, key)
    ensures HasKey(out, key) ==>
              exists i :: 0 <= i < |out| && out[i].key == key && LoadedFrom(m, out)[key] == out[i].value
    ensures key in m && !HasKey(out, key) ==> LoadedFrom(m, out)[key] == m[key]
  {
    if out != [] {
      var rest, last := out[..|out| - 1], out[|out| - 1];
      LoadedFromMeans(m, rest, key);
      if last.key == key {
        assert out[|out| - 1].key == key;
      } else if HasKey(out, key) {
        var i :| 0 <= i < |out| && out[i].key == key;
        assert rest[i].key == key;
      } else {
        assert forall i :: 0 <= i < |rest| ==> rest[i] == out[i];
      }
      if HasKey(rest, key) {
        var i :| 0 <= i < |rest| && rest[i].key == key && LoadedFrom(m, rest)[key] == rest[i].value;
        assert out[i].key == key && out[i] == rest[i];
      }
    }
  }

  /** Reduce output `r` holds the reductions of partition `r`. */
  ghost predicate OutputsOK(kvs: seq<KeyValue>, hash: Hash, nReduce: nat, reduceF: ReduceF, outs: seq<seq<KeyValue>>,
                            n: nat)
    requires nReduce > 0 && n <= |outs|
  {
    forall r: nat :: r < n ==> Reduces(Part(kvs, hash, nReduce, r), reduceF, outs[r])
  }

  /** No key is overwritten by another partition: after loading `n` outputs the map holds exactly the
      keys of those partitions, each with its own reduction. */
  lemma {:induction false} LoadedReduces(kvs: seq<KeyValue>, hash: Hash, nReduce: nat, reduceF: ReduceF,
                                         outs: seq<seq<KeyValue>>, n: nat, key: string)
    requires nReduce > 0 && n <= |outs| && OutputsOK(kvs, hash, nReduce, reduceF, outs, n)
    ensures key in Loaded(outs, n) <==> HasKey(kvs, key) && hash(key) % nReduce < n
    ensures key in Loaded(outs, n) ==> IsReduction(kvs, reduceF, key, Loaded(outs, n)[key])
  {
    hide IsReduction;
    if n > 0 {
      var r := n - 1;
      LoadedReduces(kvs, hash, nReduce, reduceF, outs, r, key);
      var part := Part(kvs, hash, nReduce, r);
      assert Reduces(part, reduceF, outs[r]);
      LoadedFromMeans(Loaded(outs, r), outs[r], key);
      PartKeys(kvs, hash, nReduce, r, key);
      if HasKey(outs[r], key) {
        var i :| 0 <= i < |outs[r]| && outs[r][i].key == key && Loaded(outs, n)[key] == outs[r][i].value;
        SameReduction(kvs, hash, nReduce, r, reduceF, key, outs[r][i].value);
      }
    }
  }

  lemma {:induction false} SameReduction(kvs: seq<KeyValue>, hash: Hash, nReduce: nat, r: nat, reduceF: ReduceF,
                                         key: string, value: string)
    requires nReduce > 0 && hash(key) % nReduce == r
    requires IsReduction(Part(kvs, hash, nReduce, r), reduceF, key, value)
    ensures IsReduction(kvs, reduceF, key, value)
  {
    PartValues(kvs, hash, nReduce, r, key);
  }

  /** MapReduce end to end, however the tasks were scheduled, and whatever order the unstable sort left
      equal keys in: the merged output has exactly the emitted keys in strictly increasing order, each
      with the reduce function of all values emitted for it. */
  lemma {:induction false} EndToEnd(kvs: seq<KeyValue>, hash: Hash, nReduce: nat, reduceF: ReduceF,
                                    outs: seq<seq<KeyValue>>, merged: seq<KeyValue>)
    requires nReduce > 0 && |outs| == nReduce && OutputsOK(kvs, hash, nReduce, reduceF, outs, nReduce)
    requires Merges(Loaded(outs, nReduce), merged)
    ensures Reduces(kvs, reduceF, merged)
  {
    hide IsReduction, OutputsOK;
    forall key ensures HasKey(merged, key) <==> HasKey(kvs, key) {
      LoadedReduces(kvs, hash, nReduce, reduceF, outs, nReduce, key);
    }
    forall i | 0 <= i < |merged| ensures IsReduction(kvs, reduceF, merged[i].key, merged[i].value) {
      LoadedReduces(kvs, hash, nReduce, reduceF, outs, nReduce, merged[i].key);
    }
  }
}
