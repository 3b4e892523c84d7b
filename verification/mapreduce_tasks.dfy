/** The tasks of src/mapreduce with their loops: doMap, doReduce, merge, and the sequential job. */
module MapReduceTasks {
  import opened Collections
  import opened MapReduceSpec

  /** Intermediate files, named by map task and reduce task. */
  datatype FileName = FileName(mapTask: nat, reduceTask: nat)
  type Files = map<FileName, seq<KeyValue>>

  // ---------------------------------------------------------------- map

  /** The files of one map task. */
  ghost function NamesOf(task: nat, nReduce: nat): set<FileName> {
    set r: nat | r < nReduce :: FileName(task, r)
  }

  ghost predicate OthersKept(files0: Files, files: Files, task: nat) {
    forall f :: f in files0 && f.mapTask != task ==> f in files && files[f] == files0[f]
  }

  /** The first loop of `doMap`: create the files, empty. */
  method CreateFiles(files0: Files, task: nat, nReduce: nat) returns (files: Files)
    ensures files.Keys == files0.Keys + NamesOf(task, nReduce) && OthersKept(files0, files, task)
    ensures forall r: nat :: r < nReduce ==> files[FileName(task, r)] == []
  {
    files := files0;
    var r := 0;
    while r < nReduce
      invariant 0 <= r <= nReduce
      invariant files.Keys == files0.Keys + NamesOf(task, r) && OthersKept(files0, files, task)
      invariant forall q: nat :: q < r ==> files[FileName(task, q)] == []
    {
      files := files[FileName(task, r) := []];
      r := r + 1;
    }
  }

  /** `doMap`: every pair is appended to the file of its hash. */
  method DoMap(files0: Files, task: nat, input: Input, nReduce: nat, mapF: MapF, hash: Hash) returns (files: Files)
    requires nReduce > 0
    ensures files.Keys == files0.Keys + NamesOf(task, nReduce) && OthersKept(files0, files, task)
    ensures forall r: nat :: r < nReduce ==>
              files[FileName(task, r)] == Part(mapF(input.name, input.contents), hash, nReduce, r)
  {
    hide NamesOf;
    var kvs := mapF(input.name, input.contents);
    files := CreateFiles(files0, task, nReduce);
    HasNames(task, nReduce);
    var i := 0;
    while i < |kvs|
      invariant 0 <= i <= |kvs|
      invariant files.Keys == files0.Keys + NamesOf(task, nReduce) && OthersKept(files0, files, task)
      invariant forall q: nat :: q < nReduce ==> files[FileName(task, q)] == Part(kvs[..i], hash, nReduce, q)
    {
      var kv := kvs[i];
      var f := FileName(task, hash(kv.key) % nReduce);
      ghost var so := kvs[..i + 1];
      assert so[..i] == kvs[..i];
      files := files[f := files[f] + [kv]];
      i := i + 1;
    }
    assert kvs[..|kvs|] == kvs;
  }

  lemma HasNames(task: nat, nReduce: nat)
    ensures forall q: nat :: q < nReduce ==> FileName(task, q) in NamesOf(task, nReduce)
  {
  }

  // ---------------------------------------------------------------- sorting

  ghost predicate SortedByKey(kvs: seq<KeyValue>) {
    forall i, j :: 0 <= i < j < |kvs| ==> !Less(kvs[j].key, kvs[i].key)
  }

  /** `sort.Slice` by key. It is not stable, so only this contract is used. */
  method SortByKey(kvs: seq<KeyValue>) returns (sorted: seq<KeyValue>)
    ensures SortedByKey(sorted) && multiset(sorted) == multiset(kvs)
  {
    sorted := [];
    var i := 0;
    while i < |kvs|
      invariant 0 <= i <= |kvs| && SortedByKey(sorted) && multiset(sorted) == multiset(kvs[..i])
    {
      sorted := InsertByKey(sorted, kvs[i]);
      assert kvs[..i + 1] == kvs[..i] + [kvs[i]];
      i := i + 1;
    }
    assert kvs[..|kvs|] == kvs;
  }

  method InsertByKey(kvs: seq<KeyValue>, kv: KeyValue) returns (r: seq<KeyValue>)
    requires SortedByKey(kvs)
    ensures SortedByKey(r) && multiset(r) == multiset(kvs) + multiset{kv}
  {
    var k := |kvs|;
    while k > 0 && Less(kv.key, kvs[k - 1].key)
      invariant 0 <= k <= |kvs|
      invariant forall i :: k <= i < |kvs| ==> Less(kv.key, kvs[i].key)
    {
      k := k - 1;
    }
    InsertedByKey(kvs, k, kv);
    r := kvs[..k] + [kv] + kvs[k..];
  }

  lemma InsertedByKey(kvs: seq<KeyValue>, k: nat, kv: KeyValue)
    requires SortedByKey(kvs) && k <= |kvs| && (k > 0 ==> !Less(kv.key, kvs[k - 1].key))
    requires forall i :: k <= i < |kvs| ==> Less(kv.key, kvs[i].key)
    ensures SortedByKey(kvs[..k] + [kv] + kvs[k..])
    ensures multiset(kvs[..k] + [kv] + kvs[k..]) == multiset(kvs) + multiset{kv}
  {
    hide Less, SortedByKey;
    var front, back := kvs[..k], kvs[k..];
    assert kvs == front + back;
    PutBetween(front, kv, back);
    BelowLast(kvs, k, kv);
    Joined(front, kv, back) by {
      forall i | 0 <= i < |back| ensures !Less(back[i].key, kv.key) {
        if Less(back[i].key, kv.key) {
          LessTransitive(kv.key, back[i].key, kv.key);
          LessIrreflexive(kv.key);
        }
      }
    }
  }

  /** What is not above the last of the sorted front is above nothing in it. */
  lemma BelowLast(kvs: seq<KeyValue>, k: nat, kv: KeyValue)
    requires SortedByKey(kvs) && k <= |kvs| && (k > 0 ==> !Less(kv.key, kvs[k - 1].key))
    ensures forall i :: 0 <= i < k ==> !Less(kv.key, kvs[i].key)
  {
    hide Less;
    forall i | 0 <= i < k ensures !Less(kv.key, kvs[i].key) {
      if Less(kv.key, kvs[i].key) && i < k - 1 {
        LessTotal(kvs[i].key, kvs[k - 1].key);
        if kvs[i].key != kvs[k - 1].key { LessTransitive(kv.key, kvs[i].key, kvs[k - 1].key); }
      }
    }
  }

  lemma Joined(front: seq<KeyValue>, kv: KeyValue, back: seq<KeyValue>)
    requires SortedByKey(front + back)
    requires forall i :: 0 <= i < |front| ==> !Less(kv.key, front[i].key)
    requires forall i :: 0 <= i < |back| ==> !Less(back[i].key, kv.key)
    ensures SortedByKey(front + [kv] + back)
  {
    var r, s := front + [kv] + back, front + back;
    forall i, j | 0 <= i < j < |r| ensures !Less(r[j].key, r[i].key) {
      assert i < |front| ==> r[i] == s[i] == front[i];
      assert i > |front| ==> r[i] == s[i - 1] == back[i - |front| - 1];
      assert j < |front| ==> r[j] == s[j] == front[j];
      assert j > |front| ==> r[j] == s[j - 1] == back[j - |front| - 1];
    }
  }

  // ---------------------------------------------------------------- reduce

  /** The first half of `doReduce`: all pairs for this reduce task; a missing file holds none. */
  function Collected(files: Files, nMap: nat, task: nat): seq<KeyValue> {
    if nMap == 0 then []
    else
      var f := FileName(nMap - 1, task);
      Collected(files, nMap - 1, task) + if f in files then files[f] else []
  }

  /** A reduce task finds exactly the pairs of the files that are there; a missing one stops nothing. */
  lemma {:induction false} CollectsExactly(files: Files, nMap: nat, task: nat, kv: KeyValue)
    ensures kv in Collected(files, nMap, task) <==>
            exists m: nat :: m < nMap && FileName(m, task) in files && kv in files[FileName(m, task)]
  {
    if nMap > 0 {
      CollectsExactly(files, nMap - 1, task, kv);
      var f := FileName(nMap - 1, task);
      assert Collected(files, nMap, task) ==
             Collected(files, nMap - 1, task) + if f in files then files[f] else [];
      if m: nat :| m < nMap && FileName(m, task) in files && kv in files[FileName(m, task)] {
        assert m < nMap - 1 || m == nMap - 1;
      }
    }
  }

  method Collect(files: Files, nMap: nat, task: nat) returns (kvs: seq<KeyValue>)
    ensures kvs == Collected(files, nMap, task)
  {
    kvs := [];
    var mi := 0;
    while mi < nMap
      invariant 0 <= mi <= nMap && kvs == Collected(files, mi, task)
    {
      var f := FileName(mi, task);
      if f in files {
        var j := 0;
        var file := files[f];
        ghost var before := kvs;
        while j < |file|
          invariant 0 <= j <= |file| && kvs == before + file[..j]
        {
          assert file[..j + 1] == file[..j] + [file[j]];
          kvs := kvs + [file[j]];
          j := j + 1;
        }
        assert file[..|file|] == file;
      }
      mi := mi + 1;
    }
  }

  /** The values of a run of equal keys. */
  function RunValues(kvs: seq<KeyValue>, i: nat, j: nat): seq<string>
    requires i <= j <= |kvs|
  {
    if i == j then [] else RunValues(kvs, i, j - 1) + [kvs[j - 1].value]
  }

  lemma {:induction false} RunIsValues(kvs: seq<KeyValue>, i: nat, j: nat, key: string)
    requires i <= j <= |kvs| && forall k :: i <= k < j ==> kvs[k].key == key
    ensures multiset(RunValues(kvs, i, j)) == ValuesFor(kvs[i..j], key)
  {
    hide ValuesFor;
    if i < j {
      RunIsValues(kvs, i, j - 1, key);
      var run, last := kvs[i..j - 1], kvs[j - 1];
      assert kvs[i..j] == run + [last];
      ValuesAppend(run, [last], key);
      ValuesOne(last, key);
    } else {
      assert kvs[i..j] == [];
      NoValues([], key);
    }
  }

  lemma {:induction false} NoValues(kvs: seq<KeyValue>, key: string)
    requires forall k :: 0 <= k < |kvs| ==> kvs[k].key != key
    ensures ValuesFor(kvs, key) == multiset{}
  {
    if kvs != [] { NoValues(kvs[..|kvs| - 1], key); }
  }

  /** The loop of `doReduce` over runs of equal keys has written the reductions of the first `i` pairs. */
  ghost predicate ReducedUpTo(kvs: seq<KeyValue>, i: nat, reduceF: ReduceF, out: seq<KeyValue>)
    requires i <= |kvs|
  {
    && Increasing(out)
    && (forall key :: HasKey(out, key) <==> HasKey(kvs[..i], key))
    && (forall o :: 0 <= o < |out| ==> IsReduction(kvs, reduceF, out[o].key, out[o].value))
    && forall o, k :: 0 <= o < |out| && i <= k < |kvs| ==> Less(out[o].key, kvs[k].key)
  }

  /** The values of a run that is bounded on both sides by other keys are all the values of its key. */
  lemma {:induction false} WholeRun(kvs: seq<KeyValue>, i: nat, j: nat, key: string)
    requires i <= j <= |kvs| && forall k :: i <= k < j ==> kvs[k].key == key
    requires forall k :: 0 <= k < i ==> kvs[k].key != key
    requires forall k :: j <= k < |kvs| ==> kvs[k].key != key
    ensures multiset(RunValues(kvs, i, j)) == ValuesFor(kvs, key)
  {
    hide ValuesFor;
    assert kvs == kvs[..i] + kvs[i..j] + kvs[j..];
    ValuesAppend(kvs[..i] + kvs[i..j], kvs[j..], key);
    ValuesAppend(kvs[..i], kvs[i..j], key);
    NoValues(kvs[..i], key);
    NoValues(kvs[j..], key);
    RunIsValues(kvs, i, j, key);
  }

  /** In a sorted list the pairs after a run of equal keys have greater keys. */
  lemma AfterRun(kvs: seq<KeyValue>, i: nat, j: nat)
    requires SortedByKey(kvs) && i < j <= |kvs| && (j < |kvs| ==> kvs[j].key != kvs[i].key)
    ensures forall k :: j <= k < |kvs| ==> Less(kvs[i].key, kvs[k].key)
  {
    forall k | j <= k < |kvs| ensures Less(kvs[i].key, kvs[k].key) {
      LessTotal(kvs[i].key, kvs[j].key);
      if k > j {
        LessTotal(kvs[j].key, kvs[k].key);
        if kvs[j].key != kvs[k].key { LessTransitive(kvs[i].key, kvs[j].key, kvs[k].key); }
      }
    }
  }

  lemma {:induction false} RunReduced(kvs: seq<KeyValue>, i: nat, j: nat, reduceF: ReduceF, out: seq<KeyValue>)
    requires SortedByKey(kvs) && i < j <= |kvs| && ReducedUpTo(kvs, i, reduceF, out)
    requires forall k :: i <= k < j ==> kvs[k].key == kvs[i].key
    requires j < |kvs| ==> kvs[j].key != kvs[i].key
    ensures ReducedUpTo(kvs, j, reduceF, out + [KeyValue(kvs[i].key, reduceF(kvs[i].key, RunValues(kvs, i, j)))])
  {
    hide IsReduction, HasKey, RunValues, Less;
    var key, vals := kvs[i].key, RunValues(kvs, i, j);
    var kv := KeyValue(key, reduceF(key, vals));
    var out' := out + [kv];
    AfterRun(kvs, i, j);
    LessIrreflexive(key);
    forall k | 0 <= k < i ensures kvs[k].key != key {
      if kvs[k].key == key { EarlierInOut(kvs, i, reduceF, out, k); }
    }
    WholeRun(kvs, i, j, key);
    RunIsReduction(kvs, reduceF, key, vals);
    forall x ensures HasKey(out', x) <==> HasKey(kvs[..j], x) {
      NextKeys(kvs, i, j, out, kv, x);
    }
  }

  lemma NextKeys(kvs: seq<KeyValue>, i: nat, j: nat, out: seq<KeyValue>, kv: KeyValue, x: string)
    requires i < j <= |kvs| && kv.key == kvs[i].key && (HasKey(out, x) <==> HasKey(kvs[..i], x))
    requires forall k :: i <= k < j ==> kvs[k].key == kvs[i].key
    ensures HasKey(out + [kv], x) <==> HasKey(kvs[..j], x)
  {
    hide HasKey;
    HasKeyAppend(out, [kv], x);
    KeyOne(kv, x);
    assert kvs[..j] == kvs[..i] + kvs[i..j];
    HasKeyAppend(kvs[..i], kvs[i..j], x);
    RunKey(kvs, i, j, x);
  }

  lemma {:induction false} RunIsReduction(kvs: seq<KeyValue>, reduceF: ReduceF, key: string, vals: seq<string>)
    requires multiset(vals) == ValuesFor(kvs, key)
    ensures IsReduction(kvs, reduceF, key, reduceF(key, vals))
  {
  }

  lemma EarlierInOut(kvs: seq<KeyValue>, i: nat, reduceF: ReduceF, out: seq<KeyValue>, k: nat)
    requires i < |kvs| && ReducedUpTo(kvs, i, reduceF, out) && k < i
    ensures Less(kvs[k].key, kvs[i].key)
  {
    assert kvs[..i][k].key == kvs[k].key;
    assert HasKey(kvs[..i], kvs[k].key) && HasKey(out, kvs[k].key);
    var o :| 0 <= o < |out| && out[o].key == kvs[k].key;
  }

  lemma RunKey(kvs: seq<KeyValue>, i: nat, j: nat, x: string)
    requires i < j <= |kvs| && forall k :: i <= k < j ==> kvs[k].key == kvs[i].key
    ensures HasKey(kvs[i..j], x) <==> x == kvs[i].key
  {
    assert kvs[i..j][0] == kvs[i];
    assert forall k :: 0 <= k < j - i ==> kvs[i..j][k] == kvs[i + k];
  }

  /** `doReduce`: whatever order the sort leaves equal keys in, the output holds the reductions of
      exactly the collected pairs. */
  method DoReduce(files: Files, nMap: nat, task: nat, reduceF: ReduceF) returns (out: seq<KeyValue>)
    ensures Reduces(Collected(files, nMap, task), reduceF, out)
  {
    var collected := Collect(files, nMap, task);
    var kvs := SortByKey(collected);
    out := [];
    var i := 0;
    while i < |kvs|
      invariant 0 <= i <= |kvs| && ReducedUpTo(kvs, i, reduceF, out)
    {
      var j := i + 1;
      while j < |kvs| && kvs[j].key == kvs[i].key
        invariant i < j <= |kvs| && forall k :: i <= k < j ==> kvs[k].key == kvs[i].key
      {
        j := j + 1;
      }
      var vals := [];
      var k := i;
      while k < j
        invariant i <= k <= j && vals == RunValues(kvs, i, k)
      {
        vals := vals + [kvs[k].value];
        k := k + 1;
      }
      RunReduced(kvs, i, j, reduceF, out);
      out := out + [KeyValue(kvs[i].key, reduceF(kvs[i].key, vals))];
      i := j;
    }
    assert kvs[..|kvs|] == kvs;
    Reordered(collected, kvs, reduceF, out);
  }

  lemma Reordered(a: seq<KeyValue>, b: seq<KeyValue>, reduceF: ReduceF, out: seq<KeyValue>)
    requires multiset(a) == multiset(b) && Reduces(b, reduceF, out)
    ensures Reduces(a, reduceF, out)
  {
    forall key ensures HasKey(a, key) <==> HasKey(b, key) {
      if HasKey(a, key) { ReorderedKeys(a, b, key); }
      if HasKey(b, key) { ReorderedKeys(b, a, key); }
    }
    forall key ensures ValuesFor(a, key) == ValuesFor(b, key) {
      ReorderedValues(a, b, key);
    }
    forall i | 0 <= i < |out| ensures IsReduction(a, reduceF, out[i].key, out[i].value) {
      assert IsReduction(b, reduceF, out[i].key, out[i].value);
      assert ValuesFor(a, out[i].key) == ValuesFor(b, out[i].key);
    }
  }

  // ---------------------------------------------------------------- merge

  method Load(outs: seq<seq<KeyValue>>) returns (m: map<string, string>)
    ensures m == Loaded(outs, |outs|)
  {
    m := map[];
    var i := 0;
    while i < |outs|
      invariant 0 <= i <= |outs| && m == Loaded(outs, i)
    {
      var out := outs[i];
      ghost var before := m;
      var j := 0;
      while j < |out|
        invariant 0 <= j <= |out| && m == LoadedFrom(before, out[..j])
      {
        assert out[..j + 1][..j] == out[..j];
        m := m[out[j].key := out[j].value];
        j := j + 1;
      }
      assert out[..|out|] == out;
      i := i + 1;
    }
  }

  /** The keys of the map in whatever order it yields them. */
  method Entries(m: map<string, string>) returns (kvs: seq<KeyValue>)
    ensures forall key :: HasKey(kvs, key) <==> key in m
    ensures forall i :: 0 <= i < |kvs| ==> kvs[i].key in m && kvs[i].value == m[kvs[i].key]
    ensures forall i, j :: 0 <= i < j < |kvs| ==> kvs[i].key != kvs[j].key
  {
    kvs := [];
    var rest := m.Keys;
    while rest != {}
      invariant rest <= m.Keys
      invariant forall key :: HasKey(kvs, key) <==> key in m.Keys - rest
      invariant forall i :: 0 <= i < |kvs| ==> kvs[i].key in m.Keys - rest && kvs[i].value == m[kvs[i].key]
      invariant forall i, j :: 0 <= i < j < |kvs| ==> kvs[i].key != kvs[j].key
    {
      var key :| key in rest;
      ghost var before := kvs;
      kvs := kvs + [KeyValue(key, m[key])];
      forall x ensures HasKey(kvs, x) <==> x in m.Keys - (rest - {key}) {
        HasKeyAppend(before, [KeyValue(key, m[key])], x);
        KeyOne(KeyValue(key, m[key]), x);
      }
      rest := rest - {key};
    }
  }

  lemma SortedEntries(kvs: seq<KeyValue>, sorted: seq<KeyValue>, m: map<string, string>)
    requires SortedByKey(sorted) && multiset(sorted) == multiset(kvs)
    requires forall key :: HasKey(kvs, key) <==> key in m
    requires forall i :: 0 <= i < |kvs| ==> kvs[i].key in m && kvs[i].value == m[kvs[i].key]
    requires forall i, j :: 0 <= i < j < |kvs| ==> kvs[i].key != kvs[j].key
    ensures Merges(m, sorted)
  {
    forall key ensures HasKey(sorted, key) <==> key in m {
      if HasKey(sorted, key) { ReorderedKeys(sorted, kvs, key); }
      if HasKey(kvs, key) { ReorderedKeys(kvs, sorted, key); }
    }
    forall i | 0 <= i < |sorted| ensures sorted[i].key in m && sorted[i].value == m[sorted[i].key] {
      assert sorted[i] in multiset(kvs) && sorted[i] in kvs;
    }
    forall i, j | 0 <= i < j < |sorted| ensures Less(sorted[i].key, sorted[j].key) {
      if sorted[i].key == sorted[j].key {
        assert sorted[i] in multiset(kvs) && sorted[i] in kvs;
        assert sorted[i] == sorted[j];
        Twice(sorted, i, j);
        Single(kvs, sorted[i]);
      }
      LessTotal(sorted[i].key, sorted[j].key);
    }
  }

  lemma {:induction false} Single(s: seq<KeyValue>, x: KeyValue)
    requires forall i, j :: 0 <= i < j < |s| ==> s[i].key != s[j].key
    ensures multiset(s)[x] <= 1
  {
    if s != [] {
      var rest, last := s[..|s| - 1], s[|s| - 1];
      Single(rest, x);
      assert s == rest + [last];
      if last == x {
        assert x !in rest;
        assert x !in multiset(rest);
      }
    }
  }

  /** `merge`. */
  method Merge(outs: seq<seq<KeyValue>>) returns (merged: seq<KeyValue>)
    ensures Merges(Loaded(outs, |outs|), merged)
  {
    var m := Load(outs);
    var kvs := Entries(m);
    merged := SortByKey(kvs);
    SortedEntries(kvs, merged, m);
  }

  // ---------------------------------------------------------------- the whole job

  /** All map tasks have written their files. */
  ghost predicate Mapped(files: Files, inputs: seq<Input>, n: nat, nReduce: nat, mapF: MapF, hash: Hash)
    requires n <= |inputs| && nReduce > 0
  {
    forall m: nat, r: nat :: m < n && r < nReduce ==>
      FileName(m, r) in files
      && files[FileName(m, r)] == Part(mapF(inputs[m].name, inputs[m].contents), hash, nReduce, r)
  }

  /** A reduce task collects exactly its partition of everything that was emitted. */
  lemma {:induction false} CollectedIsPart(files: Files, inputs: seq<Input>, n: nat, nReduce: nat, mapF: MapF,
                                           hash: Hash, r: nat)
    requires n <= |inputs| && r < nReduce && Mapped(files, inputs, n, nReduce, mapF, hash)
    ensures Collected(files, n, r) == Part(Emitted(inputs, mapF, n), hash, nReduce, r)
  {
    hide Part;
    if n > 0 {
      CollectedIsPart(files, inputs, n - 1, nReduce, mapF, hash, r);
      PartAppend(Emitted(inputs, mapF, n - 1), mapF(inputs[n - 1].name, inputs[n - 1].contents), hash, nReduce, r);
    } else {
      NoPart(hash, nReduce, r);
    }
  }

  lemma {:induction false} NoPart(hash: Hash, nReduce: nat, r: nat)
    requires nReduce > 0
    ensures Part([], hash, nReduce, r) == []
  {
  }

  /** The map phase: every map task, one after the other. */
  method MapPhase(inputs: seq<Input>, nReduce: nat, mapF: MapF, hash: Hash) returns (files: Files)
    requires nReduce > 0
    ensures Mapped(files, inputs, |inputs|, nReduce, mapF, hash)
  {
    hide Part;
    files := map[];
    var m := 0;
    while m < |inputs|
      invariant 0 <= m <= |inputs| && Mapped(files, inputs, m, nReduce, mapF, hash)
    {
      files := DoMap(files, m, inputs[m], nReduce, mapF, hash);
      m := m + 1;
    }
  }

  /** The reduce phase: every reduce task, one after the other. */
  method ReducePhase(files: Files, inputs: seq<Input>, nReduce: nat, mapF: MapF, reduceF: ReduceF, hash: Hash)
    returns (outs: seq<seq<KeyValue>>)
    requires nReduce > 0 && Mapped(files, inputs, |inputs|, nReduce, mapF, hash)
    ensures |outs| == nReduce && OutputsOK(AllEmitted(inputs, mapF), hash, nReduce, reduceF, outs, nReduce)
  {
    hide Reduces, Part, Mapped, Emitted;
    outs := [];
    var r := 0;
    while r < nReduce
      invariant 0 <= r <= nReduce && |outs| == r
      invariant OutputsOK(AllEmitted(inputs, mapF), hash, nReduce, reduceF, outs, r)
    {
      CollectedIsPart(files, inputs, |inputs|, nReduce, mapF, hash, r);
      var out := DoReduce(files, |inputs|, r, reduceF);
      outs := outs + [out];
      r := r + 1;
    }
  }

  /** `Sequential`: all map tasks, all reduce tasks, merge. */
  method Sequential(inputs: seq<Input>, nReduce: nat, mapF: MapF, reduceF: ReduceF, hash: Hash)
    returns (merged: seq<KeyValue>)
    requires nReduce > 0
    ensures Reduces(AllEmitted(inputs, mapF), reduceF, merged)
  {
    hide Reduces, OutputsOK, Merges, Mapped;
    var files := MapPhase(inputs, nReduce, mapF, hash);
    var outs := ReducePhase(files, inputs, nReduce, mapF, reduceF, hash);
    merged := Merge(outs);
    EndToEnd(AllEmitted(inputs, mapF), hash, nReduce, reduceF, outs, merged);
  }
}
