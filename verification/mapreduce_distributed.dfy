/** The distributed job: the scheduler of src/mapreduce/schedule.go together with what its workers do to
    files. A call that failed may have done nothing, part or all of its task, and may still be at work
    when the task is given to another worker. */
module MapReduceDistributed {
  import opened MapReduceSpec
  import opened MapReduceTasks
  import Schedule = MapReduceSchedule

  datatype File = Intermediate(name: FileName) | Output(task: nat)

  /** `os.Create`, which empties a file, and one `Encode`, which writes a pair where its writer stands. */
  datatype FileOp = Create(file: File) | Write(file: File, at: nat, kv: KeyValue)

  /** The pairs that were written since the file was created; an offset without one is a hole. */
  type Content = map<int, KeyValue>

  /** The tasks of one phase: what each does, one operation after the other, and what its files should
      hold in the end. */
  datatype Plan = Plan(tasks: nat, script: nat -> seq<FileOp>, owner: File -> nat, goal: File -> seq<KeyValue>)

  /** One execution of a task by a worker, after `done` operations. */
  datatype Attempt = Attempt(task: nat, done: nat)

  /** Which attempt created a file last, with which of its operations. */
  datatype Maker = Maker(attempt: nat, at: nat)

  datatype Job = Job(
    master: Schedule.Master,
    files: map<File, Content>,
    makers: map<File, Maker>,
    attempts: seq<Attempt>,
    current: map<nat, nat>) // the attempt that the last call of a task started

  datatype Event =
    | Register(w: Schedule.Worker)
    | Take(t: nat, w: Schedule.Worker)
    | Work(a: nat)
    | Answer(t: nat, ok: bool)

  function Start(master: Schedule.Master): Job {
    Job(master, map[], map[], [], map[])
  }

  function Script(p: Plan, j: Job, a: nat): seq<FileOp>
    requires a < |j.attempts|
  {
    p.script(j.attempts[a].task)
  }

  predicate Complete(p: Plan, j: Job, a: nat) {
    a < |j.attempts| && j.attempts[a].done == |Script(p, j, a)|
  }

  predicate Possible(p: Plan, j: Job, e: Event) {
    match e
    case Register(_) => true
    case Take(t, w) => Schedule.Possible(j.master, Schedule.Take(t, w))
    case Work(a) => a < |j.attempts| && j.attempts[a].done < |Script(p, j, a)|
    case Answer(t, ok) =>
      Schedule.Possible(j.master, Schedule.Answer(t, ok)) && (ok ==> t in j.current && Complete(p, j, j.current[t]))
  }

  function Do(p: Plan, j: Job, e: Event): Job
    requires Possible(p, j, e)
  {
    match e
    case Register(w) => j.(master := Schedule.Do(j.master, Schedule.Register(w)))
    case Take(t, w) =>
      j.(master := Schedule.Do(j.master, Schedule.Take(t, w)),
         attempts := j.attempts + [Attempt(t, 0)],
         current := j.current[t := |j.attempts|])
    case Work(a) => Perform(p, j, a)
    case Answer(t, ok) => j.(master := Schedule.Do(j.master, Schedule.Answer(t, ok)))
  }

  /** The next operation of attempt `a`. */
  function Perform(p: Plan, j: Job, a: nat): Job
    requires a < |j.attempts| && j.attempts[a].done < |Script(p, j, a)|
  {
    var q := j.attempts[a].done;
    var attempts := j.attempts[a := j.attempts[a].(done := q + 1)];
    match Script(p, j, a)[q]
    case Create(f) => j.(files := j.files[f := map[]], makers := j.makers[f := Maker(a, q)], attempts := attempts)
    case Write(f, at, kv) =>
      if f in j.files then j.(files := j.files[f := j.files[f][at := kv]], attempts := attempts)
      else j.(attempts := attempts)
  }

  /** A worker whose call has failed, or been answered, has stopped. */
  predicate Tidy(j: Job, e: Event) {
    e.Work? && e.a < |j.attempts| ==>
      var t := j.attempts[e.a].task;
      t < |j.master.tasks| && j.master.tasks[t].Calling? && t in j.current && j.current[t] == e.a
  }

  ghost predicate IsRun(p: Plan, master: Schedule.Master, jobs: seq<Job>, events: seq<Event>) {
    && |jobs| == |events| + 1
    && jobs[0] == Start(master)
    && forall k {:trigger events[k]} :: 0 <= k < |events| ==>
         Possible(p, jobs[k], events[k]) && jobs[k + 1] == Do(p, jobs[k], events[k])
  }

  ghost predicate IsTidyRun(p: Plan, master: Schedule.Master, jobs: seq<Job>, events: seq<Event>) {
    IsRun(p, master, jobs, events) && forall k {:trigger events[k]} :: 0 <= k < |events| ==> Tidy(jobs[k], events[k])
  }

  // ---------------------------------------------------------------- plans

  /** A task only touches its own files, and only writes what they should hold. */
  ghost predicate OpOK(p: Plan, t: nat, op: FileOp) {
    p.owner(op.file) == t && (op.Write? ==> op.at < |p.goal(op.file)| && op.kv == p.goal(op.file)[op.at])
  }

  /** A file that the script creates with operation `q` is created only once, and written completely after. */
  ghost predicate CreateOK(p: Plan, t: nat, q: nat)
    requires q < |p.script(t)| && p.script(t)[q].Create?
  {
    var s, f := p.script(t), p.script(t)[q].file;
    && (forall i :: 0 <= i < |s| && s[i] == Create(f) ==> i == q)
    && forall o: nat :: o < |p.goal(f)| ==> WritesAfter(s, q, f, o)
  }

  ghost predicate WritesAfter(s: seq<FileOp>, q: nat, f: File, o: nat) {
    exists i :: q < i < |s| && s[i].Write? && s[i].file == f && s[i].at == o
  }

  ghost predicate PlanOK(p: Plan) {
    && (forall t: nat, q: nat :: t < p.tasks && q < |p.script(t)| ==> OpOK(p, t, p.script(t)[q]))
    && (forall t: nat, q: nat :: t < p.tasks && q < |p.script(t)| && p.script(t)[q].Create? ==> CreateOK(p, t, q))
  }

  function Whole(g: seq<KeyValue>): Content {
    map o | 0 <= o < |g| :: g[o]
  }

  /** Every file that a task should make is there with what it should hold. */
  ghost predicate AllWhole(p: Plan, j: Job) {
    forall t: nat, q: nat :: t < p.tasks && q < |p.script(t)| && p.script(t)[q].Create? ==>
      var f := p.script(t)[q].file; f in j.files && j.files[f] == Whole(p.goal(f))
  }

  // ---------------------------------------------------------------- any run

  ghost predicate ContentOK(p: Plan, j: Job, f: File)
    requires f in j.files
  {
    forall o :: o in j.files[f] ==> 0 <= o < |p.goal(f)| && j.files[f][o] == p.goal(f)[o]
  }

  /** The file holds all that its maker has written since it created it. */
  ghost predicate MakerOK(p: Plan, j: Job, f: File)
    requires f in j.files
  {
    && f in j.makers && j.makers[f].attempt < |j.attempts|
    && var a, q := j.makers[f].attempt, j.makers[f].at;
    var s := Script(p, j, a);
    && q < j.attempts[a].done <= |s| && s[q] == Create(f)
    && forall i :: q < i < j.attempts[a].done && s[i].Write? && s[i].file == f ==> s[i].at in j.files[f]
  }

  /** Whatever an attempt has created is there. */
  ghost predicate AttemptOK(p: Plan, j: Job, a: nat)
    requires a < |j.attempts|
  {
    && j.attempts[a].task < p.tasks && j.attempts[a].done <= |Script(p, j, a)|
    && forall i :: 0 <= i < j.attempts[a].done && Script(p, j, a)[i].Create? ==> Script(p, j, a)[i].file in j.files
  }

  /** The last call of a task is that of its current attempt. */
  ghost predicate CurrentOK(p: Plan, j: Job, t: nat)
    requires t < |j.master.tasks|
  {
    && (t in j.current ==> j.current[t] < |j.attempts| && j.attempts[j.current[t]].task == t)
    && (j.master.tasks[t].Done? ==> t in j.current && Complete(p, j, j.current[t]))
  }

  ghost predicate Inv(p: Plan, j: Job) {
    && Schedule.Inv(j.master) && |j.master.tasks| == p.tasks
    && (forall f :: f in j.files ==> ContentOK(p, j, f))
    && (forall f :: f in j.files ==> MakerOK(p, j, f))
    && (forall a: nat :: a < |j.attempts| ==> AttemptOK(p, j, a))
    && (forall t: nat :: t < |j.master.tasks| ==> CurrentOK(p, j, t))
  }

  lemma WorkKeepsFiles(p: Plan, j: Job, a: nat)
    requires PlanOK(p) && Inv(p, j) && Possible(p, j, Work(a))
    ensures forall f :: f in Perform(p, j, a).files ==> ContentOK(p, Perform(p, j, a), f)
    ensures forall f :: f in Perform(p, j, a).files ==> MakerOK(p, Perform(p, j, a), f)
  {
    hide CreateOK, CurrentOK, ContentOK, MakerOK, Schedule.Inv;
    assert AttemptOK(p, j, a);
    assert OpOK(p, j.attempts[a].task, Script(p, j, a)[j.attempts[a].done]);
    forall f | f in Perform(p, j, a).files
      ensures ContentOK(p, Perform(p, j, a), f) && MakerOK(p, Perform(p, j, a), f)
    {
      WorkKeepsContent(p, j, a, f);
      WorkKeepsMaker(p, j, a, f);
    }
  }

  lemma WorkKeepsContent(p: Plan, j: Job, a: nat, f: File)
    requires Possible(p, j, Work(a)) && OpOK(p, j.attempts[a].task, Script(p, j, a)[j.attempts[a].done])
    requires (f in j.files ==> ContentOK(p, j, f)) && f in Perform(p, j, a).files
    ensures ContentOK(p, Perform(p, j, a), f)
  {
  }

  lemma WorkKeepsMaker(p: Plan, j: Job, a: nat, f: File)
    requires Possible(p, j, Work(a)) && (f in j.files ==> MakerOK(p, j, f)) && f in Perform(p, j, a).files
    ensures MakerOK(p, Perform(p, j, a), f)
  {
  }

  lemma WorkKeepsAttempts(p: Plan, j: Job, a: nat)
    requires Inv(p, j) && Possible(p, j, Work(a))
    ensures forall b: nat :: b < |Perform(p, j, a).attempts| ==> AttemptOK(p, Perform(p, j, a), b)
    ensures forall t: nat :: t < |Perform(p, j, a).master.tasks| ==> CurrentOK(p, Perform(p, j, a), t)
  {
    hide ContentOK, MakerOK, Schedule.Inv;
    var j' := Perform(p, j, a);
    forall b: nat | b < |j'.attempts| ensures AttemptOK(p, j', b) {
      assert AttemptOK(p, j, b);
    }
    forall t: nat | t < |j'.master.tasks| ensures CurrentOK(p, j', t) {
      assert CurrentOK(p, j, t);
    }
  }

  lemma CallKeepsInv(p: Plan, j: Job, e: Event)
    requires Inv(p, j) && Possible(p, j, e) && !e.Work?
    ensures Inv(p, Do(p, j, e))
  {
    hide Schedule.Inv;
    var j' := Do(p, j, e);
    match e {
      case Register(w) => Schedule.EventKeepsInv(j.master, Schedule.Register(w));
      case Take(t, w) => Schedule.EventKeepsInv(j.master, Schedule.Take(t, w));
      case Answer(t, ok) => Schedule.EventKeepsInv(j.master, Schedule.Answer(t, ok));
    }
    forall f | f in j'.files ensures ContentOK(p, j', f) && MakerOK(p, j', f) {
      assert ContentOK(p, j, f) && MakerOK(p, j, f);
    }
    forall a: nat | a < |j'.attempts| ensures AttemptOK(p, j', a) {
      if a < |j.attempts| { assert AttemptOK(p, j, a); }
    }
    forall t: nat | t < |j'.master.tasks| ensures CurrentOK(p, j', t) {
      assert CurrentOK(p, j, t);
    }
  }

  lemma EventKeepsInv(p: Plan, j: Job, e: Event)
    requires PlanOK(p) && Inv(p, j) && Possible(p, j, e)
    ensures Inv(p, Do(p, j, e))
  {
    hide PlanOK, ContentOK, MakerOK, AttemptOK, CurrentOK, Schedule.Inv;
    if e.Work? {
      WorkKeepsFiles(p, j, e.a);
      WorkKeepsAttempts(p, j, e.a);
      SameMaster(p, j, e.a);
    } else {
      CallKeepsInv(p, j, e);
    }
  }

  lemma SameMaster(p: Plan, j: Job, a: nat)
    requires Possible(p, j, Work(a))
    ensures Perform(p, j, a).master == j.master
  {
  }

  lemma {:induction false} RunInv(p: Plan, master: Schedule.Master, jobs: seq<Job>, events: seq<Event>, k: nat)
    requires PlanOK(p) && Schedule.Inv(master) && |master.tasks| == p.tasks
    requires (forall t :: 0 <= t < |master.tasks| ==> master.tasks[t] == Schedule.Idle)
    requires IsRun(p, master, jobs, events) && k < |jobs|
    ensures Inv(p, jobs[k])
  {
    hide PlanOK, Possible, Do, Schedule.Inv;
    if k > 0 {
      hide Inv;
      RunInv(p, master, jobs, events, k - 1);
      assert jobs[k - 1 + 1] == Do(p, jobs[k - 1], events[k - 1]);
      EventKeepsInv(p, jobs[k - 1], events[k - 1]);
    }
  }

  /** A file whose last creator has finished is whole, whatever other attempts at its task have written
      in the meantime. */
  lemma FinishedIsWhole(p: Plan, j: Job, f: File)
    requires PlanOK(p) && Inv(p, j) && f in j.files && f in j.makers && Complete(p, j, j.makers[f].attempt)
    ensures j.files[f] == Whole(p.goal(f))
  {
    hide Schedule.Inv, CurrentOK, OpOK;
    assert ContentOK(p, j, f) && MakerOK(p, j, f);
    var a, q := j.makers[f].attempt, j.makers[f].at;
    assert AttemptOK(p, j, a) && CreateOK(p, j.attempts[a].task, q);
    forall o: nat | o < |p.goal(f)| ensures o in j.files[f] {
      var s := Script(p, j, a);
      assert WritesAfter(s, q, f, o);
      var i :| q < i < |s| && s[i].Write? && s[i].file == f && s[i].at == o;
    }
  }

  // ---------------------------------------------------------------- when schedule returns

  /** Every file was created last by an attempt that has finished. */
  ghost predicate MakersDone(p: Plan, j: Job) {
    forall f :: f in j.files && f in j.makers ==> Complete(p, j, j.makers[f].attempt)
  }

  /** When `schedule` returns, all files are whole if nobody who created one of them is still at work, or
      died over it. */
  lemma ReturnedIsWhole(p: Plan, j: Job)
    requires PlanOK(p) && Inv(p, j) && Schedule.Returns(j.master) && MakersDone(p, j)
    ensures AllWhole(p, j)
  {
    hide PlanOK, ContentOK;
    forall t: nat, q: nat | t < p.tasks && q < |p.script(t)| && p.script(t)[q].Create?
      ensures var f := p.script(t)[q].file; f in j.files && j.files[f] == Whole(p.goal(f))
    {
      Schedule.UnfinishedZero(j.master.tasks, t);
      assert CurrentOK(p, j, t) && AttemptOK(p, j, j.current[t]);
      assert MakerOK(p, j, p.script(t)[q].file);
      FinishedIsWhole(p, j, p.script(t)[q].file);
    }
  }

  /** In a tidy run what the current attempt of a task created is its own. */
  ghost predicate OwnFiles(p: Plan, j: Job, t: nat) {
    t in j.current && j.current[t] < |j.attempts| ==>
      var a := j.current[t];
      forall i :: 0 <= i < j.attempts[a].done && i < |p.script(t)| && p.script(t)[i].Create? ==>
        var f := p.script(t)[i].file; f in j.makers && j.makers[f].attempt == a
  }

  ghost predicate TidyInv(p: Plan, j: Job) {
    forall t: nat :: t < p.tasks ==> OwnFiles(p, j, t)
  }

  lemma TidyEventKeeps(p: Plan, j: Job, e: Event)
    requires PlanOK(p) && Inv(p, j) && TidyInv(p, j) && Possible(p, j, e) && Tidy(j, e)
    ensures TidyInv(p, Do(p, j, e))
  {
    hide CreateOK, ContentOK, MakerOK, Schedule.Inv;
    var j' := Do(p, j, e);
    forall t: nat | t < p.tasks ensures OwnFiles(p, j', t) {
      assert OwnFiles(p, j, t) && CurrentOK(p, j, t);
      if e.Work? {
        assert AttemptOK(p, j, e.a);
        var u, q := j.attempts[e.a].task, j.attempts[e.a].done;
        assert OpOK(p, u, p.script(u)[q]);
        assert forall i: nat :: i < |p.script(t)| ==> OpOK(p, t, p.script(t)[i]);
      }
    }
  }

  lemma {:induction false} TidyRunInv(p: Plan, master: Schedule.Master, jobs: seq<Job>, events: seq<Event>, k: nat)
    requires PlanOK(p) && Schedule.Inv(master) && |master.tasks| == p.tasks
    requires (forall t :: 0 <= t < |master.tasks| ==> master.tasks[t] == Schedule.Idle)
    requires IsTidyRun(p, master, jobs, events) && k < |jobs|
    ensures Inv(p, jobs[k]) && TidyInv(p, jobs[k])
  {
    hide PlanOK, Possible, Do, Tidy, Schedule.Inv, Inv;
    RunInv(p, master, jobs, events, k);
    if k > 0 {
      TidyRunInv(p, master, jobs, events, k - 1);
      assert jobs[k - 1 + 1] == Do(p, jobs[k - 1], events[k - 1]);
      assert Tidy(jobs[k - 1], events[k - 1]);
      TidyEventKeeps(p, jobs[k - 1], events[k - 1]);
    }
  }

  /** If workers stop when their calls fail, every last creator has finished when `schedule` returns,
      however often tasks were tried and however much of each try was done. */
  lemma TidyMakersDone(p: Plan, j: Job)
    requires PlanOK(p) && Inv(p, j) && TidyInv(p, j) && Schedule.Returns(j.master)
    ensures MakersDone(p, j)
  {
    hide PlanOK, ContentOK, Schedule.Inv;
    forall f | f in j.files && f in j.makers ensures Complete(p, j, j.makers[f].attempt) {
      assert MakerOK(p, j, f) && AttemptOK(p, j, j.makers[f].attempt);
      var t := j.attempts[j.makers[f].attempt].task;
      TaskDone(p, j, t);
      assert CurrentOK(p, j, t) && OwnFiles(p, j, t);
      assert p.script(t)[j.makers[f].at] == Create(f);
    }
  }

  lemma TidyIsWhole(p: Plan, j: Job)
    requires PlanOK(p) && Inv(p, j) && TidyInv(p, j) && Schedule.Returns(j.master)
    ensures AllWhole(p, j)
  {
    hide PlanOK, Inv, TidyInv, MakersDone, AllWhole;
    TidyMakersDone(p, j);
    ReturnedIsWhole(p, j);
  }

  lemma TaskDone(p: Plan, j: Job, t: nat)
    requires Inv(p, j) && Schedule.Returns(j.master) && t < p.tasks
    ensures j.master.tasks[t].Done?
  {
    hide ContentOK, MakerOK, AttemptOK, CurrentOK;
    Schedule.UnfinishedZero(j.master.tasks, t);
  }

  // ---------------------------------------------------------------- after schedule has returned

  /** The next operation of attempt `a` empties a file that should not be empty. */
  predicate Recreates(p: Plan, j: Job, a: nat)
    requires a < |j.attempts| && j.attempts[a].done < |Script(p, j, a)|
  {
    var op := Script(p, j, a)[j.attempts[a].done];
    op.Create? && p.goal(op.file) != []
  }

  /** Exactly what a worker that is still at work must not do: while all files are whole, an operation
      leaves them whole if and only if it does not create one again that should hold something. */
  lemma WorkKeepsWholeExactly(p: Plan, j: Job, a: nat)
    requires PlanOK(p) && Inv(p, j) && AllWhole(p, j) && Possible(p, j, Work(a))
    ensures AllWhole(p, Perform(p, j, a)) <==> !Recreates(p, j, a)
  {
    hide CreateOK, ContentOK, MakerOK, CurrentOK, Schedule.Inv;
    assert AttemptOK(p, j, a);
    var j', t, q := Perform(p, j, a), j.attempts[a].task, j.attempts[a].done;
    var op := p.script(t)[q];
    assert OpOK(p, t, op);
    if op.Create? {
      assert j'.files[op.file] == map[];
      if p.goal(op.file) != [] { assert 0 in Whole(p.goal(op.file)); }
    } else if op.file in j.files {
      WrittenIsWhole(p, j, a, op);
    }
  }

  /** Writing a pair again changes nothing in a file that is whole. */
  lemma WrittenIsWhole(p: Plan, j: Job, a: nat, op: FileOp)
    requires op.Write? && op.file in j.files && OpOK(p, p.owner(op.file), op)
    ensures j.files[op.file] == Whole(p.goal(op.file)) ==> j.files[op.file][op.at := op.kv] == j.files[op.file]
  {
  }

  /** Calls and answers touch no file. */
  lemma CallKeepsWhole(p: Plan, j: Job, e: Event)
    requires Possible(p, j, e) && !e.Work?
    ensures AllWhole(p, Do(p, j, e)) <==> AllWhole(p, j)
  {
    hide Schedule.Do, Schedule.Possible;
  }

  /** No event from number `k` on creates a file again that should hold something. */
  ghost predicate LeftAlone(p: Plan, jobs: seq<Job>, events: seq<Event>, k: nat, l: nat)
    requires l <= |events| < |jobs|
  {
    forall i {:trigger events[i]} :: k <= i < l ==> !Empties(p, jobs[i], events[i])
  }

  predicate Empties(p: Plan, j: Job, e: Event) {
    e.Work? && e.a < |j.attempts| && j.attempts[e.a].done < |Script(p, j, e.a)| && Recreates(p, j, e.a)
  }

  lemma EventKeepsWholeExactly(p: Plan, j: Job, e: Event)
    requires PlanOK(p) && Inv(p, j) && AllWhole(p, j) && Possible(p, j, e)
    ensures AllWhole(p, Do(p, j, e)) <==> !Empties(p, j, e)
  {
    hide PlanOK, Inv, AllWhole, Recreates;
    if e.Work? { WorkKeepsWholeExactly(p, j, e.a); } else { CallKeepsWhole(p, j, e); }
  }

  ghost predicate WholeBetween(p: Plan, jobs: seq<Job>, k: nat, l: nat)
    requires l < |jobs|
  {
    forall i {:trigger jobs[i]} :: k <= i <= l ==> AllWhole(p, jobs[i])
  }

  /** Over a whole run: from a state in which all files are whole they stay whole if and only if nobody
      creates one again that should hold something. */
  lemma {:induction false} StayWholeExactly(p: Plan, master: Schedule.Master, jobs: seq<Job>, events: seq<Event>,
                                            k: nat, l: nat)
    requires PlanOK(p) && Schedule.Inv(master) && |master.tasks| == p.tasks
    requires forall t :: 0 <= t < |master.tasks| ==> master.tasks[t] == Schedule.Idle
    requires IsRun(p, master, jobs, events) && k <= l < |jobs| && AllWhole(p, jobs[k])
    ensures WholeBetween(p, jobs, k, l) <==> LeftAlone(p, jobs, events, k, l)
    decreases l
  {
    hide PlanOK, Inv, AllWhole, Possible, Do, Empties, Schedule.Inv;
    if k < l {
      StayWholeExactly(p, master, jobs, events, k, l - 1);
      RunInv(p, master, jobs, events, l - 1);
      assert Possible(p, jobs[l - 1], events[l - 1]) && jobs[l - 1 + 1] == Do(p, jobs[l - 1], events[l - 1]);
      if AllWhole(p, jobs[l - 1]) { EventKeepsWholeExactly(p, jobs[l - 1], events[l - 1]); }
      if LeftAlone(p, jobs, events, k, l) {
        assert LeftAlone(p, jobs, events, k, l - 1);
        assert WholeBetween(p, jobs, k, l - 1) && AllWhole(p, jobs[l - 1]);
        assert !Empties(p, jobs[l - 1], events[l - 1]);
      }
      if WholeBetween(p, jobs, k, l) {
        assert WholeBetween(p, jobs, k, l - 1) && LeftAlone(p, jobs, events, k, l - 1);
        assert AllWhole(p, jobs[l]) && AllWhole(p, jobs[l - 1]);
      }
    }
  }

  // ---------------------------------------------------------------- the map phase

  function Pairs(input: Input, mapF: MapF): seq<KeyValue> {
    mapF(input.name, input.contents)
  }

  /** The file a pair goes to. */
  function FileOf(task: nat, kv: KeyValue, nReduce: nat, hash: Hash): File
    requires nReduce > 0
  {
    Intermediate(FileName(task, hash(kv.key) % nReduce))
  }

  function WriteOf(task: nat, kvs: seq<KeyValue>, i: nat, nReduce: nat, hash: Hash): FileOp
    requires nReduce > 0 && i < |kvs|
  {
    Write(FileOf(task, kvs[i], nReduce, hash), |Part(kvs[..i], hash, nReduce, hash(kvs[i].key) % nReduce)|, kvs[i])
  }

  /** The two loops of `doMap`: create all files, then write every pair where its file ends. */
  function MapScript(task: nat, kvs: seq<KeyValue>, nReduce: nat, hash: Hash): (s: seq<FileOp>)
    requires nReduce > 0
    ensures |s| == nReduce + |kvs|
    ensures forall r :: 0 <= r < nReduce ==> s[r] == Create(Intermediate(FileName(task, r)))
    ensures forall i :: 0 <= i < |kvs| ==> s[nReduce + i] == WriteOf(task, kvs, i, nReduce, hash)
  {
    seq(nReduce, r requires 0 <= r < nReduce => Create(Intermediate(FileName(task, r))))
    + seq(|kvs|, i requires 0 <= i < |kvs| => WriteOf(task, kvs, i, nReduce, hash))
  }

  function MapPlan(inputs: seq<Input>, nReduce: nat, mapF: MapF, hash: Hash): Plan
    requires nReduce > 0
  {
    Plan(|inputs|,
         (t: nat) => if t < |inputs| then MapScript(t, Pairs(inputs[t], mapF), nReduce, hash) else [],
         (f: File) => if f.Intermediate? then f.name.mapTask else |inputs|,
         (f: File) => if f.Intermediate? && f.name.mapTask < |inputs|
                      then Part(Pairs(inputs[f.name.mapTask], mapF), hash, nReduce, f.name.reduceTask) else [])
  }

  lemma {:induction false} PartOfPrefix(kvs: seq<KeyValue>, i: nat, hash: Hash, nReduce: nat, r: nat)
    requires nReduce > 0 && i <= |kvs|
    ensures Part(kvs[..i], hash, nReduce, r) <= Part(kvs, hash, nReduce, r)
  {
    assert kvs == kvs[..i] + kvs[i..];
    PartAppend(kvs[..i], kvs[i..], hash, nReduce, r);
  }

  /** The offset of the i-th pair is its place in its partition. */
  lemma {:induction false} WriteFits(kvs: seq<KeyValue>, i: nat, hash: Hash, nReduce: nat)
    requires nReduce > 0 && i < |kvs|
    ensures var r := hash(kvs[i].key) % nReduce;
            var at, part := |Part(kvs[..i], hash, nReduce, r)|, Part(kvs, hash, nReduce, r);
            at < |part| && part[at] == kvs[i]
  {
    hide Part;
    var r := hash(kvs[i].key) % nReduce;
    assert kvs[..i + 1][..i] == kvs[..i];
    PartNext(kvs[..i + 1], hash, nReduce, r);
    PartOfPrefix(kvs, i + 1, hash, nReduce, r);
  }

  /** Every place of a partition is written for some pair. */
  lemma {:induction false} PlaceWritten(kvs: seq<KeyValue>, o: nat, hash: Hash, nReduce: nat, r: nat) returns (i: nat)
    requires nReduce > 0 && o < |Part(kvs, hash, nReduce, r)|
    ensures i < |kvs| && hash(kvs[i].key) % nReduce == r && |Part(kvs[..i], hash, nReduce, r)| == o
  {
    var rest := kvs[..|kvs| - 1];
    PartNext(kvs, hash, nReduce, r);
    if o < |Part(rest, hash, nReduce, r)| {
      i := PlaceWritten(rest, o, hash, nReduce, r);
      assert kvs[..i] == rest[..i];
    } else {
      i := |kvs| - 1;
    }
  }

  lemma MapPlanOK(inputs: seq<Input>, nReduce: nat, mapF: MapF, hash: Hash)
    requires nReduce > 0
    ensures PlanOK(MapPlan(inputs, nReduce, mapF, hash))
  {
    var p := MapPlan(inputs, nReduce, mapF, hash);
    forall t: nat, q: nat | t < p.tasks && q < |p.script(t)| ensures OpOK(p, t, p.script(t)[q]) {
      MapOpOK(inputs, nReduce, mapF, hash, t, q);
    }
    forall t: nat, q: nat | t < p.tasks && q < |p.script(t)| && p.script(t)[q].Create? ensures CreateOK(p, t, q) {
      MapCreateOK(inputs, nReduce, mapF, hash, t, q);
    }
  }

  lemma MapOpOK(inputs: seq<Input>, nReduce: nat, mapF: MapF, hash: Hash, t: nat, q: nat)
    requires nReduce > 0 && t < |inputs| && q < |MapPlan(inputs, nReduce, mapF, hash).script(t)|
    ensures OpOK(MapPlan(inputs, nReduce, mapF, hash), t, MapPlan(inputs, nReduce, mapF, hash).script(t)[q])
  {
    hide Part;
    var kvs := Pairs(inputs[t], mapF);
    if q >= nReduce { WriteFits(kvs, q - nReduce, hash, nReduce); }
  }

  lemma MapCreateOK(inputs: seq<Input>, nReduce: nat, mapF: MapF, hash: Hash, t: nat, q: nat)
    requires nReduce > 0 && t < |inputs| && q < |MapPlan(inputs, nReduce, mapF, hash).script(t)|
    requires MapPlan(inputs, nReduce, mapF, hash).script(t)[q].Create?
    ensures CreateOK(MapPlan(inputs, nReduce, mapF, hash), t, q)
  {
    hide Part;
    var p, kvs := MapPlan(inputs, nReduce, mapF, hash), Pairs(inputs[t], mapF);
    var s, f := p.script(t), p.script(t)[q].file;
    forall o: nat | o < |p.goal(f)| ensures WritesAfter(s, q, f, o) {
      var i := PlaceWritten(kvs, o, hash, nReduce, q);
      assert s[nReduce + i] == WriteOf(t, kvs, i, nReduce, hash);
    }
  }

  // ---------------------------------------------------------------- the reduce phase

  /** `doReduce` for task `r` writes `outs[r]`, pair by pair. */
  function ReducePlan(outs: seq<seq<KeyValue>>): Plan {
    Plan(|outs|,
         (t: nat) => if t < |outs| then ReduceScript(t, outs[t]) else [],
         (f: File) => if f.Output? then f.task else |outs|,
         (f: File) => if f.Output? && f.task < |outs| then outs[f.task] else [])
  }

  function ReduceScript(task: nat, out: seq<KeyValue>): (s: seq<FileOp>)
    ensures |s| == 1 + |out| && s[0] == Create(Output(task))
    ensures forall i :: 0 <= i < |out| ==> s[1 + i] == Write(Output(task), i, out[i])
  {
    [Create(Output(task))] + seq(|out|, i requires 0 <= i < |out| => Write(Output(task), i, out[i]))
  }

  lemma ReducePlanOK(outs: seq<seq<KeyValue>>)
    ensures PlanOK(ReducePlan(outs))
  {
    var p := ReducePlan(outs);
    forall t: nat, q: nat | t < p.tasks && q < |p.script(t)| && p.script(t)[q].Create? ensures CreateOK(p, t, q) {
      forall o: nat | o < |outs[t]| ensures WritesAfter(p.script(t), q, Output(t), o) {
        assert p.script(t)[1 + o] == Write(Output(t), o, outs[t][o]);
      }
    }
  }

  // ---------------------------------------------------------------- the whole job

  /** `a` is what a reader of a file with this content decodes. */
  ghost predicate Decodes(content: Content, a: seq<KeyValue>) {
    content == Whole(a)
  }

  lemma DecodesOnce(content: Content, a: seq<KeyValue>, b: seq<KeyValue>)
    requires Decodes(content, a) && Decodes(content, b)
    ensures a == b
  {
    assert |a| !in content && |b| !in content;
    assert |a| == |b| && forall o :: 0 <= o < |a| ==> a[o] == content[o] == b[o];
  }

  /** What the reduce tasks find on disk. */
  ghost predicate Finds(j: Job, files: Files) {
    && (forall f :: f in files ==> Intermediate(f) in j.files && Decodes(j.files[Intermediate(f)], files[f]))
    && forall f: FileName :: Intermediate(f) in j.files ==> f in files
  }

  /** A phase is over in state `j`: at some point of a run `schedule` has returned with every last creator
      of a file finished, and up to `j` no late worker has created a file again that should hold something. */
  ghost predicate Finished(p: Plan, master: Schedule.Master, j: Job) {
    exists jobs: seq<Job>, events: seq<Event>, k: nat :: FinishedAt(p, master, j, jobs, events, k)
  }

  ghost predicate FinishedAt(p: Plan, master: Schedule.Master, j: Job, jobs: seq<Job>, events: seq<Event>, k: nat) {
    && IsRun(p, master, jobs, events) && k <= |events| && jobs[|events|] == j
    && Schedule.Returns(jobs[k].master) && MakersDone(p, jobs[k])
    && LeftAlone(p, jobs, events, k, |events|)
  }

  /** In particular a phase is over when `schedule` returns if workers stop when their calls fail. */
  lemma TidyIsFinished(p: Plan, phase: Schedule.Phase, names: seq<string>, nReduce: nat, jobs: seq<Job>,
                       events: seq<Event>)
    requires PlanOK(p) && p.tasks == Schedule.TaskCount(phase, names, nReduce)
    requires IsTidyRun(p, Schedule.Begin(phase, names, nReduce), jobs, events)
    requires Schedule.Returns(jobs[|events|].master)
    ensures Finished(p, Schedule.Begin(phase, names, nReduce), jobs[|events|])
  {
    hide PlanOK, Inv, TidyInv, MakersDone, Schedule.Inv;
    var master := Schedule.Begin(phase, names, nReduce);
    Schedule.BeginOK(phase, names, nReduce);
    TidyRunInv(p, master, jobs, events, |events|);
    TidyMakersDone(p, jobs[|events|]);
    assert FinishedAt(p, master, jobs[|events|], jobs, events, |events|);
  }

  /** When a phase is over its files are whole, with overlapping attempts and late workers. */
  lemma FinishedAllWhole(p: Plan, phase: Schedule.Phase, names: seq<string>, nReduce: nat, j: Job)
    requires PlanOK(p) && p.tasks == Schedule.TaskCount(phase, names, nReduce)
    requires Finished(p, Schedule.Begin(phase, names, nReduce), j)
    ensures AllWhole(p, j)
  {
    hide PlanOK, Inv, MakersDone, AllWhole, IsRun, LeftAlone, Schedule.Inv;
    var master := Schedule.Begin(phase, names, nReduce);
    var jobs, events, k: nat :| FinishedAt(p, master, j, jobs, events, k);
    Schedule.BeginOK(phase, names, nReduce);
    RunLength(p, master, jobs, events);
    RunInv(p, master, jobs, events, k);
    ReturnedIsWhole(p, jobs[k]);
    StayWholeExactly(p, master, jobs, events, k, |events|);
    assert AllWhole(p, jobs[|events|]);
  }

  lemma RunLength(p: Plan, master: Schedule.Master, jobs: seq<Job>, events: seq<Event>)
    requires IsRun(p, master, jobs, events)
    ensures |jobs| == |events| + 1
  {
  }

  /** After a distributed map phase the files hold what they hold after a sequential one. */
  lemma MapsAreMapped(inputs: seq<Input>, names: seq<string>, nReduce: nat, mapF: MapF, hash: Hash, j: Job,
                      files: Files)
    requires nReduce > 0 && |names| == |inputs|
    requires Finished(MapPlan(inputs, nReduce, mapF, hash), Schedule.Begin(Schedule.MapPhase, names, nReduce), j)
    requires Finds(j, files)
    ensures Mapped(files, inputs, |inputs|, nReduce, mapF, hash)
  {
    hide PlanOK, Finished, Part;
    var p := MapPlan(inputs, nReduce, mapF, hash);
    MapPlanOK(inputs, nReduce, mapF, hash);
    FinishedAllWhole(p, Schedule.MapPhase, names, nReduce, j);
    forall m: nat, r: nat | m < |inputs| && r < nReduce
      ensures FileName(m, r) in files
      ensures files[FileName(m, r)] == Part(mapF(inputs[m].name, inputs[m].contents), hash, nReduce, r)
    {
      var f := Intermediate(FileName(m, r));
      assert p.script(m)[r] == Create(f);
      DecodesOnce(j.files[f], files[FileName(m, r)], p.goal(f));
    }
  }

  /** After a distributed reduce phase every output file holds what its task wrote. */
  lemma ReducesAreWritten(outs: seq<seq<KeyValue>>, names: seq<string>, j: Job, found: seq<seq<KeyValue>>)
    requires Finished(ReducePlan(outs), Schedule.Begin(Schedule.ReducePhase, names, |outs|), j)
    requires |found| == |outs|
    requires forall r :: 0 <= r < |outs| ==> Output(r) in j.files ==> Decodes(j.files[Output(r)], found[r])
    ensures found == outs
  {
    hide PlanOK, Finished;
    var p := ReducePlan(outs);
    ReducePlanOK(outs);
    FinishedAllWhole(p, Schedule.ReducePhase, names, |outs|, j);
    forall r: nat | r < |outs| ensures found[r] == outs[r] {
      assert p.script(r)[0] == Create(Output(r));
      DecodesOnce(j.files[Output(r)], found[r], outs[r]);
    }
  }

  /** `Distributed`: with any number of failed and repeated calls the merged output reduces everything
      that was emitted, just like that of `Sequential`. `outs` is what `doReduce` computes from the files
      it finds, and `found` what `merge` reads. */
  lemma {:induction false} DistributedReduces(
    inputs: seq<Input>, names: seq<string>, nReduce: nat, mapF: MapF, reduceF: ReduceF, hash: Hash,
    maps: Job, files: Files, reduces: Job, outs: seq<seq<KeyValue>>, found: seq<seq<KeyValue>>, merged: seq<KeyValue>)
    requires nReduce > 0 && |names| == |inputs| && |outs| == |found| == nReduce
    requires Finished(MapPlan(inputs, nReduce, mapF, hash), Schedule.Begin(Schedule.MapPhase, names, nReduce), maps)
    requires Finds(maps, files)
    requires forall r: nat :: r < nReduce ==> Reduces(Collected(files, |inputs|, r), reduceF, outs[r])
    requires Finished(ReducePlan(outs), Schedule.Begin(Schedule.ReducePhase, names, nReduce), reduces)
    requires forall r :: 0 <= r < nReduce ==> Output(r) in reduces.files ==> Decodes(reduces.files[Output(r)], found[r])
    requires Merges(Loaded(found, nReduce), merged)
    ensures Reduces(AllEmitted(inputs, mapF), reduceF, merged)
  {
    hide Finished, Finds, Mapped, Reduces, Part, Emitted, Collected, Decodes, Merges, Loaded;
    MapsAreMapped(inputs, names, nReduce, mapF, hash, maps, files);
    ReducesAreWritten(outs, names, reduces, found);
    var kvs := AllEmitted(inputs, mapF);
    forall r: nat | r < nReduce ensures Reduces(Part(kvs, hash, nReduce, r), reduceF, outs[r]) {
      CollectedIsPart(files, inputs, |inputs|, nReduce, mapF, hash, r);
    }
    assert OutputsOK(kvs, hash, nReduce, reduceF, outs, nReduce);
    EndToEnd(kvs, hash, nReduce, reduceF, outs, merged);
  }

  // ---------------------------------------------------------------- a worker that does not stop

  /** Without the hypothesis that workers stop when their calls fail the files can be broken after
      `schedule` has returned: a worker whose call failed before it did anything starts late, and empties
      a file that another worker has already completed. */
  lemma LateWorkerErases(input: Input, name: string, mapF: MapF, hash: Hash, kv: KeyValue)
    returns (jobs: seq<Job>, events: seq<Event>)
    requires Pairs(input, mapF) == [kv]
    ensures IsRun(MapPlan([input], 1, mapF, hash), Schedule.Begin(Schedule.MapPhase, [name], 1), jobs, events)
    ensures |events| > 0 && Schedule.Returns(jobs[|events| - 1].master) && Schedule.Returns(jobs[|events|].master)
    ensures var f := Intermediate(FileName(0, 0));
            && f in jobs[|events| - 1].files && jobs[|events| - 1].files[f] == map[0 := kv]
            && f in jobs[|events|].files && jobs[|events|].files[f] == map[]
  {
    hide IsRun, Script;
    var p, master := MapPlan([input], 1, mapF, hash), Schedule.Begin(Schedule.MapPhase, [name], 1);
    var f := Intermediate(FileName(0, 0));
    jobs, events := Retried(p, master, f, kv) by {
      assert [kv][..0] == [] && hash(kv.key) % 1 == 0;
      assert p.script(0) == [Create(f), Write(f, 0, kv)];
    }
    assert p.script(0)[0] == Create(f);
    ScriptIs(p, jobs[|events|], 0);
    jobs, events := OneMore(p, master, jobs, events, Work(0));
  }

  lemma ScriptIs(p: Plan, j: Job, a: nat)
    requires a < |j.attempts|
    ensures Script(p, j, a) == p.script(j.attempts[a].task)
  {
  }

  lemma OneMore(p: Plan, master: Schedule.Master, jobs: seq<Job>, events: seq<Event>, e: Event)
    returns (jobs': seq<Job>, events': seq<Event>)
    requires IsRun(p, master, jobs, events) && Possible(p, jobs[|events|], e)
    ensures IsRun(p, master, jobs', events') && events' == events + [e]
    ensures |jobs'| == |jobs| + 1
    ensures jobs'[|events|] == jobs[|events|] && jobs'[|events| + 1] == Do(p, jobs[|events|], e)
  {
    hide Do, Possible;
    jobs', events' := jobs + [Do(p, jobs[|events|], e)], events + [e];
    forall k | 0 <= k < |events'|
      ensures Possible(p, jobs'[k], events'[k]) && jobs'[k + 1] == Do(p, jobs'[k], events'[k])
    {
      if k < |events| { assert Possible(p, jobs[k], events[k]) && jobs[k + 1] == Do(p, jobs[k], events[k]); }
    }
  }

  /** The first call of the only task fails before the worker does anything; the second one succeeds. */
  lemma Retried(p: Plan, master: Schedule.Master, f: File, kv: KeyValue) returns (jobs: seq<Job>, events: seq<Event>)
    requires master.tasks == [Schedule.Idle] && master.wait == 1 && p.script(0) == [Create(f), Write(f, 0, kv)]
    ensures IsRun(p, master, jobs, events) && |jobs| == |events| + 1 && Schedule.Returns(jobs[|events|].master)
    ensures jobs[|events|].attempts == [Attempt(0, 0), Attempt(0, 2)] && jobs[|events|].files == map[f := map[0 := kv]]
  {
    var w := "worker";
    jobs, events := [Start(master)], [];
    jobs, events := OneMore(p, master, jobs, events, Register(w));
    jobs, events := OneMore(p, master, jobs, events, Take(0, w));
    jobs, events := OneMore(p, master, jobs, events, Answer(0, false));
    jobs, events := OneMore(p, master, jobs, events, Take(0, w));
    jobs, events := OneMore(p, master, jobs, events, Work(1));
    jobs, events := OneMore(p, master, jobs, events, Work(1));
    jobs, events := OneMore(p, master, jobs, events, Answer(0, true));
  }
}
