/** The scheduler of src/mapreduce/schedule.go: one goroutine per task takes a worker from the channel,
    calls it, puts it back, and repeats until a call succeeds. Every step may interleave with every
    other, and any call may fail any number of times. */
module MapReduceSchedule {

  type Worker = string

  datatype Phase = MapPhase | ReducePhase

  /** `DoTaskArgs` without the job name, which is the same everywhere. */
  datatype TaskArgs = TaskArgs(phase: Phase, task: nat, file: string, otherPhase: nat)

  datatype Task = Idle | Calling(worker: Worker) | Done

  /** `idle` are the workers in the channel or on their way into it; `registered` counts how often each
      worker registered; `wait` is the counter of the WaitGroup; `calls` and `successes` are what was
      called, and what answered. */
  datatype Master = Master(
    phase: Phase,
    files: seq<string>,
    nReduce: nat,
    tasks: seq<Task>,
    wait: int,
    idle: multiset<Worker>,
    registered: multiset<Worker>,
    calls: set<TaskArgs>,
    successes: set<TaskArgs>)

  datatype Event =
    | Register(w: Worker)
    | Take(t: nat, w: Worker)
    | Answer(t: nat, ok: bool)

  function TaskCount(phase: Phase, files: seq<string>, nReduce: nat): nat {
    if phase == MapPhase then |files| else nReduce
  }

  function Begin(phase: Phase, files: seq<string>, nReduce: nat): Master {
    var n := TaskCount(phase, files, nReduce);
    Master(phase, files, nReduce, seq(n, _ => Idle), n, multiset{}, multiset{}, {}, {})
  }

  function ArgsFor(m: Master, t: nat): TaskArgs {
    TaskArgs(m.phase, t,
             if m.phase == MapPhase && t < |m.files| then m.files[t] else "",
             if m.phase == MapPhase then m.nReduce else |m.files|)
  }

  predicate Possible(m: Master, e: Event) {
    match e
    case Register(_) => true
    case Take(t, w) => t < |m.tasks| && m.tasks[t] == Idle && w in m.idle
    case Answer(t, _) => t < |m.tasks| && m.tasks[t].Calling?
  }

  function Do(m: Master, e: Event): Master
    requires Possible(m, e)
  {
    match e
    case Register(w) => m.(idle := m.idle + multiset{w}, registered := m.registered + multiset{w})
    case Take(t, w) =>
      m.(idle := m.idle - multiset{w}, tasks := m.tasks[t := Calling(w)], calls := m.calls + {ArgsFor(m, t)})
    case Answer(t, ok) =>
      var m' := m.(idle := m.idle + multiset{m.tasks[t].worker});
      if ok then m'.(tasks := m.tasks[t := Done], wait := m.wait - 1, successes := m.successes + {ArgsFor(m, t)})
      else m'.(tasks := m.tasks[t := Idle])
  }

  /** `schedule` returns when the WaitGroup is down to zero. */
  predicate Returns(m: Master) {
    m.wait == 0
  }

  ghost predicate IsRun(phase: Phase, files: seq<string>, nReduce: nat, states: seq<Master>, events: seq<Event>) {
    && |states| == |events| + 1
    && states[0] == Begin(phase, files, nReduce)
    && forall k {:trigger events[k]} :: 0 <= k < |events| ==>
         Possible(states[k], events[k]) && states[k + 1] == Do(states[k], events[k])
  }

  // ---------------------------------------------------------------- tokens

  function Token(t: Task): multiset<Worker> {
    if t.Calling? then multiset{t.worker} else multiset{}
  }

  /** The workers that have a call outstanding, once per call. */
  function Busy(tasks: seq<Task>): multiset<Worker> {
    if tasks == [] then multiset{}
    else Busy(tasks[..|tasks| - 1]) + Token(tasks[|tasks| - 1])
  }

  function Unfinished(tasks: seq<Task>): nat {
    if tasks == [] then 0
    else Unfinished(tasks[..|tasks| - 1]) + if tasks[|tasks| - 1].Done? then 0 else 1
  }

  lemma {:induction false} BusyUpdate(tasks: seq<Task>, i: nat, t: Task)
    requires i < |tasks|
    ensures Busy(tasks[i := t]) + Token(tasks[i]) == Busy(tasks) + Token(t)
  {
    hide Token;
    var last := |tasks| - 1;
    var rest, tasks' := tasks[..last], tasks[i := t];
    if i == last {
      assert tasks'[..last] == rest;
    } else {
      assert tasks'[..last] == rest[i := t];
      BusyUpdate(rest, i, t);
      Swapped(Busy(rest[i := t]), Token(tasks[i]), Busy(rest), Token(t), Token(tasks[last]));
    }
  }

  lemma Swapped(a: multiset<Worker>, b: multiset<Worker>, c: multiset<Worker>, d: multiset<Worker>, e: multiset<Worker>)
    requires a + b == c + d
    ensures (a + e) + b == (c + e) + d
  {
    assert (a + e) + b == (a + b) + e;
    assert (c + e) + d == (c + d) + e;
  }

  lemma {:induction false} UnfinishedUpdate(tasks: seq<Task>, i: nat, t: Task)
    requires i < |tasks|
    ensures Unfinished(tasks[i := t]) + (if tasks[i].Done? then 0 else 1) ==
            Unfinished(tasks) + if t.Done? then 0 else 1
  {
    var last := |tasks| - 1;
    if i == last {
      assert tasks[i := t][..last] == tasks[..last];
    } else {
      assert tasks[i := t][..last] == tasks[..last][i := t];
      UnfinishedUpdate(tasks[..last], i, t);
    }
  }

  lemma {:induction false} BusyHolds(tasks: seq<Task>, i: nat)
    requires i < |tasks| && tasks[i].Calling?
    ensures tasks[i].worker in Busy(tasks)
  {
    if i < |tasks| - 1 { BusyHolds(tasks[..|tasks| - 1], i); }
  }

  lemma {:induction false} BusyTwice(tasks: seq<Task>, i: nat, j: nat)
    requires i < j < |tasks| && tasks[i].Calling? && tasks[j] == tasks[i]
    ensures Busy(tasks)[tasks[i].worker] >= 2
  {
    if j < |tasks| - 1 {
      BusyTwice(tasks[..|tasks| - 1], i, j);
    } else {
      BusyHolds(tasks[..|tasks| - 1], i);
    }
  }

  lemma {:induction false} UnfinishedZero(tasks: seq<Task>, i: nat)
    requires Unfinished(tasks) == 0 && i < |tasks|
    ensures tasks[i].Done?
  {
    if i < |tasks| - 1 { UnfinishedZero(tasks[..|tasks| - 1], i); }
  }

  /** Token conservation, and what the counter and the success record mean. */
  ghost predicate Inv(m: Master) {
    && m.registered == m.idle + Busy(m.tasks)
    && m.wait == Unfinished(m.tasks)
    && |m.tasks| == TaskCount(m.phase, m.files, m.nReduce)
    && (forall t: nat :: t < |m.tasks| && m.tasks[t].Done? ==> ArgsFor(m, t) in m.successes)
    && m.successes <= m.calls
    && (forall a :: a in m.calls ==> a.task < |m.tasks| && a == ArgsFor(m, a.task))
    && (forall t: nat :: t < |m.tasks| && m.tasks[t].Calling? ==> ArgsFor(m, t) in m.calls)
  }

  lemma {:induction false} NothingYet(n: nat)
    ensures Busy(seq(n, _ => Idle)) == multiset{} && Unfinished(seq(n, _ => Idle)) == n
  {
    if n > 0 {
      assert seq(n, _ => Idle)[..n - 1] == seq(n - 1, _ => Idle);
      NothingYet(n - 1);
    }
  }

  lemma RegisterKeepsInv(m: Master, w: Worker)
    requires Inv(m)
    ensures Inv(Do(m, Register(w)))
  {
    hide Busy, Unfinished;
    assert m.idle + multiset{w} + Busy(m.tasks) == m.idle + Busy(m.tasks) + multiset{w};
  }

  lemma TakeKeepsInv(m: Master, t: nat, w: Worker)
    requires Inv(m) && Possible(m, Take(t, w))
    ensures Inv(Do(m, Take(t, w)))
  {
    hide Busy, Unfinished;
    BusyUpdate(m.tasks, t, Calling(w));
    UnfinishedUpdate(m.tasks, t, Calling(w));
    var busy, busy' := Busy(m.tasks), Busy(m.tasks[t := Calling(w)]);
    assert busy' == busy + multiset{w};
    assert m.idle - multiset{w} + busy' == m.idle + busy;
  }

  lemma AnswerKeepsInv(m: Master, t: nat, ok: bool)
    requires Inv(m) && Possible(m, Answer(t, ok))
    ensures Inv(Do(m, Answer(t, ok)))
  {
    hide Busy, Unfinished;
    var after, w := if ok then Done else Idle, m.tasks[t].worker;
    BusyUpdate(m.tasks, t, after);
    UnfinishedUpdate(m.tasks, t, after);
    var busy, busy' := Busy(m.tasks), Busy(m.tasks[t := after]);
    assert busy' + multiset{w} == busy;
    assert m.idle + multiset{w} + busy' == m.idle + (busy' + multiset{w});
  }

  lemma EventKeepsInv(m: Master, e: Event)
    requires Inv(m) && Possible(m, e)
    ensures Inv(Do(m, e))
  {
    hide Inv, Do;
    match e
    case Register(w) => RegisterKeepsInv(m, w);
    case Take(t, w) => TakeKeepsInv(m, t, w);
    case Answer(t, ok) => AnswerKeepsInv(m, t, ok);
  }

  lemma {:induction false} RunInv(phase: Phase, files: seq<string>, nReduce: nat, states: seq<Master>,
                                  events: seq<Event>, k: nat)
    requires IsRun(phase, files, nReduce, states, events) && k < |states|
    ensures Inv(states[k])
    ensures states[k].phase == phase && states[k].files == files && states[k].nReduce == nReduce
  {
    hide Inv, Do, Possible, TaskCount;
    if k == 0 {
      BeginOK(phase, files, nReduce);
    } else {
      RunInv(phase, files, nReduce, states, events, k - 1);
      assert states[k - 1 + 1] == Do(states[k - 1], events[k - 1]);
      EventKeepsInv(states[k - 1], events[k - 1]);
      SameJob(states[k - 1], events[k - 1]);
    }
  }

  lemma BeginOK(phase: Phase, files: seq<string>, nReduce: nat)
    ensures Inv(Begin(phase, files, nReduce))
  {
    NothingYet(TaskCount(phase, files, nReduce));
  }

  lemma SameJob(m: Master, e: Event)
    requires Possible(m, e)
    ensures var m' := Do(m, e); m'.phase == m.phase && m'.files == m.files && m'.nReduce == m.nReduce
  {
  }

  /** Every registration is in exactly one place: idle, or with one task. So two calls to the same
      worker are never outstanding at once unless it registered twice. */
  lemma OneCallPerRegistration(phase: Phase, files: seq<string>, nReduce: nat, states: seq<Master>, events: seq<Event>,
                               k: nat, i: nat, j: nat)
    requires IsRun(phase, files, nReduce, states, events) && k < |states| && i < j < |states[k].tasks|
    requires states[k].tasks[i].Calling? && states[k].tasks[j] == states[k].tasks[i]
    ensures states[k].registered == states[k].idle + Busy(states[k].tasks)
    ensures states[k].registered[states[k].tasks[i].worker] >= 2
  {
    RunInv(phase, files, nReduce, states, events, k);
    BusyTwice(states[k].tasks, i, j);
  }

  /** When `schedule` returns every task has been called with its own arguments and has answered
      successfully, and every worker is idle again. */
  lemma ReturnsWhenAllDone(phase: Phase, files: seq<string>, nReduce: nat, states: seq<Master>, events: seq<Event>,
                           k: nat, t: nat)
    requires IsRun(phase, files, nReduce, states, events) && k < |states| && Returns(states[k])
    requires t < TaskCount(phase, files, nReduce)
    ensures TaskArgs(phase, t, if phase == MapPhase then files[t] else "",
                     if phase == MapPhase then nReduce else |files|) in states[k].successes
    ensures states[k].idle == states[k].registered
  {
    RunInv(phase, files, nReduce, states, events, k);
    UnfinishedZero(states[k].tasks, t);
    AllDoneNotBusy(states[k].tasks);
  }

  lemma {:induction false} AllDoneNotBusy(tasks: seq<Task>)
    requires Unfinished(tasks) == 0
    ensures Busy(tasks) == multiset{}
  {
    if tasks != [] { AllDoneNotBusy(tasks[..|tasks| - 1]); }
  }

  /** Nothing ever gets stuck: while a task is unfinished and somebody has registered, either a call is
      outstanding or an idle worker can be taken. */
  lemma NeverStuck(phase: Phase, files: seq<string>, nReduce: nat, states: seq<Master>, events: seq<Event>, k: nat)
    returns (e: Event)
    requires IsRun(phase, files, nReduce, states, events) && k < |states|
    requires !Returns(states[k]) && states[k].registered != multiset{}
    ensures Possible(states[k], e) && !e.Register?
  {
    RunInv(phase, files, nReduce, states, events, k);
    var m := states[k];
    if t: nat :| t < |m.tasks| && m.tasks[t].Calling? {
      e := Answer(t, true);
    } else {
      NotBusy(m.tasks);
      var t := SomeUnfinished(m.tasks);
      var w :| w in m.idle;
      e := Take(t, w);
    }
  }

  lemma {:induction false} NotBusy(tasks: seq<Task>)
    requires forall t: nat :: t < |tasks| ==> !tasks[t].Calling?
    ensures Busy(tasks) == multiset{}
  {
    if tasks != [] { NotBusy(tasks[..|tasks| - 1]); }
  }

  lemma {:induction false} SomeUnfinished(tasks: seq<Task>) returns (t: nat)
    requires Unfinished(tasks) > 0
    ensures t < |tasks| && !tasks[t].Done?
  {
    if tasks[|tasks| - 1].Done? {
      t := SomeUnfinished(tasks[..|tasks| - 1]);
    } else {
      t := |tasks| - 1;
    }
  }
}
