/**
 The small steps of a Worker add up to the big step of `executeBatch`, and one
 batch seen from its enqueueing to its callback.
 */
module BatchExamples {
  import opened Common
  import opened BatchExecutor
  import opened BatchProtocol
  import opened BatchSystem
  import opened BatchInvariant
  import opened BatchClientLemmas
  import opened BatchWorkerLemmas
  import opened BatchDeliveryLemmas
  import opened BatchParentLemmas
  import opened BatchRuns

  /** The operations of a job, one event each. */
  function OperationEvents(w: Id, fs: seq<OpFaults>): seq<Event>
    decreases |fs|
  {
    if fs == [] then [] else [RunOperation(w, fs[0])] + OperationEvents(w, fs[1..])
  }

  predicate Runnable(s: System, w: Id) {
    && w < |s.workers| && !s.workers[w].dead && s.workers[w].task.Some?
    && !s.workers[w].task.value.terminateAfterBegin
    && |s.workers[w].task.value.results| <= |s.workers[w].task.value.operations|
  }

  /** The Worker after the operations have run with outcome `o`. */
  function AfterOperations(worker: Worker, fs: seq<OpFaults>, o: Outcome): Worker
    requires worker.task.Some?
  {
    var task := worker.task.value;
    worker.(out := worker.out + ProgressFrom(task.id, task.results + o.results, |task.results|),
            task := Some(task.(stage := Open(o.db), results := task.results + o.results, faults := task.faults + fs)))
  }

  /** One operation, as an event. */
  lemma OperationStep(s: System, w: Id, f: OpFaults)
    requires Runnable(s, w) && s.workers[w].task.value.stage.Open?
    requires var task := s.workers[w].task.value;
      |task.results| < |task.operations| && Attempt(task.stage.txn, task.operations[|task.results|], f).Some?
    ensures var worker, task := s.workers[w], s.workers[w].task.value;
      var (db, r) := Attempt(task.stage.txn, task.operations[|task.results|], f).value;
      Next(s, RunOperation(w, f)) == WithWorker(s, w, worker.(
        out := worker.out + [Progress(task.id, [(|task.results|, Code(r))])],
        task := Some(task.(stage := Open(db), results := task.results + [r], faults := task.faults + [f]))))
  {
    hide Attempt, Code;
  }

  lemma NoOperations(s: System, w: Id, o: Outcome)
    requires w < |s.workers| && s.workers[w].task.Some? && s.workers[w].task.value.stage == Open(o.db)
      && o.results == []
    ensures WithWorker(s, w, AfterOperations(s.workers[w], [], o)) == s
  {
    var worker, task := s.workers[w], s.workers[w].task.value;
    assert task.results + [] == task.results && task.faults + [] == task.faults;
    assert ProgressFrom(task.id, task.results, |task.results|) == [] && worker.out + [] == worker.out;
    assert s.workers[w := worker] == s.workers;
  }

  /** The fold's first step. */
  lemma RunStep(db: Db, ops: seq<Operation>, faults: seq<OpFaults>)
    requires |faults| == |ops| && ops != [] && !Run(db, ops, faults).failed
    ensures Attempt(db, ops[0], faults[0]).Some?
    ensures var (next, r) := Attempt(db, ops[0], faults[0]).value;
      var rest := Run(next, ops[1..], faults[1..]);
      !rest.failed && Run(db, ops, faults) == Outcome([r] + rest.results, rest.db, rest.failed)
  {
    hide Attempt;
  }

  lemma RunNothing(db: Db)
    ensures Run(db, [], []) == Outcome([], db, false)
  {}

  /** Stepping through operations is running them. */
  lemma {:induction false} OperationsRun(s: System, w: Id, fs: seq<OpFaults>)
    requires Runnable(s, w) && s.workers[w].task.value.stage.Open?
    requires var task := s.workers[w].task.value;
      && |task.results| + |fs| <= |task.operations|
      && !Run(task.stage.txn, task.operations[|task.results|..|task.results| + |fs|], fs).failed
    ensures var task := s.workers[w].task.value;
      var o := Run(task.stage.txn, task.operations[|task.results|..|task.results| + |fs|], fs);
      RunEvents(s, OperationEvents(w, fs)) == WithWorker(s, w, AfterOperations(s.workers[w], fs, o))
    decreases |fs|
  {
    hide Attempt, Next, AfterOperations, Code, Run, ProgressFrom;
    var worker, task := s.workers[w], s.workers[w].task.value;
    var k := |task.results|;
    var ops := task.operations[k..k + |fs|];
    if fs == [] {
      assert ops == [];
      RunNothing(task.stage.txn);
      NoOperations(s, w, Run(task.stage.txn, ops, fs));
    } else {
      assert ops[0] == task.operations[k];
      RunStep(task.stage.txn, ops, fs);
      OperationStep(s, w, fs[0]);
      var (db, r) := Attempt(task.stage.txn, ops[0], fs[0]).value;
      var t := Next(s, RunOperation(w, fs[0]));
      assert OperationEvents(w, fs)[1..] == OperationEvents(w, fs[1..]);
      assert ops[1..] == task.operations[k + 1..k + 1 + |fs[1..]|];
      OperationsRun(t, w, fs[1..]);
      var rest := Run(db, ops[1..], fs[1..]);
      OneThenRest(worker, t.workers[w], fs, Run(task.stage.txn, ops, fs), rest, r);
      Overwritten(s.workers, w, t.workers[w], AfterOperations(t.workers[w], fs[1..], rest));
    }
  }

  lemma Overwritten(workers: seq<Worker>, w: Id, a: Worker, b: Worker)
    requires w < |workers|
    ensures workers[w := a][w := b] == workers[w := b]
  {}

  lemma OneThenRest(worker: Worker, next: Worker, fs: seq<OpFaults>, o: Outcome, rest: Outcome, r: BatchResult)
    requires fs != [] && worker.task.Some? && next.task.Some? && o.results == [r] + rest.results && o.db == rest.db
    requires var task := worker.task.value;
      next == worker.(out := worker.out + [Progress(task.id, [(|task.results|, Code(r))])],
                      task := Some(task.(stage := next.task.value.stage, results := task.results + [r],
                                         faults := task.faults + [fs[0]])))
    ensures AfterOperations(next, fs[1..], rest) == AfterOperations(worker, fs, o)
  {
    hide ProgressFrom, Code;
    var task := worker.task.value;
    var all := task.results + o.results;
    assert task.results + [r] + rest.results == all;
    assert task.faults + [fs[0]] + fs[1..] == task.faults + fs;
    FirstProgress(task.id, all, |task.results|);
    assert all[|task.results|] == r;
    assert worker.out + ([Progress(task.id, [(|task.results|, Code(r))])]
                         + ProgressFrom(task.id, all, |task.results| + 1))
        == next.out + ProgressFrom(task.id, all, |task.results| + 1);
  }

  /** Begin, operations, commit, answer. */
  function JobEvents(w: Id, fs: seq<OpFaults>): seq<Event> {
    [BeginTask(w, true)] + OperationEvents(w, fs) + [CommitTask(w, true), Answer(w)]
  }

  lemma {:induction false} RunAppend(s: System, a: seq<Event>, b: seq<Event>)
    ensures RunEvents(s, a + b) == RunEvents(RunEvents(s, a), b)
    decreases |a|
  {
    hide Next;
    if a == [] {
      assert a + b == b;
    } else {
      assert (a + b)[1..] == a[1..] + b;
      RunAppend(Next(s, a[0]), a[1..], b);
    }
  }

  /**
   A job run step by step sends the progress of every result and then `complete`,
   and commits what `executeBatch` commits in one go.
   */
  lemma JobRuns(s: System, w: Id, fs: seq<OpFaults>)
    requires Runnable(s, w) && s.workers[w].task.value.stage == NotBegun
    requires var task := s.workers[w].task.value;
      task.results == [] && task.faults == [] && |fs| == |task.operations| && !Run(s.db, task.operations, fs).failed
    ensures var task, o := s.workers[w].task.value, Run(s.db, s.workers[w].task.value.operations, fs);
      var t := RunEvents(s, JobEvents(w, fs));
      && t.db == o.db && t.commits == s.commits + [Commit(task.id, task.operations, fs, s.db, o.db, o.results)]
      && w < |t.workers| && t.workers[w].out == s.workers[w].out + ProgressFrom(task.id, o.results, 0)
          + [Complete(task.id)]
      && t.p == s.p
  {
    hide Attempt, ProgressFrom, Next, AfterOperations, RunEvents, OperationEvents;
    var task, o := s.workers[w].task.value, Run(s.db, s.workers[w].task.value.operations, fs);
    var begun := Next(s, BeginTask(w, true));
    BeginStep(s, w);
    RunAppend(s, [BeginTask(w, true)] + OperationEvents(w, fs), [CommitTask(w, true), Answer(w)]);
    RunAppend(s, [BeginTask(w, true)], OperationEvents(w, fs));
    OneEvent(s, BeginTask(w, true));
    assert task.operations[0..|fs|] == task.operations;
    OperationsRun(begun, w, fs);
    var ran := RunEvents(begun, OperationEvents(w, fs));
    RanFields(begun.workers[w], fs, o);
    TwoEvents(ran, CommitTask(w, true), Answer(w));
    CommitSteps(ran, w);
  }

  lemma BeginStep(s: System, w: Id)
    requires Runnable(s, w) && s.workers[w].task.value.stage == NotBegun
    ensures Next(s, BeginTask(w, true))
         == WithWorker(s, w, s.workers[w].(task := Some(s.workers[w].task.value.(base := s.db, stage := Open(s.db)))))
  {}

  lemma RanFields(worker: Worker, fs: seq<OpFaults>, o: Outcome)
    requires worker.task.Some? && worker.task.value.results == [] && worker.task.value.faults == []
    ensures var task, after := worker.task.value, AfterOperations(worker, fs, o);
      after == worker.(out := worker.out + ProgressFrom(task.id, o.results, 0),
                       task := Some(task.(stage := Open(o.db), results := o.results, faults := fs)))
  {
    hide ProgressFrom;
    assert [] + o.results == o.results && [] + fs == fs;
  }

  lemma CommitSteps(s: System, w: Id)
    requires Runnable(s, w) && s.workers[w].task.value.stage.Open?
    requires |s.workers[w].task.value.results| == |s.workers[w].task.value.operations|
    ensures var task := s.workers[w].task.value;
      var t := Next(Next(s, CommitTask(w, true)), Answer(w));
      && t.db == task.stage.txn && t.p == s.p && w < |t.workers|
      && t.commits == s.commits + [Commit(task.id, task.operations, task.faults, s.db, task.stage.txn, task.results)]
      && t.workers[w].out == s.workers[w].out + [Complete(task.id)]
  {}

  lemma OneEvent(s: System, e: Event)
    ensures RunEvents(s, [e]) == Next(s, e)
  {
    hide Next;
    assert [e][1..] == [];
    assert RunEvents(Next(s, e), []) == Next(s, e);
  }

  lemma TwoEvents(s: System, e: Event, f: Event)
    ensures RunEvents(s, [e, f]) == Next(Next(s, e), f)
  {
    hide Next;
    assert [e, f][1..] == [f];
    OneEvent(Next(s, e), f);
  }

  // ------------------------------------------------- one batch from end to end

  /** Enqueued, the Worker started and ready, the job posted and taken. */
  function Prepared(db: Db, operations: seq<Operation>): System {
    var task := Task(0, operations, false, map[], NotBegun, [], []);
    System(
      InitialParent().(
        jobs := [0], active := Some(NewJob(0, operations, false)), reservation := Some(0), worker := Some(0),
            ready := true,
        dispatched := Some(0), activeWriter := BatchWriter(0), leased := {0}, inboxes := map[0 := []], posted := {0}),
      1, [Worker(Up, false, [], Some(task))], false, db, [])
  }

  function FirstEvents(operations: seq<Operation>): seq<Event> {
    [Enqueue(operations, false, HostFaults(false, false)), Take(0), FinishInitialization(0),
     Deliver(0, false, HostFaults(false, false)), Take(0)]
  }

  /** Just enqueued: the slot is taken and a Worker is being started. */
  function Launching(db: Db, operations: seq<Operation>, box: seq<ToWorker>, worker: Worker): System {
    System(
      InitialParent().(
        jobs := [0], active := Some(NewJob(0, operations, false)), reservation := Some(0), worker := Some(0),
        activeWriter := BatchWriter(0), leased := {0}, inboxes := map[0 := box]),
      1, [worker], false, db, [])
  }

  /** Ready, the job posted. */
  function JobPosted(db: Db, operations: seq<Operation>): System {
    var s := Launching(db, operations, [PostedJob(0, operations, false)], Worker(Up, false, [], None));
    s.(p := s.p.(ready := true, dispatched := Some(0), posted := {0}))
  }

  lemma EnqueueFirst(db: Db, operations: seq<Operation>)
    requires |operations| <= MAX_ARRAY_LENGTH
    ensures Next(Initial(db), Enqueue(operations, false, HostFaults(false, false)))
         == Launching(db, operations, [Start], Worker(Unstarted, false, [], None))
  {
    hide NewJob;
    JobFields(operations);
  }

  lemma StartFirst(db: Db, operations: seq<Operation>)
    ensures var s1 := Launching(db, operations, [Start], Worker(Unstarted, false, [], None));
      Next(Next(s1, Take(0)), FinishInitialization(0))
          == Launching(db, operations, [], Worker(Up, false, [Ready], None))
  {
    hide NewJob;
    var s1 := Launching(db, operations, [Start], Worker(Unstarted, false, [], None));
    assert Next(s1, Take(0)) == Launching(db, operations, [], Worker(Initializing, false, [], None));
    assert [] + [Ready] == [Ready];
  }

  lemma PostFirst(db: Db, operations: seq<Operation>)
    ensures Next(Launching(db, operations, [], Worker(Up, false, [Ready], None)),
                 Deliver(0, false, HostFaults(false, false)))
         == JobPosted(db, operations)
  {
    hide NewJob;
    JobFields(operations);
    var s, t := Launching(db, operations, [], Worker(Up, false, [Ready], None)), JobPosted(db, operations);
    var none: seq<ToWorker> := [];
    assert Box(s.p, 0) == none && none + [PostedJob(0, operations, false)] == [PostedJob(0, operations, false)];
    assert s.p.inboxes[0 := [PostedJob(0, operations, false)]] == t.p.inboxes && s.p.posted + {0} == {0};
    var q := HandledReady(s.p, HostFaults(false, false));
    assert q == t.p;
    assert Handled(s.p, Ready, false, HostFaults(false, false), 1) == q;
    assert s.workers[0].out[1..] == [] && s.workers[0 := s.workers[0].(out := [])] == t.workers;
    assert s.next == t.next && s.parentTxn == t.parentTxn && s.db == t.db && s.commits == t.commits;
    assert s.(p := t.p, workers := t.workers) == t;
  }

  /** An idle Worker takes a posted job. */
  lemma TakeStep(s: System, w: Id, id: Id, operations: seq<Operation>)
    requires w < |s.workers| && s.workers[w] == Worker(Up, false, [], None)
    requires Box(s.p, w) == [PostedJob(id, operations, false)]
    ensures Next(s, Take(w)) == WithWorker(s.(p := Taken(s.p, w)), w,
                                           Worker(Up, false, [],
                                                  Some(Task(id, operations, false, map[], NotBegun, [], []))))
  {
    hide Box, Taken;
    assert Box(s.p, w)[0] == PostedJob(id, operations, false);
  }

  lemma TakeFirst(db: Db, operations: seq<Operation>)
    ensures Next(JobPosted(db, operations), Take(0)) == Prepared(db, operations)
  {
    hide NewJob, Next;
    var s, t, none: seq<ToWorker> := JobPosted(db, operations), Prepared(db, operations), [];
    TakeStep(s, 0, 0, operations);
    assert Box(s.p, 0)[1..] == none && s.p.inboxes[0 := none] == map[0 := none];
    assert Taken(s.p, 0) == t.p;
    assert s.workers[0 := t.workers[0]] == t.workers;
    assert Next(s, Take(0)) == s.(p := t.p, workers := t.workers);
    assert s.next == t.next && s.parentTxn == t.parentTxn && s.db == t.db && s.commits == t.commits;
    assert s.(p := t.p, workers := t.workers) == t;
  }

  lemma PreparedIsReached(db: Db, operations: seq<Operation>)
    requires |operations| <= MAX_ARRAY_LENGTH
    ensures RunEvents(Initial(db), FirstEvents(operations)) == Prepared(db, operations)
  {
    hide Next, RunEvents, Launching, JobPosted, Prepared;
    EnqueueFirst(db, operations);
    StartFirst(db, operations);
    PostFirst(db, operations);
    TakeFirst(db, operations);
    FiveEvents(Initial(db), FirstEvents(operations));
  }

  lemma JobFields(operations: seq<Operation>)
    ensures var job := NewJob(0, operations, false);
      job.id == 0 && job.operations == operations && !job.terminateAfterBegin
  {}

  lemma FiveEvents(s: System, e: seq<Event>)
    requires |e| == 5
    ensures RunEvents(s, e) == Next(Next(Next(Next(Next(s, e[0]), e[1]), e[2]), e[3]), e[4])
  {
    hide Next;
    assert e == [e[0], e[1]] + ([e[2], e[3]] + [e[4]]);
    RunAppend(s, [e[0], e[1]], [e[2], e[3]] + [e[4]]);
    TwoEvents(s, e[0], e[1]);
    var t := RunEvents(s, [e[0], e[1]]);
    RunAppend(t, [e[2], e[3]], [e[4]]);
    TwoEvents(t, e[2], e[3]);
    OneEvent(RunEvents(t, [e[2], e[3]]), e[4]);
  }

  // ------------------------------------------------------ delivering the rest

  /** The current Worker has answered `complete`; its messages are on their way. */
  ghost predicate Arriving(s: System, w: Id, results: seq<BatchResult>) {
    && s.p.worker == Some(w) && w < |s.workers| && !s.p.closed && s.p.microtasks == [] && s.p.ready
    && s.p.active.Some? && s.p.dispatched == Some(s.p.active.value.id)
    && Received(s.p.active.value, results) && |results| == |s.p.active.value.operations|
    && s.workers[w].out == ProgressFrom(s.p.active.value.id, results, s.p.active.value.receivedCount)
                           + [Complete(s.p.active.value.id)]
  }

  function DeliverEvents(w: Id, n: nat): seq<Event> {
    if n == 0 then [] else [Deliver(w, false, HostFaults(false, false))] + DeliverEvents(w, n - 1)
  }

  /** The active job is the only one. */
  predicate Alone(p: Parent) { p.queue == [] && p.active.Some? && p.jobs == [p.active.value.id] }

  lemma ArriveProgress(s: System, w: Id, results: seq<BatchResult>)
    requires Arriving(s, w, results) && s.p.active.value.receivedCount < |results|
    ensures var t := Next(s, Deliver(w, false, HostFaults(false, false)));
      && Arriving(t, w, results) && t.p.active.value.receivedCount == s.p.active.value.receivedCount + 1
      && t.p.active.value.id == s.p.active.value.id && t.p.calledBack == s.p.calledBack && t.db == s.db
      && t.commits == s.commits && Alone(t.p) == Alone(s.p)
  {
    hide Received, ProgressFrom, ApplyAll, Finished, EveryResult, Code;
    var job := s.p.active.value;
    var k := job.receivedCount;
    FirstProgress(job.id, results, k);
    AppliedProgress(job, results);
    var out := s.workers[w].out;
    assert out == [Progress(job.id, [(k, Code(results[k]))])]
        + (ProgressFrom(job.id, results, k + 1) + [Complete(job.id)]);
    assert out[1..] == ProgressFrom(job.id, results, k + 1) + [Complete(job.id)];
  }

  /** What the answer of the current Worker makes of the client, whatever is queued behind the job. */
  lemma FinishedCompletely(p: Parent, f: HostFaults, n: Id)
    requires p.active.Some?
    ensures var job := p.active.value;
      var q := Finished(p.(dispatched := None), job, None, false, f, n);
      && q.calledBack == p.calledBack + [Callback(job.id, None, job.results)]
      && (Alone(p) ==> q.jobs == [] && q.active == None)
  {
    hide Activated;
    var job := p.active.value;
    var p1 := Settled(p.(dispatched := None), job);
    if p1.queue != [] { ActivatedCallbacks(p1.(queue := p1.queue[1..]), p1.queue[0], f, n); }
    if Alone(p) { WithoutFirst(p.jobs); }
  }

  lemma ArriveComplete(s: System, w: Id, results: seq<BatchResult>)
    requires Arriving(s, w, results) && s.p.active.value.receivedCount == |results|
    ensures var t := Next(s, Deliver(w, false, HostFaults(false, false)));
      && t.p.calledBack == s.p.calledBack + [Callback(s.p.active.value.id, None, Codes(results))]
      && t.db == s.db && t.commits == s.commits
      && (Alone(s.p) ==> t.p.jobs == [] && t.p.active == None)
  {
    hide Received, ProgressFrom, ApplyAll, Finished, Codes, EveryResult, Alone;
    var job := s.p.active.value;
    FirstProgress(job.id, results, |results|);
    AllReceived(job, results);
    assert s.workers[w].out == [Complete(job.id)];
    FinishedCompletely(s.p, HostFaults(false, false), |s.workers|);
  }

  /** Every progress message and then the answer arrive: the callback gets all results. */
  lemma {:induction false} AllArrive(s: System, w: Id, results: seq<BatchResult>)
    requires Arriving(s, w, results)
    ensures s.p.active.value.receivedCount <= |results|
    ensures var t := RunEvents(s, DeliverEvents(w, |results| - s.p.active.value.receivedCount + 1));
      && t.p.calledBack == s.p.calledBack + [Callback(s.p.active.value.id, None, Codes(results))]
      && t.db == s.db && t.commits == s.commits
      && (Alone(s.p) ==> t.p.jobs == [] && t.p.active == None)
    decreases |results| - s.p.active.value.receivedCount
  {
    hide Next, ProgressFrom, Codes, Alone;
    var f := HostFaults(false, false);
    var n: nat := |results| - s.p.active.value.receivedCount + 1;
    var events := DeliverEvents(w, n);
    var t := Next(s, Deliver(w, false, f));
    assert events[0] == Deliver(w, false, f) && events[1..] == DeliverEvents(w, n - 1);
    assert RunEvents(s, events) == RunEvents(t, events[1..]);
    if n > 1 {
      ArriveProgress(s, w, results);
      AllArrive(t, w, results);
    } else {
      ArriveComplete(s, w, results);
    }
  }

  /** The current Worker `w` has just taken the active job. */
  predicate JustTaken(s: System, w: Id) {
    && s.p.worker == Some(w) && Runnable(s, w) && s.workers[w].task.value.stage == NotBegun
    && s.workers[w].task.value.faults == [] && s.workers[w].out == [] && s.p.microtasks == [] && s.p.active.Some?
    && s.p.active.value.receivedCount == 0 && Box(s.p, w) == []
  }

  /**
   In any reachable state, whatever is queued behind it, a job that LMDB accepts and
   whose Worker does not fail is called back next, with the results of its fold over
   the database it finds, and is committed once.
   */
  lemma JobSucceeds(s: System, w: Id, fs: seq<OpFaults>)
    requires Inv(s) && JustTaken(s, w)
    requires var task := s.workers[w].task.value;
      |fs| == |task.operations| && !Run(s.db, task.operations, fs).failed
    ensures var task, o := s.workers[w].task.value, Run(s.db, s.workers[w].task.value.operations, fs);
      var t := RunEvents(s, JobEvents(w, fs) + DeliverEvents(w, |task.operations| + 1));
      && task.id == s.p.active.value.id && task.operations == s.p.active.value.operations
      && t.p.calledBack == s.p.calledBack + [Callback(task.id, None, Codes(o.results))] && t.db == o.db
      && t.commits == s.commits + [Commit(task.id, task.operations, fs, s.db, o.db, o.results)]
      && (Alone(s.p) ==> t.p.jobs == [] && t.p.active == None)
  {
    hide Inv, RunEvents, JobEvents, DeliverEvents, Codes, Run, ProgressFrom, TaskOk, CurrentWorker, Box, Alone, Next;
    var task, o := s.workers[w].task.value, Run(s.db, s.workers[w].task.value.operations, fs);
    TakenJob(s, w);
    RunAppend(s, JobEvents(w, fs), DeliverEvents(w, |task.operations| + 1));
    JobRuns(s, w, fs);
    var t := RunEvents(s, JobEvents(w, fs));
    ReceivedNothing(s.p.active.value, o.results);
    var none: seq<Reply> := [];
    assert none + ProgressFrom(task.id, o.results, 0) + [Complete(task.id)]
        == ProgressFrom(task.id, o.results, 0) + [Complete(task.id)];
    AllArrive(t, w, o.results);
  }

  lemma TakenJob(s: System, w: Id)
    requires Inv(s) && JustTaken(s, w)
    ensures var job, task := s.p.active.value, s.workers[w].task.value;
      && task.id == job.id && task.operations == job.operations && task.results == [] && Received(job, [])
      && s.p.ready && s.p.dispatched == Some(job.id) && !s.p.closed
  {
    hide Inv, ProgressFrom, Received, TaskOk, Next;
    OpenClient(s);
    NotClosed(s);
    TaskOf(s, w);
    NotBegunIsEmpty(s.workers[w].task.value, s.db, s.commits);
  }

  lemma NotBegunIsEmpty(task: Task, db: Db, commits: seq<Commit>)
    requires TaskOk(task, db, commits) && task.stage == NotBegun
    ensures task.results == []
  {
    hide Run, CommittedId, CommittedWith;
  }

  /** A job that has received nothing may receive anything of the right length. */
  lemma ReceivedNothing(job: Job, results: seq<BatchResult>)
    requires Received(job, []) && |results| == |job.operations|
    ensures Received(job, results) && job.receivedCount == 0
  {}

  /** So is the very first batch of an idle client, from its enqueueing on. */
  lemma BatchSucceeds(db: Db, operations: seq<Operation>, fs: seq<OpFaults>)
    requires |operations| <= MAX_ARRAY_LENGTH && |fs| == |operations| && !Run(db, operations, fs).failed
    ensures var o := Run(db, operations, fs);
      var s := RunEvents(Initial(db), FirstEvents(operations)
                         + (JobEvents(0, fs) + DeliverEvents(0, |operations| + 1)));
      && s.p.calledBack == [Callback(0, None, Codes(o.results))] && s.p.jobs == [] && s.db == o.db
      && s.commits == [Commit(0, operations, fs, db, o.db, o.results)]
  {
    hide Next, RunEvents, FirstEvents, JobEvents, DeliverEvents, Codes, Attempt, Run, ProgressFrom;
    var o := Run(db, operations, fs);
    var s, t := Prepared(db, operations), RunEvents(Prepared(db, operations), JobEvents(0, fs));
    RunAppend(Initial(db), FirstEvents(operations), JobEvents(0, fs) + DeliverEvents(0, |operations| + 1));
    PreparedIsReached(db, operations);
    RunAppend(s, JobEvents(0, fs), DeliverEvents(0, |operations| + 1));
    JobRuns(s, 0, fs);
    FreshReceived(operations, o.results);
    AllArrive(t, 0, o.results);
  }

  lemma FreshReceived(operations: seq<Operation>, results: seq<BatchResult>)
    requires |results| == |operations| <= MAX_ARRAY_LENGTH
    ensures Received(NewJob(0, operations, false), results) && NewJob(0, operations, false).receivedCount == 0
  {}
}
