/** Delivering what a Worker sent: no honest Worker ever trips the protocol checks. */
module BatchDeliveryLemmas {
  import opened Common
  import opened BatchExecutor
  import opened BatchProtocol
  import opened BatchSystem
  import opened BatchClientLemmas
  import opened BatchInvariant
  import opened BatchWorkerLemmas
  import opened BatchParentLemmas

  // ------------------------------------------------------- what arrives first

  predicate ReadyArrives(p: Parent, worker: Worker, box: seq<ToWorker>) {
    !p.ready && worker.out == [Ready] && worker.phase == Up && worker.task == None && box == []
  }

  predicate ProgressArrives(job: Job, worker: Worker, box: seq<ToWorker>) {
    && BeingRun(job, worker, box) && worker.out != []
    && var task, k := worker.task.value, job.receivedCount;
    && k < |task.results| && worker.out[0] == Progress(job.id, [(k, Code(task.results[k]))])
    && worker.out[1..] == ProgressFrom(task.id, task.results, k + 1) + Tail(task)
  }

  predicate AnswerArrives(job: Job, worker: Worker, box: seq<ToWorker>) {
    && BeingRun(job, worker, box)
    && var task := worker.task.value;
    && job.receivedCount == |task.results| && task.stage.Answered?
    && worker.out == [if task.stage.committed then Complete(job.id) else Failed(job.id)]
  }

  lemma FirstMessage(p: Parent, worker: Worker, box: seq<ToWorker>)
    requires CurrentWorker(p, worker, box) && worker.out != [] && (p.ready && p.active.Some? ==> p.dispatched.Some?)
    ensures ReadyArrives(p, worker, box) ||
            (p.ready && p.active.Some? && p.dispatched.Some? &&
              (ProgressArrives(p.active.value, worker, box) || AnswerArrives(p.active.value, worker, box)))
  {
    if p.ready && p.dispatched.Some? && p.active.Some? {
      var task, k := worker.task.value, p.active.value.receivedCount;
      FirstProgress(task.id, task.results, k);
      if k < |task.results| {
        assert worker.out == [Progress(task.id, [(k, Code(task.results[k]))])]
            + (ProgressFrom(task.id, task.results, k + 1) + Tail(task));
      } else {
        assert worker.out == Tail(task);
      }
    }
  }

  lemma FirstProgress(id: Id, results: seq<BatchResult>, k: nat)
    requires k <= |results|
    ensures k == |results| ==> ProgressFrom(id, results, k) == []
    ensures k < |results| ==>
      ProgressFrom(id, results, k) == [Progress(id, [(k, Code(results[k]))])] + ProgressFrom(id, results, k + 1)
  {}

  // ---------------------------------------------------------------- progress

  /** One delta extends the received prefix by one result. */
  lemma AppliedProgress(job: Job, results: seq<BatchResult>)
    requires Received(job, results) && job.receivedCount < |results|
    ensures var k := job.receivedCount;
      && ApplyAll(job, [(k, Code(results[k]))]) == Some(Apply(job, (k, Code(results[k]))))
      && Acceptable(job, (k, Code(results[k])))
      && Received(Apply(job, (k, Code(results[k]))), results)
  {
    var k := job.receivedCount;
    var delta := (k, Code(results[k]));
    assert Acceptable(job, delta);
    var none: seq<(int, int)> := [];
    assert [delta][1..] == none;
    assert ApplyAll(Apply(job, delta), none) == Some(Apply(job, delta));
  }

  /** The state once a message has been taken off the channel. */
  function Popped(s: System, w: Id): System
    requires w < |s.workers| && s.workers[w].out != []
  {
    WithWorker(s, w, s.workers[w].(out := s.workers[w].out[1..]))
  }

  lemma PoppedKeeps(s: System, w: Id)
    requires Inv(s) && w < |s.workers| && s.workers[w].out != []
    ensures var t := Popped(s, w);
      WorkersBut(t.p, t.workers) && TasksOk(t.workers, t.db, t.commits) && WaitingOk(t.p, t.workers, t.commits)
  {
    hide ClientOk, BoxesOk, WorkingOk, IdsOk, PendingOk, CurrentOk, WaitingOk, CommitsOk, AnswersOk, TaskOk;
    var worker := s.workers[w].(out := s.workers[w].out[1..]);
    SameTaskKeeps(s.p, s.workers, w, worker);
    OtherTasks(s.workers, s.db, s.commits, w, worker);
    OtherWaiting(s.p, s.workers, s.commits, w, worker);
  }

  lemma ProgressStep(s: System, w: Id, releaseFails: bool, f: HostFaults)
    requires Inv(s) && s.p.microtasks == [] && s.p.worker == Some(w) && w < |s.workers|
    requires s.p.ready && s.p.active.Some? && s.p.dispatched == Some(s.p.active.value.id)
    requires ProgressArrives(s.p.active.value, s.workers[w], Box(s.p, w))
    ensures Inv(DeliverMessage(s, w, releaseFails, f))
    ensures DeliverMessage(s, w, releaseFails, f).p.poisoned == s.p.poisoned
  {
    hide ClientOk, WorkersBut, TasksOk, WaitingOk, CommitsOk, AnswersOk, BoxesOk, WorkingOk, IdsOk, PendingOk,
         Received, ProgressFrom, Box, ApplyAll;
    var job, task := s.p.active.value, s.workers[w].task.value;
    var delta := (job.receivedCount, Code(task.results[job.receivedCount]));
    AppliedProgress(job, task.results);
    var t := Popped(s, w);
    var q := s.p.(active := Some(Apply(job, delta)));
    OpenClient(s);
    PoppedKeeps(s, w);
    HandledKeeps(s.p, s.workers[w].out[0], releaseFails, f, |s.workers|, s.next);
    NotClosed(s);
    assert Handled(s.p, s.workers[w].out[0], releaseFails, f, |s.workers|) == q;
    ResultsUnseen(t.p, q, t.workers, t.commits);
    assert BeingRun(q.active.value, t.workers[w], Box(s.p, w));
    assert Box(q, w) == Box(s.p, w) by { SameInboxes(s.p, q, s.workers); }
    Unbut(q, t.workers);
  }

  lemma NotClosed(s: System)
    requires Inv(s) && s.p.worker.Some?
    ensures !s.p.closed
  {
    hide WorkersOk, DatabaseOk, Conserved, PostedOk, JobIds, IdSet, Fresh;
  }

  lemma ResultsUnseen(p: Parent, q: Parent, workers: seq<Worker>, commits: seq<Commit>)
    requires WorkersBut(p, workers) && WaitingOk(p, workers, commits) && q == p.(active := q.active)
    ensures WorkersBut(q, workers) && WaitingOk(q, workers, commits)
  {
    SameInboxes(p, q, workers);
    StillBoxed(p, q, workers);
    WaitingSame(p, q, workers, commits);
    hide Box, HasJob, Unanswered, Working, BoxesOk, IdsOk, WaitingOk;
  }

  // ------------------------------------------------------------------- ready

  /** Once the last message is off the channel the current Worker is idle. */
  lemma PoppedRests(s: System, w: Id)
    requires Inv(s) && s.p.worker == Some(w) && w < |s.workers| && s.workers[w].out != []
    requires Idle(s.workers[w].(out := s.workers[w].out[1..]), Box(s.p, w))
    ensures Resting(Popped(s, w))
  {
    hide ClientOk, WorkersBut, TasksOk, WaitingOk, AnswersOk, BoxesOk, WorkingOk, IdsOk, PendingOk, CurrentOk, Box,
         Idle,
         NoWork;
    OpenClient(s);
    PoppedKeeps(s, w);
    AnsweredIsQuiet(s.p, Popped(s, w).workers);
    PostedCommits(s);
  }

  lemma PostedCommits(s: System)
    requires Inv(s)
    ensures CommitsOk(s.commits, s.p.posted) && (s.parentTxn <==> s.p.activeWriter == OtherWriter)
  {
    hide ClientOk, WorkersOk, CommitsOk;
  }

  lemma ReadyEffect(p: Parent, f: HostFaults, next: Id)
    requires ClientOk(p, next) && !p.ready && p.worker.Some?
    ensures var q := HandledReady(p, f);
      && (GaveUp(p, q) || Posts(p, q)) && SameOther(p, q) && q.calledBack == p.calledBack && q.poisoned == p.poisoned
  {
    hide JobIds, IdSet, Conserved;
    assert p.active.value.id in p.jobs;
  }

  lemma ReadyStep(s: System, w: Id, releaseFails: bool, f: HostFaults)
    requires Inv(s) && s.p.microtasks == [] && s.p.worker == Some(w) && w < |s.workers|
    requires ReadyArrives(s.p, s.workers[w], Box(s.p, w))
    ensures Inv(DeliverMessage(s, w, releaseFails, f))
    ensures DeliverMessage(s, w, releaseFails, f).p.poisoned == s.p.poisoned
  {
    hide ClientOk, WorkersOk, DatabaseOk, Resting, AnswersOk, GaveUp, Posts, Rested, Starts, HandledReady, Box;
    NotClosed(s);
    Parts(s);
    PoppedRests(s, w);
    HandledKeeps(s.p, Ready, releaseFails, f, |s.workers|, s.next);
    ReadyEffect(s.p, f, s.next);
    MoveKeeps(Popped(s, w), HandledReady(s.p, f), s.next);
  }

  // ------------------------------------------------------------------ answers

  lemma FinishedEffect(p: Parent, error: Option<Failure>, releaseFails: bool, f: HostFaults, n: Id, next: Id)
    requires ClientOk(p, next) && p.active.Some? && p.microtasks == [] && p.dispatched == Some(p.active.value.id)
    requires error == None || error == Some(WorkerFailure)
    ensures var job := p.active.value;
      var outcome := if error == None && releaseFails then Some(CleanupFailure) else error;
      var q := Finished(p.(dispatched := None), job, error, releaseFails, f, n);
      && (GaveUp(p, q) || Rested(p, q) || Posts(p, q)) && SameOther(p, q) && q.poisoned == p.poisoned
      && q.calledBack == p.calledBack + [Callback(job.id, outcome, if outcome == None then job.results else [])]
  {
    hide Activated, Settled, Conserved, PostedOk, IdSet, Fresh;
    var job := p.active.value;
    var outcome := if error == None && releaseFails then Some(CleanupFailure) else error;
    var callback := Callback(job.id, outcome, if outcome == None then job.results else []);
    var r := CalledBack(p, callback);
    SettledFields(p, next);
    CalledBackOrder(p, callback, next);
    if p.queue != [] {
      JobIdsTail(p.queue);
      var settled := Settled(p.(dispatched := None), job);
      ActivatedIgnoresCallbacks(settled.(queue := p.queue[1..]), r.calledBack, p.queue[0], f, n);
      QueueIgnored(r, p.queue[1..], next);
      ActivatedEffect(r.(queue := p.queue[1..]), p.queue[0], f, n, next);
    }
  }

  /** Everything has arrived: the client's results are the Worker's. */
  lemma AllReceived(job: Job, results: seq<BatchResult>)
    requires Received(job, results) && job.receivedCount == |results|
    ensures |results| == |job.operations| ==> EveryResult(job) && job.results == Codes(results)
  {}

  lemma AnswerIsTrue(task: Task, db: Db, commits: seq<Commit>, job: Job, releaseFails: bool)
    requires TaskOk(task, db, commits) && task.stage.Answered? && task.id == job.id && task.operations == job.operations
    requires Received(job, task.results) && job.receivedCount == |task.results|
    ensures var error := if task.stage.committed then None else Some(WorkerFailure);
      var outcome := if error == None && releaseFails then Some(CleanupFailure) else error;
      AnswerOk(Callback(job.id, outcome, if outcome == None then job.results else []), commits)
    ensures task.stage.committed ==> EveryResult(job)
  {
    hide Run, Received, EveryResult, Codes;
    AllReceived(job, task.results);
    if task.stage.committed {
      var i :| 0 <= i < |commits| && commits[i].id == task.id && commits[i].results == task.results;
      assert CommittedId(commits, job.id);
    }
  }

  lemma OneMoreAnswer(calledBack: seq<Callback>, callback: Callback, commits: seq<Commit>)
    requires AnswersOk(calledBack, commits) && AnswerOk(callback, commits)
    ensures AnswersOk(calledBack + [callback], commits)
  {
    hide AnswerOk;
  }

  lemma AnswerStep(s: System, w: Id, releaseFails: bool, f: HostFaults)
    requires Inv(s) && s.p.microtasks == [] && s.p.worker == Some(w) && w < |s.workers|
    requires s.p.ready && s.p.active.Some? && s.p.dispatched == Some(s.p.active.value.id)
    requires AnswerArrives(s.p.active.value, s.workers[w], Box(s.p, w))
    ensures Inv(DeliverMessage(s, w, releaseFails, f))
    ensures DeliverMessage(s, w, releaseFails, f).p.poisoned == s.p.poisoned
  {
    hide ClientOk, WorkersOk, DatabaseOk, Resting, AnswersOk, AnswerOk, GaveUp, Posts, Rested, Starts, Finished, Box,
         EveryResult, TaskOk, Received, ProgressFrom;
    var job, task := s.p.active.value, s.workers[w].task.value;
    var error := if task.stage.committed then None else Some(WorkerFailure);
    var outcome := if error == None && releaseFails then Some(CleanupFailure) else error;
    var callback := Callback(job.id, outcome, if outcome == None then job.results else []);
    NotClosed(s);
    Parts(s);
    TaskOf(s, w);
    AnswerIsTrue(task, s.db, s.commits, job, releaseFails);
    OneMoreAnswer(s.p.calledBack, callback, s.commits);
    PoppedRests(s, w);
    HandledKeeps(s.p, s.workers[w].out[0], releaseFails, f, |s.workers|, s.next);
    FinishedEffect(s.p, error, releaseFails, f, |s.workers|, s.next);
    MoveKeeps(Popped(s, w), Finished(s.p.(dispatched := None), job, error, releaseFails, f, |s.workers|), s.next);
  }

  /** No message of a Worker poisons the environment: only its failure does. */
  lemma DeliverStep(s: System, w: Id, releaseFails: bool, f: HostFaults)
    requires Inv(s)
    ensures Inv(Next(s, Deliver(w, releaseFails, f)))
    ensures Next(s, Deliver(w, releaseFails, f)).p.poisoned == s.p.poisoned
  {
    hide Inv, DeliverMessage, TaskOk, CurrentWorker, ProgressArrives, AnswerArrives, ReadyArrives, Box;
    if s.p.microtasks == [] && w < |s.workers| && s.workers[w].out != [] {
      TaskOf(s, w);
      OpenClient(s);
      if s.p.worker != Some(w) {
        ForeignMessage(s, w, releaseFails, f);
      } else {
        FirstMessage(s.p, s.workers[w], Box(s.p, w));
        if ReadyArrives(s.p, s.workers[w], Box(s.p, w)) {
          ReadyStep(s, w, releaseFails, f);
        } else if ProgressArrives(s.p.active.value, s.workers[w], Box(s.p, w)) {
          ProgressStep(s, w, releaseFails, f);
        } else {
          AnswerStep(s, w, releaseFails, f);
        }
      }
    }
  }

  /** What a Worker that was given up on still sends is ignored. */
  lemma ForeignMessage(s: System, w: Id, releaseFails: bool, f: HostFaults)
    requires Inv(s) && w < |s.workers| && s.workers[w].out != [] && s.p.worker != Some(w)
    ensures Inv(DeliverMessage(s, w, releaseFails, f)) && DeliverMessage(s, w, releaseFails, f).p == s.p
  {
    hide Inv, TaskOk, CurrentWorker, Box;
    TaskOf(s, w);
    InnerStepKeeps(s, w, s.workers[w].(out := s.workers[w].out[1..]));
  }
}
