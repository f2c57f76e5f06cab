/** What holds of the Workers, the channels and the database in every reachable state. */
module BatchInvariant {
  import opened Common
  import opened BatchExecutor
  import opened BatchProtocol
  import opened BatchSystem
  import opened BatchClientLemmas

  predicate HasJob(p: Parent, w: Id) { Box(p, w) != [] && Box(p, w)[0].PostedJob? }

  predicate Unanswered(worker: Worker) { worker.task.Some? && !worker.task.value.stage.Answered? }

  /** A job is on its way to Worker `w`, or `w` has not answered it. */
  predicate Working(p: Parent, workers: seq<Worker>, w: Id) {
    w < |workers| && (HasJob(p, w) || Unanswered(workers[w]))
  }

  function WorkId(p: Parent, workers: seq<Worker>, w: Id): Id
    requires Working(p, workers, w)
  {
    if HasJob(p, w) then Box(p, w)[0].id else workers[w].task.value.id
  }

  ghost predicate BoxesOk(p: Parent, workers: seq<Worker>) {
    && (forall w: Id :: w in p.inboxes ==> w < |workers| && |Box(p, w)| <= 1)
    && (forall w: Id :: w < |workers| && HasJob(p, w) ==> workers[w].phase == Up && !Unanswered(workers[w]))
    && (forall w: Id :: w < |workers| && workers[w].task.Some? ==> workers[w].phase == Up)
  }

  /** At most one Worker has work; unless poisoned it is the current one, with the dispatched job. */
  ghost predicate WorkingOk(p: Parent, workers: seq<Worker>) {
    && (forall v: Id, w: Id :: Working(p, workers, v) && Working(p, workers, w) ==> v == w)
    && (!p.poisoned ==>
          forall w: Id :: Working(p, workers, w) ==> p.worker == Some(w) && p.dispatched == Some(WorkId(p, workers, w)))
  }

  /** No job reaches two Workers. */
  ghost predicate IdsOk(p: Parent, workers: seq<Worker>) {
    && (forall w: Id :: w < |workers| && workers[w].task.Some? ==> workers[w].task.value.id in p.posted)
    && (forall w: Id :: w < |workers| && HasJob(p, w) ==> Box(p, w)[0].id in p.posted)
    && (forall v: Id, w: Id :: v < |workers| && w < |workers| && v != w && workers[v].task.Some?
                               && workers[w].task.Some? ==>
          workers[v].task.value.id != workers[w].task.value.id)
    && (forall v: Id, w: Id :: v < |workers| && w < |workers| && HasJob(p, v) && workers[w].task.Some? ==>
          Box(p, v)[0].id != workers[w].task.value.id)
  }

  /** A job still being worked on was called back only if the environment was poisoned. */
  ghost predicate PendingOk(p: Parent, workers: seq<Worker>) {
    forall w: Id, i :: Working(p, workers, w) && 0 <= i < |p.calledBack|
                       && p.calledBack[i].id == WorkId(p, workers, w) ==>
      p.calledBack[i].error == Some(EnvironmentPoisoned)
  }

  predicate CommittedId(commits: seq<Commit>, id: Id) { exists i :: 0 <= i < |commits| && commits[i].id == id }

  /** Job `id` was committed, with these results. */
  predicate CommittedWith(commits: seq<Commit>, id: Id, results: seq<BatchResult>) {
    exists i :: 0 <= i < |commits| && commits[i].id == id && commits[i].results == results
  }

  /** An open transaction has run a prefix of its job on the database as it still is. */
  ghost predicate TaskOk(task: Task, db: Db, commits: seq<Commit>) {
    && |task.faults| == |task.results| <= |task.operations|
    && (task.stage == NotBegun ==> task.results == [])
    && (task.stage.Open? ==>
          task.base == db
          && Run(db, task.operations[..|task.results|], task.faults) == Outcome(task.results, task.stage.txn, false))
    && (if task.stage == Ended(true) || task.stage == Answered(true)
        then |task.results| == |task.operations| && CommittedWith(commits, task.id, task.results)
        else !CommittedId(commits, task.id))
  }

  ghost predicate TasksOk(workers: seq<Worker>, db: Db, commits: seq<Commit>) {
    forall w: Id :: w < |workers| && workers[w].task.Some? ==> TaskOk(workers[w].task.value, db, commits)
  }

  /** A job waiting in an inbox is not committed. */
  ghost predicate WaitingOk(p: Parent, workers: seq<Worker>, commits: seq<Commit>) {
    forall w: Id :: w < |workers| && HasJob(p, w) ==> !CommittedId(commits, Box(p, w)[0].id)
  }

  /** Each job is committed at most once, was posted, and its commit is the fold of its operations. */
  ghost predicate CommitsOk(commits: seq<Commit>, posted: set<Id>) {
    && (forall i, j :: 0 <= i < j < |commits| ==> commits[i].id != commits[j].id)
    && (forall i :: 0 <= i < |commits| ==>
          && commits[i].id in posted && |commits[i].faults| == |commits[i].operations|
          && Run(commits[i].before, commits[i].operations, commits[i].faults)
             == Outcome(commits[i].results, commits[i].after, false))
  }

  function Codes(results: seq<BatchResult>): seq<Option<int>> {
    seq(|results|, i requires 0 <= i < |results| => Some(Code(results[i])))
  }

  /** What a callback says is what happened. */
  predicate AnswerOk(callback: Callback, commits: seq<Commit>) {
    match callback.error
    case None => exists i ::
        0 <= i < |commits| && commits[i].id == callback.id && callback.results == Codes(commits[i].results)
    case Some(CleanupFailure) => CommittedId(commits, callback.id)
    case Some(WorkerFailure) => !CommittedId(commits, callback.id)
    case Some(NotDispatched) => !CommittedId(commits, callback.id)
    case Some(EnvironmentPoisoned) => true
  }

  ghost predicate AnswersOk(calledBack: seq<Callback>, commits: seq<Commit>) {
    forall i :: 0 <= i < |calledBack| ==> AnswerOk(calledBack[i], commits)
  }

  // ---------------------------------------------------------- current Worker

  function ProgressFrom(id: Id, results: seq<BatchResult>, m: nat): seq<Reply>
    requires m <= |results|
  {
    seq(|results| - m, i requires 0 <= i < |results| - m => Progress(id, [(m + i, Code(results[m + i]))]))
  }

  function Tail(task: Task): seq<Reply> {
    match task.stage
    case Answered(committed) => [if committed then Complete(task.id) else Failed(task.id)]
    case _ => []
  }

  /** The client holds the first `receivedCount` results of the Worker. */
  predicate Received(job: Job, results: seq<BatchResult>) {
    && job.receivedCount <= |results| <= |job.operations| == |job.received| == |job.results|
    && |job.operations| <= MAX_ARRAY_LENGTH
    && (forall i :: 0 <= i < |job.operations| ==> job.received[i] == (i < job.receivedCount))
    && (forall i :: 0 <= i < |job.operations| ==>
          job.results[i] == if i < job.receivedCount then Some(Code(results[i])) else None)
  }

  predicate Idle(worker: Worker, box: seq<ToWorker>) {
    worker.phase == Up && box == [] && worker.out == [] && !Unanswered(worker)
  }

  predicate Starting(worker: Worker, box: seq<ToWorker>) {
    && worker.task == None
    && ((worker.phase == Unstarted && box == [Start] && worker.out == []) ||
        (worker.phase == Initializing && box == [] && worker.out == []) ||
        (worker.phase == Up && box == [] && worker.out == [Ready]))
  }

  predicate OnItsWay(job: Job, worker: Worker, box: seq<ToWorker>) {
    && worker.phase == Up && worker.out == [] && !Unanswered(worker)
    && box == [PostedJob(job.id, job.operations, job.terminateAfterBegin)] && Fresh(job)
  }

  predicate BeingRun(job: Job, worker: Worker, box: seq<ToWorker>) {
    && worker.phase == Up && box == [] && worker.task.Some?
    && var task := worker.task.value;
    && task.id == job.id && task.operations == job.operations && Received(job, task.results)
    && worker.out == ProgressFrom(task.id, task.results, job.receivedCount) + Tail(task)
  }

  predicate CurrentWorker(p: Parent, worker: Worker, box: seq<ToWorker>) {
    if !p.ready then Starting(worker, box)
    else if p.dispatched == None || p.active == None then Idle(worker, box)
    else OnItsWay(p.active.value, worker, box) || BeingRun(p.active.value, worker, box)
  }

  ghost predicate CurrentOk(p: Parent, workers: seq<Worker>) {
    p.worker.Some? ==> p.worker.value < |workers| && CurrentWorker(p, workers[p.worker.value], Box(p, p.worker.value))
  }

  ghost predicate WorkersOk(s: System) {
    && BoxesOk(s.p, s.workers) && WorkingOk(s.p, s.workers) && IdsOk(s.p, s.workers) && PendingOk(s.p, s.workers)
    && CurrentOk(s.p, s.workers)
  }

  ghost predicate DatabaseOk(s: System) {
    && TasksOk(s.workers, s.db, s.commits) && WaitingOk(s.p, s.workers, s.commits) && CommitsOk(s.commits, s.p.posted)
    && AnswersOk(s.p.calledBack, s.commits)
    && (s.parentTxn <==> s.p.activeWriter == OtherWriter)
  }

  ghost predicate Inv(s: System) { ClientOk(s.p, s.next) && WorkersOk(s) && DatabaseOk(s) }

  lemma InitiallyOk(db: Db)
    ensures Inv(Initial(db))
  {
    assert !HasJob(InitialParent(), 0);
    assert JobIds([]) == [] && CallbackIds([]) == [] && Upto(0) == [] && IdSet([]) == {};
  }
}
