/**
 The whole two-isolate system: the client, every Worker it ever started (also
 those it has given up on, which keep running), the message channels, Worker
 death at any step, other writers of the parent isolate, and the database.
 */
module BatchSystem {
  import opened Common
  import opened BatchExecutor
  import opened BatchProtocol

  /** Where a Worker is with a job: its native transaction, and whether it answered. */
  datatype Stage = NotBegun | Open(txn: Db) | Ended(committed: bool) | Answered(committed: bool)

  datatype Task = Task(
    id: Id, operations: seq<Operation>, terminateAfterBegin: bool,
    base: Db, stage: Stage, results: seq<BatchResult>, faults: seq<OpFaults>)

  datatype Phase = Unstarted | Initializing | Up

  /** `task` is the job being run or the last one answered; `out` is not yet delivered. */
  datatype Worker = Worker(phase: Phase, dead: bool, out: seq<Reply>, task: Option<Task>)

  datatype Commit = Commit(
    id: Id, operations: seq<Operation>, faults: seq<OpFaults>, before: Db, after: Db, results: seq<BatchResult>)

  datatype System = System(
    p: Parent, next: Id, workers: seq<Worker>, parentTxn: bool, db: Db, commits: seq<Commit>)

  datatype Event =
    | Enqueue(operations: seq<Operation>, terminateAfterBegin: bool, f: HostFaults)
    | BeginOtherWriter
    | EndOtherWriter(db: Db)
    | CloseClient
    | RunMicrotask
    | Deliver(w: Id, releaseFails: bool, f: HostFaults)
    | ErrorEvent(w: Id)
    | Take(w: Id)
    | FinishInitialization(w: Id)
    | BeginTask(w: Id, ok: bool)
    | RunOperation(w: Id, faults: OpFaults)
    | CommitTask(w: Id, ok: bool)
    | Answer(w: Id)
    | Die(w: Id)

  /** No JavaScript array is longer. */
  const MAX_ARRAY_LENGTH := 0xFFFF_FFFF

  /** The number a result travels as. */
  function Code(r: BatchResult): int {
    match r
    case Success => 0
    case ConditionNotMet => 1
    case NotFound => 2
    case BadValsize => 3
  }

  /** Callers tell the results apart by these numbers, which are part of the interface. */
  lemma CodesAreFixed(r: BatchResult, q: BatchResult)
    ensures Code(r) == Code(q) <==> r == q
    ensures [Code(Success), Code(ConditionNotMet), Code(NotFound), Code(BadValsize)] == [0, 1, 2, 3]
  {}

  function Initial(db: Db): System { System(InitialParent(), 0, [], false, db, []) }

  /** The parent moved to `p`, perhaps starting one more Worker. */
  function WithParent(s: System, p: Parent): System {
    s.(p := p,
       workers := if p.worker == Some(|s.workers|) then s.workers + [Worker(Unstarted, false, [], None)] else s.workers)
  }

  function WithWorker(s: System, w: Id, worker: Worker): System
    requires w < |s.workers|
  {
    s.(workers := s.workers[w := worker])
  }

  function Taken(p: Parent, w: Id): Parent
    requires Box(p, w) != []
  {
    p.(inboxes := p.inboxes[w := Box(p, w)[1..]])
  }

  /** The Worker takes its next message; a job waits until initialization is over. */
  function TakeMessage(s: System, w: Id): System
    requires w < |s.workers| && Box(s.p, w) != []
  {
    var worker, message := s.workers[w], Box(s.p, w)[0];
    match message
    case Start =>
      WithWorker(s.(p := Taken(s.p, w)), w,
                 if worker.phase == Unstarted then worker.(phase := Initializing) else worker.(dead := true))
    case PostedJob(id, operations, terminateAfterBegin) =>
      match worker.phase
      case Unstarted => WithWorker(s.(p := Taken(s.p, w)), w, worker.(dead := true))
      case Initializing => s
      case Up =>
        if worker.task.Some? && !worker.task.value.stage.Answered? then s
        else
          WithWorker(s.(p := Taken(s.p, w)), w,
                     worker.(task := Some(Task(id, operations, terminateAfterBegin, map[], NotBegun, [], []))))
  }

  /** A step of the job the Worker is running. */
  function StepTask(s: System, w: Id, e: Event): System
    requires w < |s.workers| && s.workers[w].task.Some?
  {
    var worker, task := s.workers[w], s.workers[w].task.value;
    match e
    case BeginTask(_, ok) =>
      if task.stage != NotBegun then s
      else WithWorker(s, w,
                      worker.(task := Some(task.(base := s.db, stage := if ok then Open(s.db) else Ended(false)))))
    case RunOperation(_, f) =>
      if !task.stage.Open? || task.terminateAfterBegin || |task.results| >= |task.operations| then s
      else
        (match Attempt(task.stage.txn, task.operations[|task.results|], f)
         case None => WithWorker(s, w, worker.(task := Some(task.(stage := Ended(false)))))
         case Some((db, r)) =>
           WithWorker(s, w, worker.(
             out := worker.out + [Progress(task.id, [(|task.results|, Code(r))])],
             task := Some(task.(stage := Open(db), results := task.results + [r], faults := task.faults + [f])))))
    case CommitTask(_, ok) =>
      if !task.stage.Open? || task.terminateAfterBegin || |task.results| != |task.operations| then s
      else
        var ended := WithWorker(s, w, worker.(task := Some(task.(stage := Ended(ok)))));
        if ok
        then ended.(db := task.stage.txn,
                    commits := s.commits
                        + [Commit(task.id, task.operations, task.faults, s.db, task.stage.txn, task.results)])
        else ended
    case Answer(_) =>
      if !task.stage.Ended? then s
      else WithWorker(s, w, worker.(
             out := worker.out + [if task.stage.committed then Complete(task.id) else Failed(task.id)],
             task := Some(task.(stage := Answered(task.stage.committed)))))
    case _ => s
  }

  /** A message of Worker `w` reaches the event loop once no microtask is due. */
  function DeliverMessage(s: System, w: Id, releaseFails: bool, f: HostFaults): System
    requires w < |s.workers| && s.workers[w].out != []
  {
    var popped := WithWorker(s, w, s.workers[w].(out := s.workers[w].out[1..]));
    if s.p.worker != Some(w) then popped
    else WithParent(popped, Handled(s.p, s.workers[w].out[0], releaseFails, f, |s.workers|))
  }

  function Next(s: System, e: Event): System {
    match e
    case Enqueue(operations, terminateAfterBegin, f) =>
      if s.p.closed || s.p.poisoned || |operations| > MAX_ARRAY_LENGTH then s
      else WithParent(s.(next := s.next + 1),
                      Enqueued(s.p, NewJob(s.next, operations, terminateAfterBegin), f, |s.workers|))
    case BeginOtherWriter =>
      if s.p.activeWriter != NoOwner || s.p.poisoned then s
      else s.(parentTxn := true, p := s.p.(activeWriter := OtherWriter))
    case EndOtherWriter(db) =>
      if !s.parentTxn then s
      else s.(parentTxn := false, p := s.p.(activeWriter := NoOwner), db := db)
    case CloseClient =>
      if s.p.active.Some? || s.p.queue != [] || s.p.activeWriter != NoOwner || s.p.leased != {} then s
      else s.(p := Closed(s.p))
    case RunMicrotask =>
      if s.p.microtasks == [] then s else s.(p := MicrotaskRun(s.p))
    case Deliver(w, releaseFails, f) =>
      if s.p.microtasks != [] || w >= |s.workers| || s.workers[w].out == [] then s
      else DeliverMessage(s, w, releaseFails, f)
    case ErrorEvent(w) =>
      if s.p.microtasks != [] || s.p.worker != Some(w) then s else s.(p := FailedProtocol(s.p))
    case Take(w) =>
      if w >= |s.workers| || s.workers[w].dead || Box(s.p, w) == [] then s else TakeMessage(s, w)
    case FinishInitialization(w) =>
      if w >= |s.workers| || s.workers[w].dead || s.workers[w].phase != Initializing then s
      else WithWorker(s, w, s.workers[w].(phase := Up, out := s.workers[w].out + [Ready]))
    case Die(w) =>
      if w >= |s.workers| then s else WithWorker(s, w, s.workers[w].(dead := true))
    case _ =>
      if e.w >= |s.workers| || s.workers[e.w].dead || s.workers[e.w].task == None then s else StepTask(s, e.w, e)
  }

  function RunEvents(s: System, events: seq<Event>): System
    decreases |events|
  {
    if events == [] then s else RunEvents(Next(s, events[0]), events[1..])
  }

  // --------------------------------------------------------- client invariant

  function JobIds(queue: seq<Job>): (ids: seq<Id>)
    ensures |ids| == |queue|
  {
    seq(|queue|, i requires 0 <= i < |queue| => queue[i].id)
  }

  function CallbackIds(calls: seq<Callback>): (ids: seq<Id>)
    ensures |ids| == |calls|
  {
    seq(|calls|, i requires 0 <= i < |calls| => calls[i].id)
  }

  function Upto(n: nat): seq<Id> { seq(n, i => i) }

  /** A job as it was enqueued. */
  predicate Fresh(job: Job) {
    job == NewJob(job.id, job.operations, job.terminateAfterBegin) && |job.operations| <= MAX_ARRAY_LENGTH
  }

  /** The fields of the client agree with each other and with the shared environment. */
  ghost predicate Shape(p: Parent) {
    && p.jobs == (if p.active.Some? then [p.active.value.id] else []) + JobIds(p.queue)
    && (forall i :: 0 <= i < |p.queue| ==> Fresh(p.queue[i]))
    && (p.active == None ==>
          p.queue == [] && p.reservation == None && p.dispatched == None && !p.activeWriter.BatchWriter?)
    && (p.active.Some? ==>
          && !p.closed && !p.poisoned && p.worker.Some?
          && p.reservation == Some(p.active.value.id) && p.activeWriter == BatchWriter(p.active.value.id)
          && (p.ready ==> p.dispatched == Some(p.active.value.id))
          && (p.dispatched == None ==> Fresh(p.active.value)))
    && (p.dispatched.Some? ==> p.ready)
    && (p.ready ==> p.worker.Some?)
    && (p.worker.Some? && !p.ready ==> p.active.Some?)
    && (p.closed ==> p.worker == None)
    && (p.poisoned ==> p.closed && p.activeWriter == NoOwner)
    && p.leased == IdSet(p.jobs)
  }

  /** Every job enqueued was called back, is due, or is retained, in that order. */
  ghost predicate Conserved(p: Parent, next: Id) {
    CallbackIds(p.calledBack) + p.microtasks + p.jobs == Upto(next)
  }

  /** Which jobs reached a Worker. */
  ghost predicate PostedOk(p: Parent, next: Id) {
    && (forall id :: id in p.posted ==> id < next)
    && (forall id :: id in p.jobs ==> (id in p.posted <==> p.dispatched == Some(id)))
    && (forall id :: id in p.microtasks ==> id !in p.posted)
    && (forall i :: 0 <= i < |p.calledBack| && p.calledBack[i].error == Some(NotDispatched) ==>
        p.calledBack[i].id !in p.posted)
    && (forall i :: 0 <= i < |p.calledBack| && p.calledBack[i].error == Some(EnvironmentPoisoned) ==> p.poisoned)
  }
}
