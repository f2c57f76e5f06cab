/**
 How jobs reach a Worker.  A client recovers exactly for a fault of the host, for a
 writer slot that is taken, or for a Worker lost before it was given a job; a run in
 which nothing of the kind happens and LMDB accepts every call serves every job, one
 after the other, on the Worker at hand.
 */
module BatchDispatch {
  import opened Common
  import opened BatchExecutor
  import opened BatchProtocol
  import opened BatchSystem
  import opened BatchClientLemmas
  import opened BatchInvariant
  import opened BatchHistory
  import opened BatchWorkerLemmas
  import opened BatchParentLemmas
  import opened BatchDeliveryLemmas
  import opened BatchRuns
  import opened BatchTermination

  // ------------------------------------------------------------- activation

  /** An idle Worker is given the job at once; without one a Worker is started. */
  lemma ActivatesOn(p: Parent, job: Job, f: HostFaults, n: Id)
    requires p.activeWriter == NoOwner && !p.poisoned && (p.ready <==> p.worker.Some?)
    ensures var q := Activated(p, job, f, n);
      && (p.worker.Some? && !f.postFails ==>
            && q.worker == p.worker && q.ready && q.active == Some(job) && q.dispatched == Some(job.id)
            && q.activeWriter == BatchWriter(job.id) && q.posted == p.posted + {job.id} && q.queue == p.queue
            && q.inboxes == p.inboxes[p.worker.value := Box(p, p.worker.value)
                              + [PostedJob(job.id, job.operations, job.terminateAfterBegin)]])
      && (p.worker == None && !f.startFails ==>
            && q.worker == Some(n) && !q.ready && q.active == Some(job) && q.dispatched == p.dispatched
            && q.activeWriter == BatchWriter(job.id) && q.posted == p.posted && q.queue == p.queue
            && q.inboxes == p.inboxes[n := [Start]])
      && (if (p.worker.Some? && f.postFails) || (p.worker == None && f.startFails)
          then p.closed || q.microtasks == p.microtasks + p.jobs else q.microtasks == p.microtasks)
  {
    hide IdSet, Box;
    SameBox(p, p.(reservation := Some(job.id), activeWriter := BatchWriter(job.id), active := Some(job)));
  }

  // -------------------------------------------------- exactly when it recovers

  /** What makes the client fail every retained job before it reaches a Worker. */
  predicate Recovers(s: System, e: Event) {
    match e
    case Enqueue(operations, _, f) =>
      && !s.p.closed && !s.p.poisoned && |operations| <= MAX_ARRAY_LENGTH && s.p.active == None
      && (s.p.activeWriter != NoOwner || if s.p.worker.Some? then f.postFails else f.startFails)
    case Deliver(w, _, f) =>
      && s.p.microtasks == [] && s.p.worker == Some(w) && w < |s.workers| && s.workers[w].out != [] && f.postFails
      && (s.workers[w].out[0].Ready? || (!s.workers[w].out[0].Progress? && s.p.queue != []))
    case ErrorEvent(w) => s.p.microtasks == [] && s.p.worker == Some(w) && s.p.dispatched == None && s.p.jobs != []
    case _ => false
  }

  /** Callbacks of recovered jobs become due exactly then. */
  lemma RecoversIff(s: System, e: Event)
    requires Inv(s)
    ensures |Next(s, e).p.microtasks| > |s.p.microtasks| <==> Recovers(s, e)
    ensures !Recovers(s, e) && !e.RunMicrotask? ==> Next(s, e).p.microtasks == s.p.microtasks
  {
    hide Inv, Handled, Enqueued, FailedProtocol, Attempt;
    match e
    case Enqueue(operations, terminateAfterBegin, f) => EnqueueRecovers(s, operations, terminateAfterBegin, f);
    case Deliver(w, releaseFails, f) =>
      if s.p.microtasks == [] && w < |s.workers| && s.workers[w].out != [] && s.p.worker == Some(w) {
        DeliverRecovers(s, w, releaseFails, f);
      }
    case ErrorEvent(w) => if s.p.worker == Some(w) { ErrorRecovers(s, w); }
    case RunMicrotask => if s.p.microtasks != [] { assert |MicrotaskRun(s.p).microtasks| < |s.p.microtasks|; }
    case _ =>
  }

  /** A recovered job is the next to be called back, in its turn, and told that it was not dispatched. */
  lemma RecoveredIsToldSo(s: System)
    requires Inv(s) && s.p.microtasks != []
    ensures var q := Next(s, RunMicrotask).p;
      && q.microtasks == s.p.microtasks[1..]
      && q.calledBack == s.p.calledBack + [Callback(|s.p.calledBack|, Some(NotDispatched), [])]
  {
    hide DatabaseOk, WorkersOk, PostedOk, Shape;
    Positions(s.p, s.next);
  }

  lemma EnqueueRecovers(s: System, operations: seq<Operation>, terminateAfterBegin: bool, f: HostFaults)
    requires Inv(s)
    ensures var e := Enqueue(operations, terminateAfterBegin, f);
      && (Recovers(s, e) ==> |Next(s, e).p.microtasks| > |s.p.microtasks|)
      && (!Recovers(s, e) ==> Next(s, e).p.microtasks == s.p.microtasks)
  {
    IdleClient(s);
    hide Inv, Activated, IdSet;
    var job := NewJob(s.next, operations, terminateAfterBegin);
    var p1 := s.p.(jobs := s.p.jobs + [job.id], leased := s.p.leased + {job.id});
    if !s.p.closed && !s.p.poisoned && |operations| <= MAX_ARRAY_LENGTH && s.p.active == None {
      if s.p.activeWriter != NoOwner {
        SlotTaken(p1, job, f, |s.workers|);
      } else {
        ActivatesOn(p1, job, f, |s.workers|);
      }
    }
  }

  lemma SlotTaken(p: Parent, job: Job, f: HostFaults, n: Id)
    requires p.activeWriter != NoOwner && !p.closed
    ensures Activated(p, job, f, n).microtasks == p.microtasks + p.jobs
  {
    hide IdSet;
  }

  /** What the invariant says of a client without an active job. */
  lemma IdleClient(s: System)
    requires Inv(s)
    ensures s.p.active == None ==>
      s.p.queue == [] && !s.p.activeWriter.BatchWriter? && s.p.dispatched == None && s.p.reservation == None
    ensures s.p.active == None ==> (s.p.ready <==> s.p.worker.Some?)
    ensures s.p.jobs != [] <==> s.p.active.Some?
    ensures s.p.active.Some? ==> !s.p.closed && !s.p.poisoned && s.p.worker.Some?
  {
    hide DatabaseOk, WorkersOk, Conserved, PostedOk, IdSet, Fresh;
    assert JobIds([]) == [];
  }

  lemma ErrorRecovers(s: System, w: Id)
    requires Inv(s) && s.p.worker == Some(w)
    ensures var e := ErrorEvent(w);
      && (Recovers(s, e) ==> |Next(s, e).p.microtasks| > |s.p.microtasks|)
      && (!Recovers(s, e) ==> Next(s, e).p.microtasks == s.p.microtasks)
  {
    NotClosed(s);
    hide Inv, IdSet, FailAll;
  }

  /** The first message of the current Worker, when it answers, lets the job go and activates the next. */
  lemma DeliverRecovers(s: System, w: Id, releaseFails: bool, f: HostFaults)
    requires Inv(s) && s.p.microtasks == [] && s.p.worker == Some(w) && w < |s.workers| && s.workers[w].out != []
    ensures var e := Deliver(w, releaseFails, f);
      && (Recovers(s, e) ==> |Next(s, e).p.microtasks| > |s.p.microtasks|)
      && (!Recovers(s, e) ==> Next(s, e).p.microtasks == s.p.microtasks)
  {
    hide Inv, CurrentWorker, ReadyArrives, ProgressArrives, AnswerArrives, Box, TaskOk, DeliverMessage, Recovers;
    TaskOf(s, w);
    OpenClient(s);
    FirstMessage(s.p, s.workers[w], Box(s.p, w));
    if ReadyArrives(s.p, s.workers[w], Box(s.p, w)) {
      ReadyStepEffect(s, w, releaseFails, f);
    } else if ProgressArrives(s.p.active.value, s.workers[w], Box(s.p, w)) {
      ProgressStepEffect(s, w, releaseFails, f);
    } else {
      AnswerStepEffect(s, w, releaseFails, f);
    }
  }

  // --------------------------------------------------- the current Worker's messages

  /** Once it is ready the current Worker is given the active job. */
  lemma ReadyStepEffect(s: System, w: Id, releaseFails: bool, f: HostFaults)
    requires Inv(s) && s.p.microtasks == [] && s.p.worker == Some(w) && w < |s.workers| && s.workers[w].out != []
    requires ReadyArrives(s.p, s.workers[w], Box(s.p, w))
    ensures s.p.active.Some?
    ensures var e, job := Deliver(w, releaseFails, f), s.p.active.value;
      var q := Next(s, e).p;
      && (Recovers(s, e) <==> f.postFails)
      && (f.postFails ==> q.microtasks == s.p.jobs && q.jobs == [] && s.p.jobs != [])
      && (!f.postFails ==> q == PostedTo(s.p.(ready := true), w, job))
  {
    OpenClient(s);
    NotClosed(s);
    IdleClient(s);
    hide Inv, IdSet, Box, PostedTo;
  }

  /** A result that arrives is recorded, and nothing else happens. */
  lemma ProgressStepEffect(s: System, w: Id, releaseFails: bool, f: HostFaults)
    requires Inv(s) && s.p.microtasks == [] && s.p.worker == Some(w) && w < |s.workers| && s.workers[w].out != []
    requires s.p.ready && s.p.active.Some? && s.p.dispatched == Some(s.p.active.value.id)
    requires ProgressArrives(s.p.active.value, s.workers[w], Box(s.p, w))
    ensures var e, job, task := Deliver(w, releaseFails, f), s.p.active.value, s.workers[w].task.value;
      && !Recovers(s, e) && job.receivedCount < |task.results|
      && Acceptable(job, (job.receivedCount, Code(task.results[job.receivedCount])))
      && Next(s, e).p == s.p.(active := Some(Apply(job, (job.receivedCount, Code(task.results[job.receivedCount])))))
  {
    NotClosed(s);
    hide Inv, Received, ProgressFrom, Box, ApplyAll, Finished;
    AppliedProgress(s.p.active.value, s.workers[w].task.value.results);
  }

  /** An answer calls the job back and gives the Worker to the next one. */
  lemma AnswerStepEffect(s: System, w: Id, releaseFails: bool, f: HostFaults)
    requires Inv(s) && s.p.microtasks == [] && s.p.worker == Some(w) && w < |s.workers| && s.workers[w].out != []
    requires s.p.ready && s.p.active.Some? && s.p.dispatched == Some(s.p.active.value.id)
    requires AnswerArrives(s.p.active.value, s.workers[w], Box(s.p, w))
    ensures var e, q := Deliver(w, releaseFails, f), Next(s, Deliver(w, releaseFails, f)).p;
      && (Recovers(s, e) <==> f.postFails && s.p.queue != [])
      && (Recovers(s, e) ==> |q.microtasks| > 0) && (!Recovers(s, e) ==> q.microtasks == [])
      && AnsweredAs(s, q, w, releaseFails) && (!Recovers(s, e) ==> MovedOn(s.p, q, w))
  {
    hide Inv, DeliverMessage, AnsweredAs, MovedOn, Finished, Received, ProgressFrom, TaskOk, Box;
    var job, task := s.p.active.value, s.workers[w].task.value;
    var error := if task.stage.committed then None else Some(WorkerFailure);
    Parts(s);
    TaskOf(s, w);
    AnswerIsTrue(task, s.db, s.commits, job, releaseFails);
    AnswerHandled(s, w, releaseFails, f);
    FinishedMovesOn(s.p, error, releaseFails, f, |s.workers|, s.next);
    FinishedEffect(s.p, error, releaseFails, f, |s.workers|, s.next);
    AnsweredFrom(s, Next(s, Deliver(w, releaseFails, f)).p, w, releaseFails);
  }

  lemma AnswerHandled(s: System, w: Id, releaseFails: bool, f: HostFaults)
    requires Inv(s) && s.p.microtasks == [] && s.p.worker == Some(w) && w < |s.workers| && s.workers[w].out != []
    requires s.p.ready && s.p.active.Some? && s.p.dispatched == Some(s.p.active.value.id)
    requires AnswerArrives(s.p.active.value, s.workers[w], Box(s.p, w))
    requires s.workers[w].task.value.stage.committed ==> EveryResult(s.p.active.value)
    ensures var error := if s.workers[w].task.value.stage.committed then None else Some(WorkerFailure);
      Next(s, Deliver(w, releaseFails, f)).p
        == Finished(s.p.(dispatched := None), s.p.active.value, error, releaseFails, f, |s.workers|)
    ensures Recovers(s, Deliver(w, releaseFails, f)) <==> f.postFails && s.p.queue != []
  {
    NotClosed(s);
    hide Inv, Finished, EveryResult, Received, ProgressFrom, Box;
  }

  /** The callback an answer makes. */
  predicate AnsweredAs(s: System, q: Parent, w: Id, releaseFails: bool)
    requires w < |s.workers| && s.p.active.Some?
    requires s.workers[w].task.Some? && s.workers[w].task.value.stage.Answered?
  {
    var job, committed := s.p.active.value, s.workers[w].task.value.stage.committed;
    var error := if !committed then Some(WorkerFailure) else if releaseFails then Some(CleanupFailure) else None;
    q.calledBack == s.p.calledBack + [Callback(job.id, error, if error == None then job.results else [])]
  }

  lemma AnsweredFrom(s: System, q: Parent, w: Id, releaseFails: bool)
    requires w < |s.workers| && s.p.active.Some?
    requires s.workers[w].task.Some? && s.workers[w].task.value.stage.Answered?
    requires var job := s.p.active.value;
      var error := if s.workers[w].task.value.stage.committed then None else Some(WorkerFailure);
      var outcome := if error == None && releaseFails then Some(CleanupFailure) else error;
      q.calledBack == s.p.calledBack + [Callback(job.id, outcome, if outcome == None then job.results else [])]
    ensures AnsweredAs(s, q, w, releaseFails)
  {}

  /** The Worker stays; the first queued job, if any, takes the slot and is posted to it. */
  predicate MovedOn(p: Parent, q: Parent, w: Id) {
    && q.worker == Some(w) && q.ready && q.microtasks == p.microtasks
    && if p.queue == [] then
         q.active == None && q.dispatched == None && q.queue == [] && q.jobs == [] && q.activeWriter == NoOwner
         && q.inboxes == p.inboxes && q.posted == p.posted
       else
         var next := p.queue[0];
         && q.active == Some(next) && q.dispatched == Some(next.id) && q.queue == p.queue[1..]
         && q.activeWriter == BatchWriter(next.id) && q.posted == p.posted + {next.id}
         && q.inboxes == p.inboxes[w := Box(p, w) + [PostedJob(next.id, next.operations, next.terminateAfterBegin)]]
  }

  lemma FinishedMovesOn(p: Parent, error: Option<Failure>, releaseFails: bool, f: HostFaults, n: Id, next: Id)
    requires ClientOk(p, next) && p.active.Some? && p.microtasks == [] && p.ready && p.worker.Some?
    ensures var q := Finished(p.(dispatched := None), p.active.value, error, releaseFails, f, n);
      if p.queue != [] && f.postFails then |q.microtasks| > 0
      else q.microtasks == [] && MovedOn(p, q, p.worker.value)
  {
    SettledFields(p, next);
    hide ClientOk, Activated, Settled, IdSet, Box;
    var p1 := Settled(p.(dispatched := None), p.active.value);
    if p.queue == [] {
      assert JobIds([]) == [];
    } else {
      NotRefused(p, next);
      var p2 := p1.(queue := p1.queue[1..]);
      SameBox(p, p2);
      ActivatesOn(p2, p.queue[0], f, n);
      assert |p2.jobs| == |p.queue|;
    }
  }

  lemma SameBox(p: Parent, q: Parent)
    requires q.inboxes == p.inboxes
    ensures forall w: Id :: Box(q, w) == Box(p, w)
  {}

  lemma NotRefused(p: Parent, next: Id)
    requires ClientOk(p, next) && p.active.Some?
    ensures !p.closed && !p.poisoned
  {
    hide Conserved, PostedOk, IdSet, JobIds, Fresh;
  }

  // ------------------------------------------------------- no job is turned away

  /** No host call throws, no error is reported, and no other writer begins. */
  predicate Calm(e: Event) {
    match e
    case Enqueue(_, _, f) => !f.startFails && !f.postFails
    case Deliver(_, _, f) => !f.startFails && !f.postFails
    case ErrorEvent(_) => false
    case BeginOtherWriter => false
    case _ => true
  }

  /** Nothing was recovered, and nothing is about to be. */
  ghost predicate NothingRecovered(s: System) {
    && s.p.microtasks == [] && s.p.activeWriter != OtherWriter
    && forall i :: 0 <= i < |s.p.calledBack| ==> s.p.calledBack[i].error != Some(NotDispatched)
  }

  /** A callback that says the job was not dispatched is one of a recovery. */
  lemma NewCallbacks(s: System, e: Event)
    requires Inv(s) && s.p.microtasks == []
    ensures forall i :: |s.p.calledBack| <= i < |Next(s, e).p.calledBack| ==>
      Next(s, e).p.calledBack[i].error != Some(NotDispatched)
  {
    hide Inv, Next;
    NextKeeps(s, e);
    CallbacksGrow(s, e);
    forall i | |s.p.calledBack| <= i < |Next(s, e).p.calledBack|
      ensures Next(s, e).p.calledBack[i].error != Some(NotDispatched)
    {
      NewCallback(s, e, i);
    }
  }

  lemma NewCallback(s: System, e: Event, i: nat)
    requires Inv(s) && s.p.microtasks == [] && |s.p.calledBack| <= i < |Next(s, e).p.calledBack|
    ensures Next(s, e).p.calledBack[i].error != Some(NotDispatched)
  {
    hide Inv, Handled, Enqueued, FailedProtocol, Attempt;
    match e
    case Enqueue(operations, terminateAfterBegin, f) => EnqueueCallsNobody(s, operations, terminateAfterBegin, f);
    case Deliver(w, releaseFails, f) =>
      if s.p.worker == Some(w) && w < |s.workers| && s.workers[w].out != [] {
        DeliveredCallback(s, w, releaseFails, f);
      }
    case ErrorEvent(w) => ErrorCallbacks(s.p);
    case _ =>
  }

  lemma EnqueueCallsNobody(s: System, operations: seq<Operation>, terminateAfterBegin: bool, f: HostFaults)
    ensures Next(s, Enqueue(operations, terminateAfterBegin, f)).p.calledBack == s.p.calledBack
  {
    hide Activated;
    var job := NewJob(s.next, operations, terminateAfterBegin);
    ActivatedCallbacks(s.p.(jobs := s.p.jobs + [job.id], leased := s.p.leased + {job.id}), job, f, |s.workers|);
  }

  lemma ErrorCallbacks(p: Parent)
    ensures forall i :: |p.calledBack| <= i < |FailedProtocol(p).calledBack| ==>
      FailedProtocol(p).calledBack[i].error == Some(EnvironmentPoisoned)
  {
    hide IdSet;
  }

  lemma DeliveredCallback(s: System, w: Id, releaseFails: bool, f: HostFaults)
    requires Inv(s) && s.p.microtasks == [] && s.p.worker == Some(w) && w < |s.workers| && s.workers[w].out != []
    ensures forall i :: |s.p.calledBack| <= i < |Next(s, Deliver(w, releaseFails, f)).p.calledBack| ==>
      Next(s, Deliver(w, releaseFails, f)).p.calledBack[i].error != Some(NotDispatched)
  {
    hide Inv, CurrentWorker, ReadyArrives, ProgressArrives, AnswerArrives, Box, TaskOk, Next, Recovers, MovedOn;
    TaskOf(s, w);
    OpenClient(s);
    FirstMessage(s.p, s.workers[w], Box(s.p, w));
    if ReadyArrives(s.p, s.workers[w], Box(s.p, w)) {
      ReadyCallsNobody(s, w, releaseFails, f);
    } else if ProgressArrives(s.p.active.value, s.workers[w], Box(s.p, w)) {
      ProgressStepEffect(s, w, releaseFails, f);
    } else {
      AnswerStepEffect(s, w, releaseFails, f);
      StageOf(s, w);
    }
  }

  lemma StageOf(s: System, w: Id)
    requires w < |s.workers| && s.p.active.Some? && AnswerArrives(s.p.active.value, s.workers[w], Box(s.p, w))
    ensures s.workers[w].task.Some? && s.workers[w].task.value.stage.Answered?
  {
    hide Box, Received, ProgressFrom;
  }

  lemma ReadyCallsNobody(s: System, w: Id, releaseFails: bool, f: HostFaults)
    requires Inv(s) && s.p.microtasks == [] && s.p.worker == Some(w) && w < |s.workers| && s.workers[w].out != []
    requires ReadyArrives(s.p, s.workers[w], Box(s.p, w))
    ensures Next(s, Deliver(w, releaseFails, f)).p.calledBack == s.p.calledBack
  {
    OpenClient(s);
    hide Inv, IdSet, Box;
  }

  /** Over any calm run no job is called back as not dispatched, whatever Workers and LMDB do. */
  lemma {:induction false} NeverTurnedAway(s: System, events: seq<Event>)
    requires Inv(s) && NothingRecovered(s) && forall e :: e in events ==> Calm(e)
    ensures NothingRecovered(RunEvents(s, events))
    decreases |events|
  {
    hide Inv, Next, Recovers;
    if events != [] {
      var e := events[0];
      assert Calm(e);
      NotRecovering(s, e);
      RecoversIff(s, e);
      CallbacksGrow(s, e);
      NewCallbacks(s, e);
      NextKeeps(s, e);
      NoOtherWriter(s, e);
      NoMicrotask(s);
      forall d | d in events[1..] ensures Calm(d) { assert d in events; }
      NeverTurnedAway(Next(s, e), events[1..]);
    }
  }

  lemma NotRecovering(s: System, e: Event)
    requires Inv(s) && s.p.activeWriter != OtherWriter && Calm(e)
    ensures !Recovers(s, e)
  {
    IdleClient(s);
    hide Inv;
  }

  lemma NoOtherWriter(s: System, e: Event)
    requires Inv(s) && s.p.activeWriter != OtherWriter && !e.BeginOtherWriter?
    ensures Next(s, e).p.activeWriter != OtherWriter
  {
    hide Inv, Next;
    NextKeeps(s, e);
    SlotOf(s);
    SlotOf(Next(s, e));
    NoNewParentTxn(s, e);
  }

  lemma SlotOf(s: System)
    requires Inv(s)
    ensures s.parentTxn <==> s.p.activeWriter == OtherWriter
  {
    hide ClientOk, WorkersOk, TasksOk, WaitingOk, CommitsOk, AnswersOk;
  }

  lemma NoNewParentTxn(s: System, e: Event)
    requires !s.parentTxn && !e.BeginOtherWriter?
    ensures !Next(s, e).parentTxn
  {
    hide Handled, Enqueued, FailedProtocol, Attempt;
  }

  // ---------------------------------------------- runs in which nothing fails

  /** Worker `w`'s task has not failed and is not going to hang. */
  predicate Sound(worker: Worker) {
    worker.task.Some? ==>
      var task := worker.task.value;
      && !task.terminateAfterBegin && task.stage != Ended(false) && task.stage != Answered(false)
  }

  /** Every retained job, in the client or in hand, is an ordinary one, and the current Worker is well. */
  ghost predicate Smooth(s: System) {
    && Inv(s) && s.p.microtasks == [] && s.p.activeWriter != OtherWriter
    && (s.p.active.Some? ==> !s.p.active.value.terminateAfterBegin)
    && (forall i :: 0 <= i < |s.p.queue| ==> !s.p.queue[i].terminateAfterBegin)
    && (s.p.worker.Some? && s.p.worker.value < |s.workers| ==> !s.workers[s.p.worker.value].dead)
    && (s.p.worker.Some? && s.p.worker.value < |s.workers| && AtWork(s, s.p.worker.value) ==>
          Sound(s.workers[s.p.worker.value]))
  }

  /** Worker `w` has the dispatched job in hand. */
  predicate AtWork(s: System, w: Id) {
    w < |s.workers| && s.workers[w].task.Some? && s.p.dispatched == Some(s.workers[w].task.value.id)
  }

  /** The event brings no failure: of the host, of LMDB, of cleaning up, or of the current Worker. */
  predicate Favourable(s: System, e: Event) {
    match e
    case Enqueue(_, terminateAfterBegin, f) => !terminateAfterBegin && !f.startFails && !f.postFails
    case BeginOtherWriter => false
    case Deliver(_, releaseFails, f) => !releaseFails && !f.startFails && !f.postFails
    case ErrorEvent(w) => s.p.worker != Some(w)
    case Die(w) => s.p.worker != Some(w)
    case BeginTask(w, ok) => s.p.worker == Some(w) ==> ok
    case RunOperation(w, f) => s.p.worker == Some(w) ==> !f.get.OtherError? && !f.update.OtherError?
    case CommitTask(w, ok) => s.p.worker == Some(w) ==> ok
    case _ => true
  }

  predicate FavourableRun(s: System, events: seq<Event>)
    decreases |events|
  {
    events == [] || (Favourable(s, events[0]) && FavourableRun(Next(s, events[0]), events[1..]))
  }

  /** What such an event promises: the callbacks it makes carry no error, and a Worker at hand stays at hand. */
  ghost predicate WellServed(s: System, t: System) {
    && s.p.calledBack <= t.p.calledBack
    && (forall i :: |s.p.calledBack| <= i < |t.p.calledBack| ==> t.p.calledBack[i].error == None)
    && (s.p.worker.Some? && !t.p.closed ==> t.p.worker == s.p.worker)
  }

  lemma AttemptSucceeds(db: Db, op: Operation, f: OpFaults)
    requires !f.get.OtherError? && !f.update.OtherError?
    ensures Attempt(db, op, f).Some?
  {}

  /** A Worker that takes the dispatched job has a sound task. */
  lemma TakeSmooth(s: System, w: Id)
    requires Smooth(s)
    ensures Smooth(Next(s, Take(w))) && WellServed(s, Next(s, Take(w)))
  {
    hide Inv, Smooth, WellServed, Sound, TakeMessage;
    SmoothIsInv(s);
    NextKeeps(s, Take(w)) by { hide Next; }
    NothingServed(s);
    if w < |s.workers| && !s.workers[w].dead && Box(s.p, w) != [] && TakeMessage(s, w) != s {
      TakeFrame(s, w);
      if s.p.worker == Some(w) { TakenSound(s, w); }
      TakenSmooth(s, TakeMessage(s, w), w);
    }
  }

  lemma TakeFrame(s: System, w: Id)
    requires w < |s.workers| && Box(s.p, w) != [] && TakeMessage(s, w) != s
    ensures var t := TakeMessage(s, w);
      t.p == s.p.(inboxes := t.p.inboxes) && |t.workers| == |s.workers| && t.workers == s.workers[w := t.workers[w]]
  {
    hide Box;
  }

  lemma TakenSound(s: System, w: Id)
    requires Smooth(s) && s.p.worker == Some(w) && w < |s.workers| && Box(s.p, w) != [] && TakeMessage(s, w) != s
    ensures var t := TakeMessage(s, w);
      w < |t.workers| && t.workers[w].dead == s.workers[w].dead
      && (t.workers[w].task == s.workers[w].task || Sound(t.workers[w]))
  {
    StartsOrOnItsWay(s, w);
    hide Inv, Box;
  }

  lemma TakenSmooth(s: System, t: System, w: Id)
    requires Smooth(s) && Inv(t) && w < |s.workers| && t.p == s.p.(inboxes := t.p.inboxes)
    requires |t.workers| == |s.workers| && t.workers == s.workers[w := t.workers[w]]
    requires s.p.worker == Some(w) ==>
      t.workers[w].dead == s.workers[w].dead && (t.workers[w].task == s.workers[w].task || Sound(t.workers[w]))
    ensures Smooth(t) && WellServed(s, t)
  {
    hide Inv;
  }

  lemma StartsOrOnItsWay(s: System, w: Id)
    requires Inv(s) && w < |s.workers| && Box(s.p, w) != []
    ensures s.p.worker == Some(w) ==>
      if s.p.ready then s.p.active.Some? && OnItsWay(s.p.active.value, s.workers[w], Box(s.p, w))
      else s.workers[w].phase == Unstarted && Box(s.p, w) == [Start]
  {
    hide Inv, TaskOk, Received, ProgressFrom, Box;
    TaskOf(s, w);
    OpenClient(s);
  }

  /** A step that changes Worker `w` only, and lets it neither die nor fail while it is the current one. */
  lemma SwapSmooth(s: System, t: System, w: Id)
    requires Smooth(s) && Inv(t) && t.p == s.p && w < |s.workers| && |t.workers| == |s.workers|
    requires t.workers == s.workers[w := t.workers[w]]
    requires s.p.worker == Some(w) ==> t.workers[w].dead == s.workers[w].dead
    requires t.workers[w].task.Some? ==>
      s.workers[w].task.Some? && t.workers[w].task.value.id == s.workers[w].task.value.id
    requires s.p.worker == Some(w) && Sound(s.workers[w]) ==> Sound(t.workers[w])
    ensures Smooth(t) && WellServed(s, t)
  {
    hide Inv, Sound;
  }

  /** A favourable step of a job in hand leaves it sound. */
  lemma TaskStepSound(s: System, w: Id, e: Event)
    requires e.BeginTask? || e.RunOperation? || e.CommitTask? || e.Answer?
    requires w < |s.workers| && s.workers[w].task.Some? && e.w == w && s.p.worker == Some(w) && Favourable(s, e)
    ensures Sound(s.workers[w]) ==> w < |StepTask(s, w, e).workers| && Sound(StepTask(s, w, e).workers[w])
  {
    hide Attempt;
    var task := s.workers[w].task.value;
    if e.RunOperation? && task.stage.Open? && |task.results| < |task.operations| {
      AttemptSucceeds(task.stage.txn, task.operations[|task.results|], e.faults);
    }
  }

  lemma TaskStepFrame(s: System, w: Id, e: Event)
    requires w < |s.workers| && s.workers[w].task.Some?
    ensures var t := StepTask(s, w, e);
      && t.p == s.p && |t.workers| == |s.workers| && t.workers == s.workers[w := t.workers[w]]
      && t.workers[w].dead == s.workers[w].dead && t.workers[w].task.Some?
      && t.workers[w].task.value.id == s.workers[w].task.value.id
  {
    hide Attempt;
    assert s.workers == s.workers[w := s.workers[w]];
  }

  /** Every step inside a Worker, the current one's own favourable. */
  lemma WorkSmooth(s: System, e: Event)
    requires Smooth(s) && Favourable(s, e)
    requires e.BeginTask? || e.RunOperation? || e.CommitTask? || e.Answer? || e.FinishInitialization? || e.Die?
    ensures Smooth(Next(s, e)) && WellServed(s, Next(s, e))
  {
    NextKeeps(s, e) by { hide Next; }
    SmoothIsInv(s);
    NothingServed(s);
    hide Inv, Smooth, WellServed, StepTask, Sound;
    if Next(s, e) != s {
      if e.FinishInitialization? || e.Die? {
        SameSound(s.workers[e.w], Next(s, e).workers[e.w]);
      } else {
        TaskStepFrame(s, e.w, e);
        if s.p.worker == Some(e.w) { TaskStepSound(s, e.w, e); }
      }
      SwapSmooth(s, Next(s, e), e.w);
    }
  }

  lemma SameSound(a: Worker, b: Worker)
    requires a.task == b.task
    ensures Sound(a) == Sound(b)
  {}

  lemma EnqueueSmooth(s: System, operations: seq<Operation>, f: HostFaults)
    requires Smooth(s) && !f.startFails && !f.postFails
    ensures var t := Next(s, Enqueue(operations, false, f)); Smooth(t) && WellServed(s, t)
  {
    hide Inv, Next, Recovers, WellServed, Smooth, EnqueuedOn;
    var e := Enqueue(operations, false, f);
    SmoothIsInv(s);
    SmoothSlot(s);
    NextKeeps(s, e);
    RecoversIff(s, e);
    NotRecovering(s, e);
    NoOtherWriter(s, e);
    EnqueueCallsNobody(s, operations, false, f);
    if !s.p.closed && !s.p.poisoned && |operations| <= MAX_ARRAY_LENGTH {
      EnqueuedAs(s, operations, f);
      NewlyPosted(s);
      EnqueuedServed(s, Next(s, e), NewJob(s.next, operations, false));
      EnqueuedSmooth(s, Next(s, e), NewJob(s.next, operations, false));
    } else {
      EnqueueRefused(s, e);
      NothingServed(s);
    }
  }

  lemma SmoothSlot(s: System)
    requires Smooth(s)
    ensures s.p.activeWriter != OtherWriter
  {
    hide Inv;
  }

  lemma EnqueueRefused(s: System, e: Event)
    requires e.Enqueue? && (s.p.closed || s.p.poisoned || |e.operations| > MAX_ARRAY_LENGTH)
    ensures Next(s, e) == s
  {}

  lemma EnqueuedServed(s: System, t: System, job: Job)
    requires EnqueuedOn(s, t, job) && t.p.calledBack == s.p.calledBack
    ensures WellServed(s, t)
  {}

  lemma EnqueuedSmooth(s: System, t: System, job: Job)
    requires Smooth(s) && Inv(t) && EnqueuedOn(s, t, job) && t.p.microtasks == [] && t.p.activeWriter != OtherWriter
    requires forall w: Id :: w < |s.workers| && s.workers[w].task.Some? ==> s.workers[w].task.value.id < s.next
    ensures Smooth(t)
  {
    WorkerKnown(s) by { hide Smooth; SmoothIsInv(s); }
    hide Inv, Sound;
  }

  /** What `job`, just enqueued, makes of the client and the Workers. */
  predicate EnqueuedOn(s: System, t: System, job: Job) {
    && job.id == s.next && !job.terminateAfterBegin
    && (s.p.worker.Some? ==> t.p.worker == s.p.worker && t.workers == s.workers)
    && (s.p.worker == None ==>
          t.p.worker == Some(|s.workers|) && t.workers == s.workers + [Worker(Unstarted, false, [], None)])
    && (s.p.active.Some? ==>
          t.p.active == s.p.active && t.p.queue == s.p.queue + [job] && t.p.dispatched == s.p.dispatched)
    && (s.p.active == None ==>
          && t.p.active == Some(job) && t.p.queue == []
          && t.p.dispatched == if s.p.worker.Some? then Some(job.id) else None)
  }

  /** An enqueued job waits, is posted to the Worker at hand, or has one started for it. */
  lemma EnqueuedAs(s: System, operations: seq<Operation>, f: HostFaults)
    requires Smooth(s) && !f.startFails && !f.postFails
    requires !s.p.closed && !s.p.poisoned && |operations| <= MAX_ARRAY_LENGTH
    ensures EnqueuedOn(s, Next(s, Enqueue(operations, false, f)), NewJob(s.next, operations, false))
  {
    IdleClient(s);
    OpenClient(s);
    WorkerKnown(s);
    hide Inv, Activated;
    var job := NewJob(s.next, operations, false);
    var p1 := s.p.(jobs := s.p.jobs + [job.id], leased := s.p.leased + {job.id});
    if s.p.active == None { ActivatesOn(p1, job, f, |s.workers|); }
  }

  lemma WorkerKnown(s: System)
    requires Inv(s)
    ensures s.p.worker.Some? ==> s.p.worker.value < |s.workers|
  {
    hide ClientOk, DatabaseOk, BoxesOk, WorkingOk, IdsOk, PendingOk, CurrentWorker;
  }

  /** No Worker has in hand a job that is not enqueued yet. */
  lemma NewlyPosted(s: System)
    requires Inv(s)
    ensures forall w: Id :: w < |s.workers| && s.workers[w].task.Some? ==> s.workers[w].task.value.id < s.next
    ensures forall w: Id, i :: w < |s.workers| && s.workers[w].task.Some? && 0 <= i < |s.p.queue| ==>
      s.workers[w].task.value.id != s.p.queue[i].id
  {
    hide DatabaseOk, BoxesOk, WorkingOk, PendingOk, CurrentOk, Conserved, IdSet, Fresh;
    Queued(s.p, s.next);
  }

  /** A queued job has not been posted. */
  lemma Queued(p: Parent, next: Id)
    requires ClientOk(p, next)
    ensures forall i :: 0 <= i < |p.queue| ==> p.queue[i].id !in p.posted
  {
    Positions(p, next);
    hide Conserved, IdSet, Fresh;
    forall i | 0 <= i < |p.queue| ensures p.queue[i].id !in p.posted {
      var k := i + if p.active.Some? then 1 else 0;
      assert p.jobs[k] == JobIds(p.queue)[i] == p.queue[i].id;
      assert p.queue[i].id in p.jobs;
      if p.active.Some? { assert p.jobs[0] == p.active.value.id; }
    }
  }

  lemma DeliverSmooth(s: System, w: Id, f: HostFaults)
    requires Smooth(s) && !f.startFails && !f.postFails
    ensures var t := Next(s, Deliver(w, false, f)); Smooth(t) && WellServed(s, t)
  {
    var e := Deliver(w, false, f);
    NextKeeps(s, e);
    RecoversIff(s, e);
    NotRecovering(s, e);
    NoOtherWriter(s, e);
    hide Inv, CurrentWorker, ReadyArrives, ProgressArrives, AnswerArrives, Box, TaskOk, Recovers, DeliverMessage;
    if w < |s.workers| && s.workers[w].out != [] {
      OutTaken(s, w, f);
      if s.p.worker == Some(w) {
        TaskOf(s, w);
        OpenClient(s);
        FirstMessage(s.p, s.workers[w], Box(s.p, w));
        if ReadyArrives(s.p, s.workers[w], Box(s.p, w)) {
          ReadySmooth(s, w, f);
        } else if ProgressArrives(s.p.active.value, s.workers[w], Box(s.p, w)) {
          ProgressSmooth(s, w, f);
        } else {
          AnswerSmooth(s, w, f);
        }
      }
    }
  }

  /** A delivery takes one message off Worker `w`, and starts no Worker while there is one. */
  lemma OutTaken(s: System, w: Id, f: HostFaults)
    requires Smooth(s) && w < |s.workers| && s.workers[w].out != [] && !f.startFails && !f.postFails
    ensures var t := Next(s, Deliver(w, false, f));
      && (s.p.worker != Some(w) ==> t == s.(workers := s.workers[w := s.workers[w].(out := s.workers[w].out[1..])]))
      && (s.p.worker.Some? && t.p.worker == s.p.worker ==>
            t.workers == s.workers[w := s.workers[w].(out := s.workers[w].out[1..])])
  {
    WorkerKnown(s);
    hide Inv, Handled;
  }

  lemma ReadySmooth(s: System, w: Id, f: HostFaults)
    requires Smooth(s) && s.p.worker == Some(w) && w < |s.workers| && s.workers[w].out != []
    requires ReadyArrives(s.p, s.workers[w], Box(s.p, w)) && !f.startFails && !f.postFails
    ensures var t := Next(s, Deliver(w, false, f)); Smooth(t) && WellServed(s, t)
  {
    var e := Deliver(w, false, f);
    NextKeeps(s, e);
    ReadyStepEffect(s, w, false, f);
    OutTaken(s, w, f);
    hide Inv, Next, Box;
  }

  lemma ProgressSmooth(s: System, w: Id, f: HostFaults)
    requires Smooth(s) && s.p.worker == Some(w) && w < |s.workers| && s.workers[w].out != []
    requires s.p.ready && s.p.active.Some? && s.p.dispatched == Some(s.p.active.value.id)
    requires ProgressArrives(s.p.active.value, s.workers[w], Box(s.p, w)) && !f.startFails && !f.postFails
    ensures var t := Next(s, Deliver(w, false, f)); Smooth(t) && WellServed(s, t)
  {
    var e := Deliver(w, false, f);
    NextKeeps(s, e);
    ProgressStepEffect(s, w, false, f);
    OutTaken(s, w, f);
    hide Inv, Next, Box, Received, ProgressFrom;
  }

  lemma AnswerSmooth(s: System, w: Id, f: HostFaults)
    requires Smooth(s) && s.p.worker == Some(w) && w < |s.workers| && s.workers[w].out != []
    requires s.p.ready && s.p.active.Some? && s.p.dispatched == Some(s.p.active.value.id)
    requires AnswerArrives(s.p.active.value, s.workers[w], Box(s.p, w)) && !f.startFails && !f.postFails
    ensures var t := Next(s, Deliver(w, false, f)); Smooth(t) && WellServed(s, t)
  {
    hide Inv, Next, Box, AnswerArrives, Recovers, MovedOn, AnsweredAs, Smooth, WellServed, AtWork;
    var e := Deliver(w, false, f);
    SmoothIsInv(s);
    NextKeeps(s, e);
    StageOf(s, w);
    AnswerStepEffect(s, w, false, f);
    OutTaken(s, w, f);
    InHand(s, w);
    NewlyPosted(s);
    MovedKeepsWorker(s.p, Next(s, e).p, w);
    AnsweredServed(s, Next(s, e), w);
    MovedSmooth(s, Next(s, e), w);
  }

  /** The answer of a sound task says `complete`, so the callback has no error. */
  lemma AnsweredServed(s: System, t: System, w: Id)
    requires Smooth(s) && s.p.worker == Some(w) && AtWork(s, w) && s.p.active.Some?
    requires s.workers[w].task.value.stage.Answered? && AnsweredAs(s, t.p, w, false) && t.p.worker == s.p.worker
    ensures WellServed(s, t)
  {
    hide Inv;
  }

  /** The client moves on to a fresh job for the same Worker, or to none. */
  lemma MovedSmooth(s: System, t: System, w: Id)
    requires Smooth(s) && Inv(t) && s.p.worker == Some(w) && w < |s.workers| && MovedOn(s.p, t.p, w)
    requires s.workers[w].out != []
    requires t.workers == s.workers[w := s.workers[w].(out := s.workers[w].out[1..])]
    requires s.workers[w].task.Some? ==>
      forall i :: 0 <= i < |s.p.queue| ==> s.workers[w].task.value.id != s.p.queue[i].id
    ensures Smooth(t)
  {
    hide Inv, Sound, Box;
    assert !AtWork(t, w);
  }

  lemma MovedKeepsWorker(p: Parent, q: Parent, w: Id)
    requires MovedOn(p, q, w)
    ensures q.worker == Some(w)
  {
    hide Box;
  }

  lemma InHand(s: System, w: Id)
    requires w < |s.workers| && s.p.active.Some? && AnswerArrives(s.p.active.value, s.workers[w], Box(s.p, w))
    requires s.p.dispatched == Some(s.p.active.value.id)
    ensures AtWork(s, w)
  {
    hide Box, Received, ProgressFrom;
  }

  /** Nothing goes wrong in one favourable step. */
  lemma SmoothStep(s: System, e: Event)
    requires Smooth(s) && Favourable(s, e)
    ensures Smooth(Next(s, e)) && WellServed(s, Next(s, e))
  {
    hide Smooth, WellServed, Next;
    match e
    case Enqueue(operations, _, f) => EnqueueSmooth(s, operations, f);
    case Deliver(w, _, f) => DeliverSmooth(s, w, f);
    case Take(w) => TakeSmooth(s, w);
    case EndOtherWriter(_) => RestSmooth(s, e);
    case CloseClient => RestSmooth(s, e);
    case RunMicrotask => RestSmooth(s, e);
    case ErrorEvent(_) => RestSmooth(s, e);
    case _ => WorkSmooth(s, e);
  }

  lemma RestSmooth(s: System, e: Event)
    requires Smooth(s) && Favourable(s, e)
    requires e.EndOtherWriter? || e.CloseClient? || e.RunMicrotask? || e.ErrorEvent?
    ensures Smooth(Next(s, e)) && WellServed(s, Next(s, e))
  {
    NextKeeps(s, e);
    SlotOf(s);
    hide Inv, FailedProtocol;
  }

  lemma ServedTwice(s: System, t: System, u: System)
    requires WellServed(s, t) && WellServed(t, u) && (t.p.closed ==> u.p.closed)
    ensures WellServed(s, u)
  {
    forall i | |s.p.calledBack| <= i < |u.p.calledBack| ensures u.p.calledBack[i].error == None {
      if i < |t.p.calledBack| { assert u.p.calledBack[i] == t.p.calledBack[i]; }
    }
  }

  lemma StaysClosed(s: System, e: Event)
    requires s.p.closed
    ensures Next(s, e).p.closed
  {
    hide Attempt, IdSet, FailAll;
  }

  lemma {:induction false} RunStaysClosed(s: System, events: seq<Event>)
    requires s.p.closed
    ensures RunEvents(s, events).p.closed
    decreases |events|
  {
    hide Next;
    if events != [] {
      StaysClosed(s, events[0]);
      RunStaysClosed(Next(s, events[0]), events[1..]);
    }
  }

  /**
   Over any run in which nothing fails, in whatever order things happen, every
   callback carries no error, and the Worker at hand serves all the jobs.
   */
  lemma {:induction false} SmoothRun(s: System, events: seq<Event>)
    requires Smooth(s) && FavourableRun(s, events)
    ensures Smooth(RunEvents(s, events)) && WellServed(s, RunEvents(s, events))
    decreases |events|
  {
    hide Smooth, Next, Favourable, WellServed;
    if events == [] {
      NothingServed(s);
    } else {
      var t := Next(s, events[0]);
      SmoothStep(s, events[0]);
      SmoothRun(t, events[1..]);
      if t.p.closed { RunStaysClosed(t, events[1..]); }
      ServedTwice(s, t, RunEvents(t, events[1..]));
    }
  }

  /** An idle client, with a live Worker or none, is where such a run may start; so is the beginning. */
  lemma IdleIsSmooth(s: System)
    requires Inv(s) && s.p.active == None && s.p.microtasks == [] && !s.parentTxn
    requires s.p.worker.Some? && s.p.worker.value < |s.workers| ==> !s.workers[s.p.worker.value].dead
    ensures Smooth(s)
  {
    IdleClient(s);
    SlotOf(s);
    hide Inv;
  }

  lemma InitiallySmooth(db: Db)
    ensures Smooth(Initial(db))
  {
    InitiallyOk(db);
    hide Inv;
  }

  lemma NothingServed(s: System)
    ensures WellServed(s, s)
  {}

  // -------------------------------------------------- and they serve every job

  /** While something is to be done there is a favourable step that does something. */
  lemma SmoothGoesOn(s: System) returns (e: Event)
    requires Smooth(s) && s.p.jobs != []
    ensures Favourable(s, e) && Ordinary(s, e) && Next(s, e) != s
  {
    hide Inv, Next, Goes;
    var d := CurrentGoesOn(s);
    NotStuck(s);
    e := match d
      case Deliver(w, _, _) => Deliver(w, false, HostFaults(false, false))
      case BeginTask(w, _) => BeginTask(w, true)
      case RunOperation(w, _) => RunOperation(w, OpFaults(NoFault, NoFault))
      case CommitTask(w, _) => CommitTask(w, true)
      case _ => d;
    assert SameStep(d, e);
    GoesOnAs(s, d, e);
  }

  lemma GoesOnAs(s: System, d: Event, e: Event)
    requires Goes(s, d) && SameStep(d, e)
    ensures Next(s, e) != s
  {
    hide Next;
  }

  lemma NotStuck(s: System)
    requires Smooth(s) && s.p.jobs != []
    ensures !Stuck(s)
  {
    IdleClient(s);
    OpenClient(s);
    WorkerKnown(s);
    CurrentTask(s);
    hide Inv;
  }

  /** An unanswered task of the current Worker is the dispatched job. */
  lemma CurrentTask(s: System)
    requires Inv(s)
    ensures forall w: Id :: w < |s.workers| && s.p.worker == Some(w) && Unanswered(s.workers[w]) && !s.p.poisoned ==>
      AtWork(s, w)
  {
    forall w: Id | w < |s.workers| && s.p.worker == Some(w) && Unanswered(s.workers[w]) && !s.p.poisoned
      ensures AtWork(s, w)
    {
      Unposted(s, w);
    }
  }

  lemma Unposted(s: System, w: Id)
    requires Inv(s) && w < |s.workers| && Unanswered(s.workers[w]) && !s.p.poisoned
    ensures AtWork(s, w)
  {
    hide ClientOk, DatabaseOk, IdsOk, PendingOk, CurrentOk, Box;
    assert Working(s.p, s.workers, w);
  }

  /**
   So a favourable run of ordinary steps that no favourable ordinary step can make
   longer has called back every job: those called back during the run without error,
   and each with what was committed for it.
   */
  lemma SmoothRunsServeAll(s: System, events: seq<Event>)
    requires Smooth(s) && FavourableRun(s, events)
    requires forall e :: Favourable(RunEvents(s, events), e) && Ordinary(RunEvents(s, events), e) ==>
      Next(RunEvents(s, events), e) == RunEvents(s, events)
    ensures AllDone(RunEvents(s, events)) && WellServed(s, RunEvents(s, events))
  {
    hide Smooth, Next, Favourable, WellServed, AllDone, Ordinary;
    SmoothRun(s, events);
    var t := RunEvents(s, events);
    if t.p.jobs != [] {
      var e := SmoothGoesOn(t);
    } else {
      SmoothIsInv(t);
      NothingRetained(t);
    }
  }

  lemma SmoothIsInv(s: System)
    requires Smooth(s)
    ensures Inv(s) && s.p.microtasks == []
  {
    hide Inv;
  }

  /** And there is such a run from every state in which nothing has failed. */
  lemma {:induction false} ServingRun(s: System) returns (events: seq<Event>)
    requires Smooth(s)
    ensures FavourableRun(s, events) && OrdinaryRun(s, events)
    ensures AllDone(RunEvents(s, events)) && WellServed(s, RunEvents(s, events))
    ensures RunEvents(s, events).next == s.next
    decreases Measure(s)
  {
    hide Smooth, Next, Favourable, WellServed, AllDone, Ordinary, Measure, Inv;
    SmoothIsInv(s);
    if s.p.jobs == [] {
      events := [];
      NothingRetained(s);
      NothingServed(s);
    } else {
      var e := SmoothGoesOn(s);
      SmoothStep(s, e);
      OrdinaryDescends(s, e);
      var rest := ServingRun(Next(s, e));
      events := [e] + rest;
      assert events[1..] == rest;
      SmoothRun(s, events);
    }
  }

  lemma OrdinaryDescends(s: System, e: Event)
    requires Inv(s) && Ordinary(s, e) && Next(s, e) != s
    ensures Measure(Next(s, e)) < Measure(s) && Next(s, e).next == s.next
  {
    hide Measure, Next, Inv;
    InternalStepDescends(s, e);
    EnqueuesNothing(s, e);
  }

  lemma EnqueuesNothing(s: System, e: Event)
    requires !e.Enqueue?
    ensures Next(s, e).next == s.next
  {
    hide Handled, Attempt, FailedProtocol;
  }

  /**
   A batch enqueued on an idle client, whatever happened before: in every favourable
   run that goes on until nothing is left to do, its callback carries no error, its
   request is what was committed under its number, with the results of that fold.
   */
  lemma IdleBatchServed(db: Db, before: seq<Event>, operations: seq<Operation>, f: HostFaults, after: seq<Event>)
    requires var s := RunEvents(Initial(db), before);
      && Smooth(s) && !s.p.closed && !s.p.poisoned && |operations| <= MAX_ARRAY_LENGTH
      && FavourableRun(s, [Enqueue(operations, false, f)] + after)
    requires var t := RunEvents(Initial(db), before + ([Enqueue(operations, false, f)] + after));
      forall e :: Favourable(t, e) && Ordinary(t, e) ==> Next(t, e) == t
    ensures var s := RunEvents(Initial(db), before);
      var t := RunEvents(Initial(db), before + ([Enqueue(operations, false, f)] + after));
      var i := s.next;
      && i < |t.p.calledBack| && t.p.calledBack[i].error == None
      && (exists j: nat :: CommittedAs(t, i, j, operations) && t.p.calledBack[i].results == Codes(t.commits[j].results))
      && (s.p.worker.Some? && !t.p.closed ==> t.p.worker == s.p.worker)
  {
    hide Smooth, Next, Favourable, FavourableRun, AllDone, Ordinary, Inv, CommittedAs, RunEvents, Requests, Accepted,
         Truthful;
    var s := RunEvents(Initial(db), before);
    var events := [Enqueue(operations, false, f)] + after;
    var t := RunEvents(Initial(db), before + events);
    AppendEvents(Initial(db), before, events);
    SmoothRunsServeAll(s, events);
    EnqueueCounts(s, operations, f, after);
    CallbackCount(s);
    AllCalledBack(t);
    CallbacksTellTheTruth(db, before + events, s.next);
    RequestOf(db, before, operations, f, after);
    TruthWithoutError(t, s.next, operations);
  }

  lemma CallbackCount(s: System)
    requires Smooth(s)
    ensures |s.p.calledBack| <= s.next
  {
    hide WorkersOk, DatabaseOk, Shape, PostedOk;
    Positions(s.p, s.next);
  }

  lemma AllCalledBack(s: System)
    requires AllDone(s)
    ensures |s.p.calledBack| == s.next
  {
    hide Idle;
  }

  lemma TruthWithoutError(s: System, i: nat, operations: seq<Operation>)
    requires i < |s.p.calledBack| && Truthful(s, i, operations) && s.p.calledBack[i].error == None
    ensures exists j: nat ::
      CommittedAs(s, i, j, operations) && s.p.calledBack[i].results == Codes(s.commits[j].results)
  {}

  lemma {:induction false} AppendEvents(s: System, a: seq<Event>, b: seq<Event>)
    ensures RunEvents(s, a + b) == RunEvents(RunEvents(s, a), b)
    ensures Requests(s, a + b) == Requests(s, a) + Requests(RunEvents(s, a), b)
    decreases |a|
  {
    hide Next, Accepted;
    if a == [] {
      assert a + b == b && [] + Requests(s, b) == Requests(s, b);
    } else {
      assert (a + b)[1..] == a[1..] + b;
      AppendEvents(Next(s, a[0]), a[1..], b);
      assert Accepted(s, a[0]) + (Requests(Next(s, a[0]), a[1..]) + Requests(RunEvents(s, a), b))
          == Accepted(s, a[0]) + Requests(Next(s, a[0]), a[1..]) + Requests(RunEvents(s, a), b);
    }
  }

  lemma {:induction false} NextGrows(s: System, events: seq<Event>)
    ensures RunEvents(s, events).next >= s.next
    decreases |events|
  {
    if events != [] {
      OneGrows(s, events[0]);
      hide Next;
      NextGrows(Next(s, events[0]), events[1..]);
    }
  }

  lemma OneGrows(s: System, e: Event)
    ensures Next(s, e).next >= s.next
  {
    hide Handled, Enqueued, FailedProtocol, Attempt;
  }

  lemma EnqueueCounts(s: System, operations: seq<Operation>, f: HostFaults, after: seq<Event>)
    requires !s.p.closed && !s.p.poisoned && |operations| <= MAX_ARRAY_LENGTH
    ensures RunEvents(s, [Enqueue(operations, false, f)] + after).next > s.next
  {
    var e := Enqueue(operations, false, f);
    assert ([e] + after)[1..] == after;
    assert Next(s, e).next == s.next + 1 by { hide Enqueued; }
    hide Next;
    NextGrows(Next(s, e), after);
  }

  /** The request at the number of the job just enqueued. */
  lemma RequestOf(db: Db, before: seq<Event>, operations: seq<Operation>, f: HostFaults, after: seq<Event>)
    requires var s := RunEvents(Initial(db), before);
      !s.p.closed && !s.p.poisoned && |operations| <= MAX_ARRAY_LENGTH
    ensures var requests := Requests(Initial(db), before + ([Enqueue(operations, false, f)] + after));
      RunEvents(Initial(db), before).next < |requests|
      && requests[RunEvents(Initial(db), before).next] == operations
  {
    var s := RunEvents(Initial(db), before);
    var e := Enqueue(operations, false, f);
    AppendEvents(Initial(db), before, [e] + after);
    CommitsWereAsked(db, before);
    assert ([e] + after)[1..] == after;
    assert Requests(s, [e] + after) == [operations] + Requests(Next(s, e), after) by { hide Next; }
  }
}
