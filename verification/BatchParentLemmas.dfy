/** Every step of the parent isolate keeps the system invariant. */
module BatchParentLemmas {
  import opened Common
  import opened BatchExecutor
  import opened BatchProtocol
  import opened BatchSystem
  import opened BatchClientLemmas
  import opened BatchInvariant
  import opened BatchWorkerLemmas

  // ------------------------------------- what a client event does to Workers

  /** The client lets its Worker go. */
  ghost predicate GaveUp(p: Parent, q: Parent) {
    && q.worker == None && q.inboxes == p.inboxes && q.posted == p.posted
    && !q.ready && q.dispatched == None && q.active == None
  }

  /** The client rests with an idle Worker, or without one. */
  ghost predicate Rested(p: Parent, q: Parent) {
    && q.worker == p.worker && q.ready == p.ready && q.inboxes == p.inboxes && q.posted == p.posted
    && q.dispatched == None && q.active == None && (q.worker.Some? ==> q.ready)
  }

  /** A fresh job is posted to the Worker at hand. */
  ghost predicate Posts(p: Parent, q: Parent) {
    && q.worker == p.worker && q.worker.Some? && q.ready && q.active.Some? && Fresh(q.active.value)
    && var job := q.active.value;
    && q.dispatched == Some(job.id) && job.id !in p.posted && q.posted == p.posted + {job.id}
    && q.inboxes == p.inboxes[q.worker.value := Box(p, q.worker.value)
                                + [PostedJob(job.id, job.operations, job.terminateAfterBegin)]]
  }

  /** Worker `n` is started. */
  ghost predicate Starts(p: Parent, q: Parent, n: Id) {
    && p.worker == None && q.worker == Some(n) && !q.ready && q.dispatched == None && q.active.Some?
    && q.inboxes == p.inboxes[n := [Start]] && q.posted == p.posted
  }

  ghost predicate NoWork(p: Parent, workers: seq<Worker>) { forall w: Id :: !Working(p, workers, w) }

  /** The writer slot changes hands between batches only. */
  predicate SameOther(p: Parent, q: Parent) { q.activeWriter == OtherWriter <==> p.activeWriter == OtherWriter }

  lemma ActivatedEffect(p: Parent, job: Job, f: HostFaults, w: Id, next: Id)
    requires Between(p, job) && Conserved(p, next) && PostedOk(p, next)
    ensures var q := Activated(p, job, f, w);
      && (GaveUp(p, q) || Posts(p, q) || Starts(p, q, w))
      && q.poisoned == p.poisoned && q.calledBack == p.calledBack && SameOther(p, q)
  {
    hide JobIds, IdSet;
    FirstRetained(p, job);
    assert job.id in p.jobs;
  }

  lemma RecoveredEffect(p: Parent)
    requires Abandonable(p)
    ensures GaveUp(p, Recovered(p)) && !Recovered(p).poisoned && Recovered(p).calledBack == p.calledBack
    ensures SameOther(p, Recovered(p))
  {
    hide JobIds, IdSet;
  }

  // ------------------------------------------------- the Workers keep their own

  ghost predicate WorkersBut(p: Parent, workers: seq<Worker>) {
    BoxesOk(p, workers) && WorkingOk(p, workers) && IdsOk(p, workers) && PendingOk(p, workers)
  }

  /** The inboxes alone decide who has a job waiting. */
  lemma SameInboxes(p: Parent, q: Parent, workers: seq<Worker>)
    requires q.inboxes == p.inboxes
    ensures forall w: Id ::
      Box(q, w) == Box(p, w) && HasJob(q, w) == HasJob(p, w) && Working(q, workers, w) == Working(p, workers, w)
    ensures forall w: Id :: Working(p, workers, w) ==> WorkId(q, workers, w) == WorkId(p, workers, w)
  {}

  lemma StillBoxed(p: Parent, q: Parent, workers: seq<Worker>)
    requires BoxesOk(p, workers) && IdsOk(p, workers) && q.inboxes == p.inboxes && q.posted == p.posted
    ensures BoxesOk(q, workers) && IdsOk(q, workers)
  {
    SameInboxes(p, q, workers);
    hide Box, HasJob, Unanswered;
  }

  lemma RestKeeps(p: Parent, q: Parent, workers: seq<Worker>)
    requires WorkersBut(p, workers) && NoWork(p, workers) && q.inboxes == p.inboxes && q.posted == p.posted
    ensures WorkersBut(q, workers) && NoWork(q, workers)
  {
    SameInboxes(p, q, workers);
    StillBoxed(p, q, workers);
    hide Box, HasJob, Unanswered, Working, BoxesOk, IdsOk;
  }

  lemma PoisonKeeps(p: Parent, q: Parent, workers: seq<Worker>)
    requires WorkersBut(p, workers) && q.inboxes == p.inboxes && q.posted == p.posted && q.poisoned
    requires exists n: Id :: n <= |q.calledBack| && q.calledBack[..n] == p.calledBack
                             && forall i :: n <= i < |q.calledBack| ==>
                                 q.calledBack[i].error == Some(EnvironmentPoisoned)
    ensures WorkersBut(q, workers)
  {
    SameInboxes(p, q, workers);
    StillBoxed(p, q, workers);
    hide Box, HasJob, Unanswered, Working, BoxesOk, IdsOk;
    var n: Id :| n <= |q.calledBack| && q.calledBack[..n] == p.calledBack
                 && forall i :: n <= i < |q.calledBack| ==> q.calledBack[i].error == Some(EnvironmentPoisoned);
    forall w: Id, i | Working(q, workers, w) && 0 <= i < |q.calledBack| && q.calledBack[i].id == WorkId(q, workers, w)
      ensures q.calledBack[i].error == Some(EnvironmentPoisoned)
    {
      if i < n { assert p.calledBack[i] == q.calledBack[i]; }
    }
  }

  lemma PostBoxes(p: Parent, q: Parent, workers: seq<Worker>)
    requires Posts(p, q) && BoxesOk(p, workers) && NoWork(p, workers) && q.worker.value < |workers|
    requires Idle(workers[q.worker.value], Box(p, q.worker.value))
    ensures var w, job := q.worker.value, q.active.value;
      && Box(q, w) == [PostedJob(job.id, job.operations, job.terminateAfterBegin)]
      && (forall v: Id :: v != w ==> Box(q, v) == Box(p, v))
      && BoxesOk(q, workers) && (forall v: Id :: v < |workers| ==> (HasJob(q, v) <==> v == w))
      && (forall v: Id :: Working(q, workers, v) <==> v == w)
  {
    var w, job := q.worker.value, q.active.value;
    assert [] + [PostedJob(job.id, job.operations, job.terminateAfterBegin)] == Box(q, w);
    assert forall v: Id :: v != w ==> Box(q, v) == Box(p, v);
    hide Box;
    forall v: Id | v < |workers| && v != w ensures !HasJob(q, v) && !Unanswered(workers[v]) {
      assert !Working(p, workers, v);
    }
  }

  lemma PostKeeps(p: Parent, q: Parent, workers: seq<Worker>, next: Id)
    requires Posts(p, q) && WorkersBut(p, workers) && NoWork(p, workers) && q.worker.value < |workers|
    requires Idle(workers[q.worker.value], Box(p, q.worker.value)) && ClientOk(q, next)
    ensures WorkersBut(q, workers) && CurrentOk(q, workers)
  {
    PostBoxes(p, q, workers);
    Positions(q, next);
    Retained(q);
    hide Box, Shape, Conserved, PostedOk;
    var w, job := q.worker.value, q.active.value;
    assert WorkId(q, workers, w) == job.id;
    assert forall i :: 0 <= i < |q.calledBack| ==> q.calledBack[i].id != job.id;
    assert OnItsWay(job, workers[w], Box(q, w));
  }

  lemma Retained(p: Parent)
    requires Shape(p) && p.active.Some?
    ensures p.jobs != [] && p.jobs[0] == p.active.value.id
  {}

  lemma StartKeeps(p: Parent, q: Parent, workers: seq<Worker>)
    requires Starts(p, q, |workers|) && WorkersBut(p, workers) && NoWork(p, workers)
    ensures var after := workers + [Worker(Unstarted, false, [], None)];
      WorkersBut(q, after) && CurrentOk(q, after) && NoWork(q, after)
    ensures forall v: Id :: HasJob(q, v) ==> HasJob(p, v)
  {
    var n, after := |workers|, workers + [Worker(Unstarted, false, [], None)];
    assert Box(q, n) == [Start] && forall v: Id :: v != n ==> Box(q, v) == Box(p, v);
    hide Box;
    forall v: Id ensures !Working(q, after, v) && (HasJob(q, v) ==> HasJob(p, v)) {
      if v < n { assert after[v] == workers[v] && !Working(p, workers, v); }
    }
  }

  // ------------------------------------------------------- the database keeps

  lemma PostedWaiting(p: Parent, q: Parent, workers: seq<Worker>, commits: seq<Commit>)
    requires Posts(p, q) && CommitsOk(commits, p.posted) && q.worker.value < |workers|
    requires forall v: Id :: v < |workers| && HasJob(q, v) ==> v == q.worker.value
    requires var job := q.active.value;
      Box(q, q.worker.value) == [PostedJob(job.id, job.operations, job.terminateAfterBegin)]
    ensures WaitingOk(q, workers, commits) && CommitsOk(commits, q.posted)
  {
    hide Box;
  }

  lemma MoreTasks(workers: seq<Worker>, db: Db, commits: seq<Commit>)
    requires TasksOk(workers, db, commits)
    ensures TasksOk(workers + [Worker(Unstarted, false, [], None)], db, commits)
  {
    hide TaskOk;
  }

  /** The client moves on from a state in which no Worker has work. */
  ghost predicate Moves(p: Parent, q: Parent, n: Id) { GaveUp(p, q) || Rested(p, q) || Posts(p, q) || Starts(p, q, n) }

  /** The Worker at hand, if any, has nothing to do. */
  ghost predicate Quiet(p: Parent, workers: seq<Worker>) {
    && NoWork(p, workers)
    && (p.worker.Some? ==> p.worker.value < |workers| && Idle(workers[p.worker.value], Box(p, p.worker.value)))
  }

  lemma MoveWorkers(p: Parent, q: Parent, workers: seq<Worker>, next: Id)
    requires WorkersBut(p, workers) && Quiet(p, workers) && Moves(p, q, |workers|) && ClientOk(q, next)
    ensures var after := if q.worker == Some(|workers|) then workers + [Worker(Unstarted, false, [], None)]
      else workers;
      WorkersBut(q, after) && CurrentOk(q, after)
  {
    hide ClientOk, WorkersBut, CurrentOk, NoWork, Idle, Box;
    if GaveUp(p, q) || Rested(p, q) {
      RestKeeps(p, q, workers);
      RestCurrent(p, q, workers);
    } else if Posts(p, q) {
      PostKeeps(p, q, workers, next);
    } else {
      StartKeeps(p, q, workers);
    }
  }

  lemma RestCurrent(p: Parent, q: Parent, workers: seq<Worker>)
    requires Quiet(p, workers) && (GaveUp(p, q) || Rested(p, q)) && (q.worker.Some? ==> q.ready)
    ensures CurrentOk(q, workers)
  {
    SameInboxes(p, q, workers);
    hide Box;
  }

  lemma MoveDatabase(p: Parent, q: Parent, workers: seq<Worker>, db: Db, commits: seq<Commit>)
    requires Quiet(p, workers) && Moves(p, q, |workers|) && TasksOk(workers, db, commits)
      && CommitsOk(commits, p.posted)
    requires BoxesOk(p, workers)
    ensures var after := if q.worker == Some(|workers|) then workers + [Worker(Unstarted, false, [], None)]
      else workers;
      TasksOk(after, db, commits) && WaitingOk(q, after, commits) && CommitsOk(commits, q.posted)
  {
    hide Idle, Box, TaskOk, CommittedId, Run, TasksOk, Unanswered, BoxesOk;
    MoreTasks(workers, db, commits);
    assert workers + [] == workers;
    if GaveUp(p, q) || Rested(p, q) {
      SameInboxes(p, q, workers);
      WaitingNowhere(p, q, workers, commits);
    } else if Posts(p, q) {
      PostBoxes(p, q, workers);
      PostedWaiting(p, q, workers, commits);
    } else {
      StartedWaiting(p, q, workers, commits);
    }
  }

  lemma WaitingNowhere(p: Parent, q: Parent, workers: seq<Worker>, commits: seq<Commit>)
    requires NoWork(p, workers) && q.inboxes == p.inboxes
    ensures WaitingOk(q, workers, commits)
  {
    SameInboxes(p, q, workers);
    hide Box, HasJob;
    forall v: Id | v < |workers| ensures !HasJob(q, v) { assert !Working(p, workers, v); }
  }

  lemma StartedWaiting(p: Parent, q: Parent, workers: seq<Worker>, commits: seq<Commit>)
    requires Starts(p, q, |workers|) && NoWork(p, workers)
    ensures WaitingOk(q, workers + [Worker(Unstarted, false, [], None)], commits)
  {
    assert Box(q, |workers|) == [Start] && forall v: Id :: v != |workers| ==> Box(q, v) == Box(p, v);
    hide Box;
    forall v: Id | v < |workers| ensures !HasJob(q, v) { assert !Working(p, workers, v); }
  }

  /** `s` but for the relation between its client and its current Worker, which is idle. */
  ghost predicate Resting(s: System) {
    && WorkersBut(s.p, s.workers) && Quiet(s.p, s.workers) && TasksOk(s.workers, s.db, s.commits)
    && CommitsOk(s.commits, s.p.posted) && (s.parentTxn <==> s.p.activeWriter == OtherWriter)
  }

  lemma MoveKeeps(s: System, q: Parent, next: Id)
    requires Resting(s) && Moves(s.p, q, |s.workers|) && SameOther(s.p, q)
    requires ClientOk(q, next) && AnswersOk(q.calledBack, s.commits)
    ensures Inv(WithParent(s, q).(next := next))
  {
    hide ClientOk, WorkersBut, Quiet, CurrentOk, TasksOk, WaitingOk, CommitsOk, AnswersOk, Moves;
    MoveWorkers(s.p, q, s.workers, next);
    Boxed(s.p, s.workers);
    MoveDatabase(s.p, q, s.workers, s.db, s.commits);
    Unbut(q, WithParent(s, q).workers);
  }

  lemma Boxed(p: Parent, workers: seq<Worker>)
    requires WorkersBut(p, workers)
    ensures BoxesOk(p, workers)
  {}

  lemma Unbut(p: Parent, workers: seq<Worker>)
    requires WorkersBut(p, workers)
    ensures BoxesOk(p, workers) && WorkingOk(p, workers) && IdsOk(p, workers) && PendingOk(p, workers)
  {}

  // ----------------------------------------------------- when nobody has work

  /** A live client whose job is not dispatched has no Worker at work. */
  lemma UndispatchedIsQuiet(p: Parent, workers: seq<Worker>)
    requires WorkersBut(p, workers) && !p.poisoned && p.dispatched == None
    ensures NoWork(p, workers)
  {
    hide Working, Box;
  }

  /** A Worker that answered leaves nobody at work. */
  lemma AnsweredIsQuiet(p: Parent, workers: seq<Worker>)
    requires WorkersBut(p, workers) && !p.poisoned
    requires p.worker.Some? ==> p.worker.value < |workers| && Idle(workers[p.worker.value], Box(p, p.worker.value))
    ensures NoWork(p, workers)
  {
    hide Box;
    forall w: Id ensures !Working(p, workers, w) {}
  }

  // ------------------------------------------------------------------- events

  lemma OpenClient(s: System)
    requires Inv(s)
    ensures s.p.worker.Some? ==> !s.p.closed && !s.p.poisoned
    ensures s.p.active.Some? ==> !s.p.poisoned && s.p.activeWriter.BatchWriter? && s.p.worker.Some?
    ensures s.p.active == None ==> s.p.dispatched == None && !s.p.activeWriter.BatchWriter? && s.p.reservation == None
    ensures s.p.dispatched.Some? ==> s.p.ready && s.p.active.Some? && s.p.dispatched == Some(s.p.active.value.id)
    ensures s.p.ready && s.p.active.Some? ==> s.p.dispatched.Some?
    ensures s.p.worker.Some? && !s.p.ready ==> s.p.active.Some?
    ensures s.p.poisoned ==> s.p.closed && s.p.activeWriter == NoOwner
    ensures WorkersBut(s.p, s.workers)
  {
    hide Conserved, PostedOk, DatabaseOk, BoxesOk, WorkingOk, IdsOk, PendingOk, CurrentOk, JobIds, IdSet, Fresh;
  }

  lemma MicrotaskStep(s: System)
    requires Inv(s) && s.p.microtasks != []
    ensures Inv(Next(s, RunMicrotask))
  {
    hide ClientOk, BoxesOk, WorkingOk, IdsOk, CurrentOk, TasksOk, WaitingOk, CommitsOk, CommittedId, Working, Box,
         HasJob, Unanswered;
    MicrotaskKeeps(s.p, s.next);
    var q := MicrotaskRun(s.p);
    SameInboxes(s.p, q, s.workers);
    StillBoxed(s.p, q, s.workers);
    MicrotaskTables(s, q);
  }

  lemma MicrotaskTables(s: System, q: Parent)
    requires Inv(s) && s.p.microtasks != [] && q == MicrotaskRun(s.p)
    ensures WorkingOk(q, s.workers) && PendingOk(q, s.workers) && CurrentOk(q, s.workers)
    ensures WaitingOk(q, s.workers, s.commits) && AnswersOk(q.calledBack, s.commits)
  {
    var id := s.p.microtasks[0];
    assert id !in s.p.posted;
    SameInboxes(s.p, q, s.workers);
    WorkIsPosted(s);
    NotCommitted(s, id);
    hide Box, HasJob, Unanswered, Working, Conserved, Shape, Idle, Starting, OnItsWay, BeingRun, TaskOk, CommitsOk,
         CommittedId, BoxesOk, IdsOk;
  }

  lemma WorkIsPosted(s: System)
    requires Inv(s)
    ensures forall w: Id :: Working(s.p, s.workers, w) ==> WorkId(s.p, s.workers, w) in s.p.posted
  {
    hide ClientOk, DatabaseOk, CurrentOk, PendingOk, WorkingOk, Box;
  }

  lemma NotCommitted(s: System, id: Id)
    requires Inv(s) && id !in s.p.posted
    ensures !CommittedId(s.commits, id)
  {
    hide ClientOk, WorkersOk, Run;
  }

  /** What Workers cannot see of the client changes nothing for them. */
  ghost predicate Unseen(p: Parent, q: Parent) {
    && q.inboxes == p.inboxes && q.posted == p.posted && q.worker == p.worker && q.ready == p.ready
    && q.dispatched == p.dispatched && q.active == p.active && q.poisoned == p.poisoned && q.calledBack == p.calledBack
  }

  lemma UnseenKeeps(s: System, q: Parent)
    requires Inv(s) && Unseen(s.p, q)
    ensures WorkersBut(q, s.workers) && CurrentOk(q, s.workers) && WaitingOk(q, s.workers, s.commits)
    ensures s.p.worker.Some? ==> s.p.worker.value < |s.workers|
  {
    SameInboxes(s.p, q, s.workers);
    StillBoxed(s.p, q, s.workers);
    WaitingSame(s.p, q, s.workers, s.commits);
    hide Box, HasJob, Unanswered, Working, Idle, Starting, OnItsWay, BeingRun, TaskOk, CommitsOk, CommittedId, ClientOk,
         BoxesOk, IdsOk, WaitingOk, AnswersOk;
  }

  /** Changing who else holds the writer slot concerns neither Workers nor the order of jobs. */
  lemma SlotIgnored(s: System, q: Parent)
    requires Inv(s) && q == s.p.(activeWriter := q.activeWriter)
    ensures WorkersBut(q, s.workers) && CurrentOk(q, s.workers) && WaitingOk(q, s.workers, s.commits)
    ensures Conserved(q, s.next) && PostedOk(q, s.next)
  {
    UnseenKeeps(s, q);
    hide WorkersOk, DatabaseOk, Shape, WorkersBut, CurrentOk, WaitingOk;
  }

  lemma BeginOtherStep(s: System)
    requires Inv(s)
    ensures Inv(Next(s, BeginOtherWriter))
  {
    if s.p.activeWriter == NoOwner && !s.p.poisoned {
      SlotIgnored(s, s.p.(activeWriter := OtherWriter));
    }
    hide Conserved, PostedOk, BoxesOk, WorkingOk, IdsOk, PendingOk, CurrentOk, TasksOk, WaitingOk, CommitsOk,
         AnswersOk, JobIds, Fresh;
  }

  /** While another writer of the parent is open no Worker has an open transaction. */
  lemma NoOpenTask(workers: seq<Worker>, p: Parent, db: Db, commits: seq<Commit>, after: Db)
    requires NoWork(p, workers) && TasksOk(workers, db, commits)
    ensures TasksOk(workers, after, commits)
  {
    hide Box, HasJob, CommittedId, CommittedWith, Run;
    forall w: Id | w < |workers| && workers[w].task.Some? ensures TaskOk(workers[w].task.value, after, commits) {
      assert !Working(p, workers, w);
    }
  }

  lemma EndOtherStep(s: System, db: Db)
    requires Inv(s)
    ensures Inv(Next(s, EndOtherWriter(db)))
  {
    OpenClient(s);
    if s.parentTxn {
      SlotIgnored(s, s.p.(activeWriter := NoOwner));
      UndispatchedIsQuiet(s.p, s.workers);
      NoOpenTask(s.workers, s.p, s.db, s.commits, db);
    }
    hide Conserved, PostedOk, BoxesOk, WorkingOk, IdsOk, PendingOk, CurrentOk, TasksOk, WaitingOk, CommitsOk,
         AnswersOk, JobIds, Fresh,
         NoWork;
  }

  /** With no job dispatched, the client and its Worker are at rest. */
  lemma AtRest(s: System)
    requires Inv(s) && !s.p.poisoned && s.p.active == None
    ensures Resting(s)
  {
    OpenClient(s);
    UndispatchedIsQuiet(s.p, s.workers);
    hide ClientOk, WorkersBut, WaitingOk, AnswersOk, TasksOk, CommitsOk, NoWork, Idle, Box, BoxesOk, WorkingOk, IdsOk,
         PendingOk;
  }

  lemma EnqueueStep(s: System, operations: seq<Operation>, terminateAfterBegin: bool, f: HostFaults)
    requires Inv(s)
    ensures Inv(Next(s, Enqueue(operations, terminateAfterBegin, f)))
  {
    hide Inv, ClientOk, Activated, Resting, AnswersOk, Moves, GaveUp, Rested, Posts, Starts;
    if !s.p.closed && !s.p.poisoned && |operations| <= MAX_ARRAY_LENGTH {
      var job := NewJob(s.next, operations, terminateAfterBegin);
      var q := Enqueued(s.p, job, f, |s.workers|);
      Parts(s);
      EnqueuedKeeps(s.p, job, f, |s.workers|, s.next);
      if s.p.active.Some? {
        QueuedKeeps(s, job, q);
      } else {
        AtRest(s);
        EnqueuedEffect(s, job, f);
        MoveKeeps(s, q, s.next + 1);
      }
    }
  }

  lemma Parts(s: System)
    requires Inv(s)
    ensures ClientOk(s.p, s.next) && WorkersOk(s) && DatabaseOk(s) && AnswersOk(s.p.calledBack, s.commits)
  {
    hide ClientOk, WorkersOk, AnswersOk;
  }

  lemma EnqueuedEffect(s: System, job: Job, f: HostFaults)
    requires Inv(s) && !s.p.closed && s.p.active == None && Fresh(job) && job.id == s.next
    ensures var q := Enqueued(s.p, job, f, |s.workers|);
      Moves(s.p, q, |s.workers|) && SameOther(s.p, q) && q.calledBack == s.p.calledBack
  {
    hide Activated, WorkersOk, DatabaseOk, IdSet, Conserved, PostedOk;
    var p1 := s.p.(jobs := s.p.jobs + [job.id], leased := s.p.leased + {job.id});
    IdSetSnoc(s.p.jobs, job.id);
    EnqueuedOrder(s.p, p1, s.next);
    assert JobIds([]) == [];
    ActivatedEffect(p1, job, f, |s.workers|, s.next + 1);
  }

  /** Queueing behind the active job concerns no Worker. */
  lemma QueuedKeeps(s: System, job: Job, q: Parent)
    requires Inv(s) && s.p.active.Some? && ClientOk(q, s.next + 1)
    requires q == s.p.(jobs := q.jobs, leased := q.leased, queue := q.queue)
    ensures Inv(WithParent(s.(next := s.next + 1), q))
  {
    UnseenKeeps(s, q);
    Unbut(q, s.workers);
    hide ClientOk, WorkersBut, BoxesOk, WorkingOk, IdsOk, PendingOk, CurrentOk, TasksOk, WaitingOk, CommitsOk,
         AnswersOk;
  }

  /** A Worker error: recovery when nothing was dispatched, poison otherwise. */
  lemma ErrorStep(s: System, w: Id)
    requires Inv(s)
    ensures Inv(Next(s, ErrorEvent(w)))
    ensures Next(s, ErrorEvent(w)).p.poisoned ==
      (s.p.poisoned || (s.p.microtasks == [] && s.p.worker == Some(w) && s.p.dispatched.Some?))
  {
    hide Inv, ClientOk, FailedProtocol;
    if s.p.microtasks == [] && s.p.worker == Some(w) {
      Parts(s);
      OpenClient(s);
      FailedProtocolKeeps(s.p, s.next);
      if s.p.dispatched == None { RecoveryStep(s); } else { PoisonStep(s); }
    }
  }

  lemma RecoveryStep(s: System)
    requires Inv(s) && s.p.worker.Some? && s.p.dispatched == None && ClientOk(FailedProtocol(s.p), s.next)
    ensures Inv(s.(p := FailedProtocol(s.p))) && !FailedProtocol(s.p).poisoned
  {
    var q := FailedProtocol(s.p);
    OpenClient(s);
    ShapeIsAbandonable(s.p);
    RecoveredEffect(s.p);
    UndispatchedIsQuiet(s.p, s.workers);
    RestKeeps(s.p, q, s.workers);
    WaitingNowhere(s.p, q, s.workers, s.commits);
    hide ClientOk, TasksOk, WaitingOk, CommitsOk, AnswersOk, BoxesOk, WorkingOk, IdsOk, PendingOk, Recovered, NoWork,
         Abandonable;
  }

  lemma PoisonedEffect(p: Parent)
    requires Abandonable(p)
    ensures var q := FailedUnexpectedly(p);
      && q.poisoned && q.worker == None && q.inboxes == p.inboxes && q.posted == p.posted
      && q.calledBack == p.calledBack + FailAll(p.jobs, EnvironmentPoisoned) && SameOther(p, q)
  {
    hide IdSet, FailAll;
  }

  lemma PoisonStep(s: System)
    requires Inv(s) && s.p.dispatched.Some? && ClientOk(FailedProtocol(s.p), s.next)
    ensures Inv(s.(p := FailedProtocol(s.p))) && FailedProtocol(s.p).poisoned
  {
    var q := FailedProtocol(s.p);
    OpenClient(s);
    ShapeIsAbandonable(s.p);
    PoisonedEffect(s.p);
    assert q.calledBack[..|s.p.calledBack|] == s.p.calledBack;
    forall i | |s.p.calledBack| <= i < |q.calledBack| ensures q.calledBack[i].error == Some(EnvironmentPoisoned) {
      assert q.calledBack[i] == FailAll(s.p.jobs, EnvironmentPoisoned)[i - |s.p.calledBack|];
    }
    PoisonKeeps(s.p, q, s.workers);
    PoisonAnswers(s.p.calledBack, q.calledBack, s.commits);
    WaitingSame(s.p, q, s.workers, s.commits);
    hide ClientOk, TasksOk, WaitingOk, CommitsOk, AnswersOk, BoxesOk, WorkingOk, IdsOk, PendingOk, FailedUnexpectedly,
         Abandonable;
  }

  lemma PoisonAnswers(before: seq<Callback>, after: seq<Callback>, commits: seq<Commit>)
    requires AnswersOk(before, commits) && |before| <= |after| && after[..|before|] == before
    requires forall i :: |before| <= i < |after| ==> after[i].error == Some(EnvironmentPoisoned)
    ensures AnswersOk(after, commits)
  {
    hide CommittedId;
    forall i | 0 <= i < |after| ensures AnswerOk(after[i], commits) {
      if i < |before| { assert after[i] == before[i]; assert AnswerOk(before[i], commits); }
    }
  }

  lemma WaitingSame(p: Parent, q: Parent, workers: seq<Worker>, commits: seq<Commit>)
    requires WaitingOk(p, workers, commits) && q.inboxes == p.inboxes
    ensures WaitingOk(q, workers, commits)
  {
    SameInboxes(p, q, workers);
    hide Box, HasJob, CommittedId;
  }

  lemma CloseStep(s: System)
    requires Inv(s)
    ensures Inv(Next(s, CloseClient))
  {
    hide Inv, ClientOk, Resting, AnswersOk;
    if s.p.active == None && s.p.queue == [] && s.p.activeWriter == NoOwner && s.p.leased == {} {
      Parts(s);
      ClosedKeeps(s.p, s.next);
      if s.p.poisoned { PoisonedCloses(s); } else {
        AtRest(s);
        assert GaveUp(s.p, Closed(s.p)) && Moves(s.p, Closed(s.p), |s.workers|);
        MoveKeeps(s, Closed(s.p), s.next);
      }
    }
  }

  lemma PoisonedCloses(s: System)
    requires Inv(s) && s.p.poisoned
    ensures Inv(s.(p := Closed(s.p)))
  {
    hide Conserved, PostedOk, WorkersOk, DatabaseOk, JobIds, Fresh, IdSet;
    assert !s.p.ready && s.p.dispatched == None;
    assert Closed(s.p) == s.p;
  }
}
