/** The batch protocol over every run: order, exclusion, truth of callbacks, poison. */
module BatchRuns {
  import opened Common
  import opened BatchExecutor
  import opened BatchProtocol
  import opened BatchSystem
  import opened BatchClientLemmas
  import opened BatchInvariant
  import opened BatchWorkerLemmas
  import opened BatchParentLemmas
  import opened BatchDeliveryLemmas
  import opened BatchHistory
  import CallingThreadBatches

  lemma NextKeeps(s: System, e: Event)
    requires Inv(s)
    ensures Inv(Next(s, e))
  {
    hide Inv, Next;
    match e
    case Enqueue(operations, terminateAfterBegin, f) => EnqueueStep(s, operations, terminateAfterBegin, f);
    case BeginOtherWriter => BeginOtherStep(s);
    case EndOtherWriter(db) => EndOtherStep(s, db);
    case CloseClient => CloseStep(s);
    case RunMicrotask => if s.p.microtasks != [] { MicrotaskStep(s); } else { NoMicrotask(s); }
    case Deliver(w, releaseFails, f) => DeliverStep(s, w, releaseFails, f);
    case ErrorEvent(w) => ErrorStep(s, w);
    case Take(w) => TakeKeeps(s, w);
    case FinishInitialization(w) => InitializedKeeps(s, w);
    case BeginTask(w, ok) => BeginKeeps(s, w, ok);
    case RunOperation(w, f) => RunKeeps(s, w, f);
    case CommitTask(w, ok) => CommitKeeps(s, w, ok);
    case Answer(w) => AnswerKeeps(s, w);
    case Die(w) => if w < |s.workers| { DieKeeps(s, w); } else { NoSuchWorker(s, w); }
  }

  lemma NoMicrotask(s: System)
    requires s.p.microtasks == []
    ensures Next(s, RunMicrotask) == s
  {}

  lemma NoSuchWorker(s: System, w: Id)
    requires w >= |s.workers|
    ensures Next(s, Die(w)) == s
  {}

  /** The invariant holds after any run, of any length, in any order. */
  lemma {:induction false} ReachableOk(s: System, events: seq<Event>)
    requires Inv(s)
    ensures Inv(RunEvents(s, events))
    decreases |events|
  {
    hide Inv, Next;
    if events != [] {
      NextKeeps(s, events[0]);
      ReachableOk(Next(s, events[0]), events[1..]);
    }
  }

  // ------------------------------------------------------ order of callbacks

  /**
   Callback `i` is that of the `i`-th job enqueued: each job is called back at
   most once, in order, and what was not called back is still due or retained.
   */
  lemma CallbacksInOrder(db: Db, events: seq<Event>)
    ensures var s := RunEvents(Initial(db), events);
      && (forall i :: 0 <= i < |s.p.calledBack| ==> s.p.calledBack[i].id == i)
      && |s.p.calledBack| + |s.p.microtasks| + |s.p.jobs| == s.next
      && (forall i :: 0 <= i < |s.p.microtasks| ==> s.p.microtasks[i] == |s.p.calledBack| + i)
      && (forall i :: 0 <= i < |s.p.jobs| ==> s.p.jobs[i] == |s.p.calledBack| + |s.p.microtasks| + i)
      && s.p.leased == IdSet(s.p.jobs)
  {
    InitiallyOk(db);
    ReachableOk(Initial(db), events);
    var s := RunEvents(Initial(db), events);
    hide WorkersOk, DatabaseOk, PostedOk, Conserved, IdSet;
    Positions(s.p, s.next);
  }

  lemma ActivatedCallbacks(p: Parent, job: Job, f: HostFaults, w: Id)
    ensures Activated(p, job, f, w).calledBack == p.calledBack && p.posted <= Activated(p, job, f, w).posted
  {
    hide IdSet, Box;
  }

  lemma FinishedCallbacks(p: Parent, job: Job, error: Option<Failure>, releaseFails: bool, f: HostFaults, w: Id)
    ensures var q := Finished(p, job, error, releaseFails, f, w); p.calledBack <= q.calledBack && p.posted <= q.posted
  {
    hide Activated, Without;
    var p1 := Settled(p, job);
    if p1.queue != [] { ActivatedCallbacks(p1.(queue := p1.queue[1..]), p1.queue[0], f, w); }
  }

  lemma HandledCallbacks(p: Parent, message: Reply, releaseFails: bool, f: HostFaults, w: Id)
    ensures var q := Handled(p, message, releaseFails, f, w); p.calledBack <= q.calledBack && p.posted <= q.posted
  {
    hide Finished, FailedProtocol, Recovered, FailedUnexpectedly, ApplyAll, EveryResult, Box;
    FailedCallbacks(p);
    FailedCallbacks(p.(ready := true));
    if p.active.Some? {
      FinishedCallbacks(p.(dispatched := None), p.active.value, Some(WorkerFailure), releaseFails, f, w);
      FinishedCallbacks(p.(dispatched := None), p.active.value, None, releaseFails, f, w);
    }
  }

  lemma EnqueuedCallbacks(p: Parent, job: Job, f: HostFaults, w: Id)
    ensures var q := Enqueued(p, job, f, w); p.calledBack <= q.calledBack && p.posted <= q.posted
  {
    hide Activated;
    ActivatedCallbacks(p.(jobs := p.jobs + [job.id], leased := p.leased + {job.id}), job, f, w);
  }

  lemma FailedCallbacks(p: Parent)
    ensures p.calledBack <= FailedProtocol(p).calledBack && FailedProtocol(p).posted == p.posted
    ensures p.calledBack <= FailedUnexpectedly(p).calledBack && FailedUnexpectedly(p).posted == p.posted
    ensures Recovered(p).calledBack == p.calledBack && Recovered(p).posted == p.posted
  {
    hide IdSet, FailAll;
  }

  /** A callback, once made, is never taken back. */
  lemma CallbacksGrow(s: System, e: Event)
    ensures s.p.calledBack <= Next(s, e).p.calledBack && s.p.posted <= Next(s, e).p.posted
  {
    hide Enqueued, Handled, FailedProtocol, Attempt;
    match e
    case Enqueue(operations, terminateAfterBegin, f) =>
      EnqueuedCallbacks(s.p, NewJob(s.next, operations, terminateAfterBegin), f, |s.workers|);
    case Deliver(w, releaseFails, f) =>
      if w < |s.workers| && s.workers[w].out != [] {
        HandledCallbacks(s.p, s.workers[w].out[0], releaseFails, f, |s.workers|);
      }
    case ErrorEvent(_) => FailedCallbacks(s.p);
    case _ =>
  }

  /** A job failed by recovery never reaches any Worker afterwards either. */
  lemma {:induction false} NeverPostedLater(s: System, events: seq<Event>, i: nat)
    requires Inv(s) && i < |s.p.calledBack| && s.p.calledBack[i].error == Some(NotDispatched)
    ensures var t := RunEvents(s, events);
      i < |t.p.calledBack| && t.p.calledBack[i] == s.p.calledBack[i] && t.p.calledBack[i].id !in t.p.posted
    decreases |events|
  {
    hide Inv, Next;
    AnswerOf(s, i);
    if events != [] {
      CallbacksGrow(s, events[0]);
      NextKeeps(s, events[0]);
      NeverPostedLater(Next(s, events[0]), events[1..], i);
    }
  }

  // --------------------------------------------------------- mutual exclusion

  /** Worker `w` has a native write transaction open. */
  predicate TxnOpen(s: System, w: Id) {
    w < |s.workers| && s.workers[w].task.Some? && s.workers[w].task.value.stage.Open?
  }

  /**
   A native write transaction is open in at most one Worker, never while the
   parent has one, and unless poisoned only under the reservation of its job.
   */
  lemma WritersExclude(db: Db, events: seq<Event>, w: Id)
    requires TxnOpen(RunEvents(Initial(db), events), w)
    ensures var s := RunEvents(Initial(db), events);
      && !s.parentTxn && (forall v: Id :: TxnOpen(s, v) ==> v == w)
      && (!s.p.poisoned ==> s.p.worker == Some(w) && s.p.activeWriter == BatchWriter(s.workers[w].task.value.id))
  {
    InitiallyOk(db);
    ReachableOk(Initial(db), events);
    var s := RunEvents(Initial(db), events);
    OpenExcludes(s, w);
    forall v: Id | TxnOpen(s, v) ensures v == w {
      Parts(s);
      OneAtWork(s.p, s.workers, v, w);
    }
  }

  lemma OpenExcludes(s: System, w: Id)
    requires Inv(s) && TxnOpen(s, w)
    ensures !s.parentTxn && WorkingOk(s.p, s.workers)
    ensures !s.p.poisoned ==> s.p.worker == Some(w) && s.p.activeWriter == BatchWriter(s.workers[w].task.value.id)
  {
    hide PostedOk, Conserved, BoxesOk, IdsOk, PendingOk, CurrentOk, TasksOk, WaitingOk, CommitsOk, AnswersOk, IdSet,
         JobIds, Fresh;
    assert Working(s.p, s.workers, w);
    OpenClient(s);
    WorkIdOf(s, w);
  }

  lemma WorkIdOf(s: System, w: Id)
    requires Inv(s) && w < |s.workers| && Unanswered(s.workers[w])
    ensures Working(s.p, s.workers, w) && WorkId(s.p, s.workers, w) == s.workers[w].task.value.id
  {
    hide ClientOk, DatabaseOk, WorkingOk, IdsOk, PendingOk, CurrentOk, Box;
  }

  // -------------------------------------------------------- truth of callbacks

  /** A commit is the fold of its operations over the database it found. */
  predicate IsFold(c: Commit) {
    |c.faults| == |c.operations| && Run(c.before, c.operations, c.faults) == Outcome(c.results, c.after, false)
  }

  /** Job `i` was committed: that very request, folded over the database it found. */
  predicate CommittedAs(s: System, i: nat, j: nat, operations: seq<Operation>) {
    j < |s.commits| && s.commits[j].id == i && s.commits[j].operations == operations && IsFold(s.commits[j])
  }

  /** What callback `i` says about job `i`, which was enqueued with these operations. */
  ghost predicate Truthful(s: System, i: nat, operations: seq<Operation>)
    requires i < |s.p.calledBack|
  {
    match s.p.calledBack[i].error
    case None => exists j: nat ::
        CommittedAs(s, i, j, operations) && s.p.calledBack[i].results == Codes(s.commits[j].results)
    case Some(CleanupFailure) => exists j: nat :: CommittedAs(s, i, j, operations)
    case Some(WorkerFailure) => !CommittedId(s.commits, i)
    case Some(NotDispatched) => !CommittedId(s.commits, i) && i !in s.p.posted
    case Some(EnvironmentPoisoned) => s.p.poisoned
  }

  /**
   A job called back without an error was committed: exactly the request enqueued
   under its number, exactly once, with the results of the fold over the database it
   found.  The commits of the run are the batches among the changes that lead from
   the first database to the present one.  Called back as failed by the Worker, or as
   never dispatched, the job was not committed.
   */
  lemma CallbacksTellTheTruth(db: Db, events: seq<Event>, i: nat)
    requires i < |RunEvents(Initial(db), events).p.calledBack|
    ensures i < |Requests(Initial(db), events)|
    ensures Truthful(RunEvents(Initial(db), events), i, Requests(Initial(db), events)[i])
    ensures var s := RunEvents(Initial(db), events);
      && (forall j, k :: 0 <= j < k < |s.commits| ==> s.commits[j].id != s.commits[k].id)
      && Chained(db, Changes(Initial(db), events), s.db) && s.commits == BatchesIn(Changes(Initial(db), events))
  {
    hide Inv, Truthful, Chained, Changes, BatchesIn, Requests, CommittedAs;
    InitiallyOk(db);
    ReachableOk(Initial(db), events);
    RunChanges(Initial(db), events);
    CommitsWereAsked(db, events);
    var s := RunEvents(Initial(db), events);
    assert [] + BatchesIn(Changes(Initial(db), events)) == BatchesIn(Changes(Initial(db), events));
    CalledBackIds(s);
    TruthOf(s, i, Requests(Initial(db), events));
  }

  lemma CalledBackIds(s: System)
    requires Inv(s)
    ensures |s.p.calledBack| <= s.next
  {
    hide WorkersOk, DatabaseOk, Shape, PostedOk;
    Positions(s.p, s.next);
  }

  lemma TruthOf(s: System, i: nat, requests: seq<seq<Operation>>)
    requires Inv(s) && i < |s.p.calledBack| && i < |requests|
    requires forall j :: 0 <= j < |s.commits| ==>
      s.commits[j].id < |requests| && s.commits[j].operations == requests[s.commits[j].id]
    ensures Truthful(s, i, requests[i]) && forall j, k :: 0 <= j < k < |s.commits| ==>
      s.commits[j].id != s.commits[k].id
  {
    hide Codes, Run, Inv, Conserved;
    AnswerOf(s, i);
    if s.p.calledBack[i].error == None {
      var j: nat :| j < |s.commits| && s.commits[j].id == i && s.p.calledBack[i].results == Codes(s.commits[j].results);
      FoldOf(s, j);
      assert CommittedAs(s, i, j, requests[i]);
    } else if s.p.calledBack[i].error == Some(CleanupFailure) {
      var j: nat :| j < |s.commits| && s.commits[j].id == i;
      FoldOf(s, j);
      assert CommittedAs(s, i, j, requests[i]);
    }
  }

  lemma FoldOf(s: System, j: nat)
    requires Inv(s) && j < |s.commits|
    ensures IsFold(s.commits[j])
  {
    hide ClientOk, WorkersOk, TasksOk, WaitingOk, AnswersOk, Run;
  }

  lemma AnswerOf(s: System, i: nat)
    requires Inv(s) && i < |s.p.calledBack|
    ensures AnswerOk(s.p.calledBack[i], s.commits) && s.p.calledBack[i].id == i
    ensures s.p.calledBack[i].error == Some(NotDispatched) ==> i !in s.p.posted
    ensures s.p.calledBack[i].error == Some(EnvironmentPoisoned) ==> s.p.poisoned
    ensures forall j, k :: 0 <= j < k < |s.commits| ==> s.commits[j].id != s.commits[k].id
  {
    hide Shape, WorkersOk, TasksOk, WaitingOk, AnswerOk, Run, CallbackIds, Upto;
    Positions(s.p, s.next);
  }

  /** The results a callback carries, as the calling thread holds them. */
  predicate SameResults(called: seq<Option<int>>, slots: seq<Option<BatchResult>>) {
    && |called| == |slots|
    && forall k :: 0 <= k < |slots| ==> slots[k].Some? && called[k] == Some(Code(slots[k].value))
  }

  /**
   Whatever a Worker did for a job called back without an error, the calling thread
   could have done: under some script of native fates, running that job's request on
   the database its commit found reports no error, yields the very results the
   callback carries, and leaves the very database the commit left.
   */
  lemma WorkerRefinesCallingThread(db: Db, events: seq<Event>, i: nat) returns (j: nat, script: nat -> Fault)
    requires i < |RunEvents(Initial(db), events).p.calledBack|
    requires RunEvents(Initial(db), events).p.calledBack[i].error == None
    ensures i < |Requests(Initial(db), events)|
    ensures CommittedAs(RunEvents(Initial(db), events), i, j, Requests(Initial(db), events)[i])
    ensures var s, ops := RunEvents(Initial(db), events), Requests(Initial(db), events)[i];
      var commit := s.commits[j];
      && Accepts(commit.before, ops, script, 0)
      && forall c, after :: CallingThreadBatches.Completes(c, ops, commit.before, after, script, 0) ==>
           c.error == None && after == commit.after && SameResults(s.p.calledBack[i].results, c.results)
  {
    var s := RunEvents(Initial(db), events);
    CallbacksTellTheTruth(db, events, i);
    hide RunEvents, Requests, CommittedAs, Codes, SameResults, Accepts, RunScript, CallingThreadBatches.Completes,
        Chained,
         Changes, BatchesIn;
    var ops := Requests(Initial(db), events)[i];
    j :| CommittedAs(s, i, j, ops) && s.p.calledBack[i].results == Codes(s.commits[j].results);
    script := CommitScript(s, i, j, ops);
    forall c, after | CallingThreadBatches.Completes(c, ops, s.commits[j].before, after, script, 0)
      ensures c.error == None && after == s.commits[j].after && SameResults(s.p.calledBack[i].results, c.results)
    {
      CompletesAs(s.commits[j], script, c, after);
    }
  }

  lemma CommitScript(s: System, i: nat, j: nat, ops: seq<Operation>) returns (script: nat -> Fault)
    requires CommittedAs(s, i, j, ops)
    ensures j < |s.commits| && s.commits[j].operations == ops && Accepts(s.commits[j].before, ops, script, 0)
    ensures RunScript(s.commits[j].before, ops, script, 1) == Outcome(s.commits[j].results, s.commits[j].after, false)
  {
    hide Run, RunScript, Accepts, ScriptFor;
    var c := s.commits[j];
    ScriptAccepts(c.before, ops, c.faults);
    script := ScriptFor(c.before, ops, c.faults);
  }

  /** Under a script that replays a commit the calling thread ends as the commit did. */
  lemma CompletesAs(commit: Commit, script: nat -> Fault, c: CallingThreadBatches.Completion, after: Db)
    requires Accepts(commit.before, commit.operations, script, 0)
    requires RunScript(commit.before, commit.operations, script, 1) == Outcome(commit.results, commit.after, false)
    requires CallingThreadBatches.Completes(c, commit.operations, commit.before, after, script, 0)
    ensures c.error == None && after == commit.after && SameResults(Codes(commit.results), c.results)
  {
    hide RunScript, CallsMade;
  }

  // ------------------------------------------------------------------- poison

  /**
   The environment is poisoned exactly when the current Worker fails while a job
   is dispatched and unanswered; nothing an honest Worker sends does it.
   */
  lemma PoisonedIff(s: System, e: Event)
    requires Inv(s)
    ensures Next(s, e).p.poisoned <==>
      s.p.poisoned || (e.ErrorEvent? && s.p.microtasks == [] && s.p.worker == Some(e.w) && s.p.dispatched.Some?)
  {
    hide Inv;
    match e
    case Enqueue(operations, terminateAfterBegin, f) => EnqueueNeverPoisons(s, operations, terminateAfterBegin, f);
    case Deliver(w, releaseFails, f) => DeliverStep(s, w, releaseFails, f);
    case ErrorEvent(w) => ErrorStep(s, w);
    case _ =>
  }

  lemma EnqueueNeverPoisons(s: System, operations: seq<Operation>, terminateAfterBegin: bool, f: HostFaults)
    requires Inv(s)
    ensures Next(s, Enqueue(operations, terminateAfterBegin, f)).p.poisoned == s.p.poisoned
  {}

  /** After poison nothing is posted, started, begun or retained in the parent any more. */
  lemma PoisonIsAbsorbing(s: System, e: Event)
    requires Inv(s) && s.p.poisoned
    ensures var t := Next(s, e);
      && t.p.poisoned && t.p.closed && !t.parentTxn && t.p.activeWriter == NoOwner
      && t.p.posted == s.p.posted && |t.workers| == |s.workers| && t.next == s.next && t.p.jobs == []
      && s.p.calledBack <= t.p.calledBack && |t.p.calledBack| + |t.p.microtasks| == |s.p.calledBack| + |s.p.microtasks|
  {
    hide WorkersOk, Conserved, PostedOk, TasksOk, WaitingOk, CommitsOk, AnswersOk, Attempt;
    assert s.p.worker == None && s.p.active == None && JobIds([]) == [];
    if e.Deliver? && e.w < |s.workers| && s.workers[e.w].out != [] { assert s.p.worker != Some(e.w); }
  }

  /** The database does not change under an open transaction except by its own commit. */
  lemma OpenTransactionIsIsolated(s: System, e: Event, w: Id)
    requires Inv(s) && TxnOpen(s, w) && !(e.CommitTask? && e.w == w)
    ensures Next(s, e).db == s.db
  {
    hide ClientOk, WorkersOk, TasksOk, WaitingOk, CommitsOk, AnswersOk, Attempt, Box, Handled, Enqueued, FailedProtocol;
    OpenExcludes(s, w);
    if e.CommitTask? && e.w < |s.workers| { OneAtWork(s.p, s.workers, e.w, w); }
  }
}
