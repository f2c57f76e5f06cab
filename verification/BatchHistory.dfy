/**
 What a run remembers: the request behind each job number, and every change of the
 database in order.  Both are functions of the events, so that what is committed
 can be compared with what was asked for.
 */
module BatchHistory {
  import opened Common
  import opened BatchExecutor
  import opened BatchProtocol
  import opened BatchSystem

  // ---------------------------------------------------------------- requests

  /** The operations of the job an event enqueues, if it is accepted. */
  function Accepted(s: System, e: Event): seq<seq<Operation>> {
    if e.Enqueue? && !s.p.closed && !s.p.poisoned && |e.operations| <= MAX_ARRAY_LENGTH then [e.operations] else []
  }

  /** The requests of a run: the `i`-th is that of job `i`. */
  function Requests(s: System, events: seq<Event>): seq<seq<Operation>>
    decreases |events|
  {
    if events == [] then [] else Accepted(s, events[0]) + Requests(Next(s, events[0]), events[1..])
  }

  predicate Asked(id: Id, operations: seq<Operation>, requests: seq<seq<Operation>>) {
    id < |requests| && operations == requests[id]
  }

  predicate MessageAsked(m: ToWorker, requests: seq<seq<Operation>>) {
    m.PostedJob? ==> Asked(m.id, m.operations, requests)
  }

  predicate TaskAsked(worker: Worker, requests: seq<seq<Operation>>) {
    worker.task.Some? ==> Asked(worker.task.value.id, worker.task.value.operations, requests)
  }

  ghost predicate ClientAsked(p: Parent, requests: seq<seq<Operation>>) {
    && (p.active.Some? ==> Asked(p.active.value.id, p.active.value.operations, requests))
    && (forall i :: 0 <= i < |p.queue| ==> Asked(p.queue[i].id, p.queue[i].operations, requests))
    && (forall w, i :: w in p.inboxes && 0 <= i < |p.inboxes[w]| ==> MessageAsked(p.inboxes[w][i], requests))
  }

  /** Whatever carries a job number carries the operations that job was enqueued with. */
  ghost predicate AllAsked(s: System, requests: seq<seq<Operation>>) {
    && |requests| == s.next && ClientAsked(s.p, requests)
    && (forall w: Id :: w < |s.workers| ==> TaskAsked(s.workers[w], requests))
    && (forall j :: 0 <= j < |s.commits| ==> Asked(s.commits[j].id, s.commits[j].operations, requests))
  }

  lemma MoreRequests(s: System, requests: seq<seq<Operation>>, operations: seq<Operation>)
    requires AllAsked(s, requests)
    ensures AllAsked(s.(next := s.next + 1), requests + [operations])
  {}

  lemma RecoveredAsked(p: Parent, requests: seq<seq<Operation>>)
    requires ClientAsked(p, requests)
    ensures ClientAsked(Recovered(p), requests) && ClientAsked(FailedUnexpectedly(p), requests)
    ensures ClientAsked(FailedProtocol(p), requests)
  {
    hide IdSet, FailAll;
  }

  lemma PostedAsked(p: Parent, w: Id, job: Job, requests: seq<seq<Operation>>)
    requires ClientAsked(p, requests) && Asked(job.id, job.operations, requests)
    ensures ClientAsked(PostedTo(p, w, job), requests)
  {
    var m := PostedJob(job.id, job.operations, job.terminateAfterBegin);
    var box := Box(p, w) + [m];
    forall i | 0 <= i < |box| ensures MessageAsked(box[i], requests) {
      if i < |Box(p, w)| { assert box[i] == p.inboxes[w][i]; }
    }
  }

  lemma ActivatedAsked(p: Parent, job: Job, f: HostFaults, w: Id, requests: seq<seq<Operation>>)
    requires ClientAsked(p, requests) && Asked(job.id, job.operations, requests)
    ensures ClientAsked(Activated(p, job, f, w), requests)
  {
    hide Recovered, PostedTo, Asked;
    RecoveredAsked(p, requests);
    var p1 := p.(reservation := Some(job.id), activeWriter := BatchWriter(job.id), active := Some(job));
    RecoveredAsked(p1, requests);
    var p2 := if p1.worker == None then p1.(worker := Some(w), inboxes := p1.inboxes[w := [Start]]) else p1;
    assert ClientAsked(p2, requests);
    RecoveredAsked(p2, requests);
    if p2.worker.Some? { PostedAsked(p2, p2.worker.value, job, requests); }
  }

  lemma EnqueuedAsked(p: Parent, job: Job, f: HostFaults, w: Id, requests: seq<seq<Operation>>)
    requires ClientAsked(p, requests) && Asked(job.id, job.operations, requests)
    ensures ClientAsked(Enqueued(p, job, f, w), requests)
  {
    hide Activated;
    ActivatedAsked(p.(jobs := p.jobs + [job.id], leased := p.leased + {job.id}), job, f, w, requests);
  }

  lemma FinishedAsked(p: Parent, job: Job, error: Option<Failure>, releaseFails: bool, f: HostFaults, w: Id,
                      requests: seq<seq<Operation>>)
    requires ClientAsked(p, requests)
    ensures ClientAsked(Finished(p, job, error, releaseFails, f, w), requests)
  {
    hide Activated, Without, Asked;
    var p1 := Settled(p, job);
    if p1.queue != [] {
      assert Asked(p1.queue[0].id, p1.queue[0].operations, requests);
      ActivatedAsked(p1.(queue := p1.queue[1..]), p1.queue[0], f, w, requests);
    }
  }

  lemma {:induction false} AppliedAsked(job: Job, deltas: seq<(int, int)>)
    ensures ApplyAll(job, deltas).Some? ==>
      ApplyAll(job, deltas).value.id == job.id && ApplyAll(job, deltas).value.operations == job.operations
    decreases |deltas|
  {
    if deltas != [] && Acceptable(job, deltas[0]) { AppliedAsked(Apply(job, deltas[0]), deltas[1..]); }
  }

  lemma ReadyAsked(p: Parent, f: HostFaults, requests: seq<seq<Operation>>)
    requires ClientAsked(p, requests)
    ensures ClientAsked(HandledReady(p, f), requests)
  {
    hide FailedProtocol, Recovered, PostedTo, Asked;
    RecoveredAsked(p, requests);
    RecoveredAsked(p.(ready := true), requests);
    if p.worker.Some? && p.active.Some? { PostedAsked(p.(ready := true), p.worker.value, p.active.value, requests); }
  }

  lemma HandledAsked(p: Parent, message: Reply, releaseFails: bool, f: HostFaults, w: Id, requests: seq<seq<Operation>>)
    requires ClientAsked(p, requests)
    ensures ClientAsked(Handled(p, message, releaseFails, f, w), requests)
  {
    hide Finished, FailedProtocol, FailedUnexpectedly, HandledReady, ApplyAll, EveryResult, Asked;
    ReadyAsked(p, f, requests);
    RecoveredAsked(p, requests);
    if p.active.Some? {
      var job := p.active.value;
      FinishedAsked(p.(dispatched := None), job, Some(WorkerFailure), releaseFails, f, w, requests);
      FinishedAsked(p.(dispatched := None), job, None, releaseFails, f, w, requests);
      if message.Progress? { AppliedAsked(job, message.deltas); }
    }
  }

  lemma ParentAsked(s: System, p: Parent, requests: seq<seq<Operation>>)
    requires AllAsked(s, requests) && ClientAsked(p, requests)
    ensures AllAsked(WithParent(s, p), requests)
  {
    hide ClientAsked, Asked;
  }

  lemma WorkerAsked(s: System, w: Id, worker: Worker, requests: seq<seq<Operation>>)
    requires AllAsked(s, requests) && w < |s.workers| && TaskAsked(worker, requests)
    ensures AllAsked(WithWorker(s, w, worker), requests)
  {
    hide ClientAsked, Asked;
  }

  lemma TakenAsked(s: System, w: Id, requests: seq<seq<Operation>>)
    requires AllAsked(s, requests) && w < |s.workers| && Box(s.p, w) != []
    ensures AllAsked(TakeMessage(s, w), requests)
  {
    hide Asked;
    assert MessageAsked(s.p.inboxes[w][0], requests);
    forall i | 0 <= i < |s.p.inboxes[w]| - 1 ensures MessageAsked(s.p.inboxes[w][1..][i], requests) {
      assert MessageAsked(s.p.inboxes[w][i + 1], requests);
    }
    assert ClientAsked(Taken(s.p, w), requests);
  }

  lemma SteppedAsked(s: System, w: Id, e: Event, requests: seq<seq<Operation>>)
    requires AllAsked(s, requests) && w < |s.workers| && s.workers[w].task.Some?
    ensures AllAsked(StepTask(s, w, e), requests)
  {
    hide ClientAsked, Asked, Attempt;
    assert TaskAsked(s.workers[w], requests);
  }

  lemma DeliveredAsked(s: System, w: Id, releaseFails: bool, f: HostFaults, requests: seq<seq<Operation>>)
    requires AllAsked(s, requests) && w < |s.workers| && s.workers[w].out != []
    ensures AllAsked(DeliverMessage(s, w, releaseFails, f), requests)
  {
    hide ClientAsked, Handled, Asked;
    var popped := WithWorker(s, w, s.workers[w].(out := s.workers[w].out[1..]));
    assert TaskAsked(s.workers[w], requests);
    WorkerAsked(s, w, s.workers[w].(out := s.workers[w].out[1..]), requests);
    HandledAsked(s.p, s.workers[w].out[0], releaseFails, f, |s.workers|, requests);
    ParentAsked(popped, Handled(s.p, s.workers[w].out[0], releaseFails, f, |s.workers|), requests);
  }

  lemma NextAsked(s: System, e: Event, requests: seq<seq<Operation>>)
    requires AllAsked(s, requests)
    ensures AllAsked(Next(s, e), requests + Accepted(s, e))
  {
    hide Handled, Enqueued, FailedProtocol, TakeMessage, StepTask, DeliverMessage, Asked, TaskAsked, MessageAsked,
        NewJob;
    if Accepted(s, e) == [] { assert requests + [] == requests; }
    match e
    case Enqueue(operations, terminateAfterBegin, f) =>
      if Accepted(s, e) != [] {
        MoreRequests(s, requests, operations);
        var job := NewJob(s.next, operations, terminateAfterBegin);
        FreshAsked(s.next, operations, terminateAfterBegin, requests + [operations]);
        EnqueuedAsked(s.p, job, f, |s.workers|, requests + [operations]);
        ParentAsked(s.(next := s.next + 1), Enqueued(s.p, job, f, |s.workers|), requests + [operations]);
      }
    case Deliver(w, releaseFails, f) =>
      if w < |s.workers| && s.workers[w].out != [] { DeliveredAsked(s, w, releaseFails, f, requests); }
    case ErrorEvent(_) => RecoveredAsked(s.p, requests);
    case Take(w) => if w < |s.workers| && Box(s.p, w) != [] { TakenAsked(s, w, requests); }
    case FinishInitialization(w) =>
      if w < |s.workers| { SameTaskAsked(s, w, Up, s.workers[w].dead, s.workers[w].out + [Ready], requests); }
    case Die(w) =>
      if w < |s.workers| { SameTaskAsked(s, w, s.workers[w].phase, true, s.workers[w].out, requests); }
    case BeginTask(w, _) => if w < |s.workers| && s.workers[w].task.Some? { SteppedAsked(s, w, e, requests); }
    case RunOperation(w, _) => if w < |s.workers| && s.workers[w].task.Some? { SteppedAsked(s, w, e, requests); }
    case CommitTask(w, _) => if w < |s.workers| && s.workers[w].task.Some? { SteppedAsked(s, w, e, requests); }
    case Answer(w) => if w < |s.workers| && s.workers[w].task.Some? { SteppedAsked(s, w, e, requests); }
    case _ =>
  }

  lemma FreshAsked(id: Id, operations: seq<Operation>, terminateAfterBegin: bool, requests: seq<seq<Operation>>)
    requires id < |requests| && requests[id] == operations
    ensures var job := NewJob(id, operations, terminateAfterBegin); Asked(job.id, job.operations, requests)
  {}

  lemma SameTaskAsked(s: System, w: Id, phase: Phase, dead: bool, out: seq<Reply>, requests: seq<seq<Operation>>)
    requires AllAsked(s, requests) && w < |s.workers|
    ensures AllAsked(WithWorker(s, w, s.workers[w].(phase := phase, dead := dead, out := out)), requests)
  {
    hide ClientAsked, Asked;
    assert TaskAsked(s.workers[w], requests);
    WorkerAsked(s, w, s.workers[w].(phase := phase, dead := dead, out := out), requests);
  }

  lemma {:induction false} RunAsked(s: System, events: seq<Event>, requests: seq<seq<Operation>>)
    requires AllAsked(s, requests)
    ensures AllAsked(RunEvents(s, events), requests + Requests(s, events))
    decreases |events|
  {
    hide AllAsked, Next, Accepted;
    if events == [] {
      assert requests + [] == requests;
    } else {
      NextAsked(s, events[0], requests);
      RunAsked(Next(s, events[0]), events[1..], requests + Accepted(s, events[0]));
      assert requests + Accepted(s, events[0]) + Requests(Next(s, events[0]), events[1..])
          == requests + Requests(s, events);
    }
  }

  /** In every state of a run each commit is of the very operations its job was enqueued with. */
  lemma CommitsWereAsked(db: Db, events: seq<Event>)
    ensures var s, requests := RunEvents(Initial(db), events), Requests(Initial(db), events);
      && |requests| == s.next
      && forall j :: 0 <= j < |s.commits| ==>
          s.commits[j].id < s.next && s.commits[j].operations == requests[s.commits[j].id]
  {
    RunAsked(Initial(db), events, []);
    assert [] + Requests(Initial(db), events) == Requests(Initial(db), events);
    hide ClientAsked, TaskAsked;
    assert forall j :: 0 <= j < |RunEvents(Initial(db), events).commits| ==>
      Asked(RunEvents(Initial(db), events).commits[j].id, RunEvents(Initial(db), events).commits[j].operations,
            Requests(Initial(db), events));
  }

  // ------------------------------------------------------- the database chain

  /** One change of the database: a batch committed, or another writer of the parent. */
  datatype Change = ByBatch(commit: Commit) | ByOther(before: Db, after: Db)

  function Before(c: Change): Db { if c.ByBatch? then c.commit.before else c.before }
  function After(c: Change): Db { if c.ByBatch? then c.commit.after else c.after }

  /** What an event does to the database. */
  function ChangeOf(s: System, e: Event): seq<Change> {
    var t := Next(s, e);
    if |t.commits| > |s.commits| then [ByBatch(t.commits[|t.commits| - 1])]
    else if e.EndOtherWriter? && s.parentTxn then [ByOther(s.db, t.db)]
    else []
  }

  function Changes(s: System, events: seq<Event>): seq<Change>
    decreases |events|
  {
    if events == [] then [] else ChangeOf(s, events[0]) + Changes(Next(s, events[0]), events[1..])
  }

  /** Each change starts from what the one before it left. */
  predicate Chained(first: Db, changes: seq<Change>, last: Db)
    decreases |changes|
  {
    if changes == [] then first == last
    else Before(changes[0]) == first && Chained(After(changes[0]), changes[1..], last)
  }

  function BatchesIn(changes: seq<Change>): seq<Commit>
    decreases |changes|
  {
    if changes == [] then []
    else (if changes[0].ByBatch? then [changes[0].commit] else []) + BatchesIn(changes[1..])
  }

  lemma {:induction false} BatchesConcat(a: seq<Change>, b: seq<Change>)
    ensures BatchesIn(a + b) == BatchesIn(a) + BatchesIn(b)
    decreases |a|
  {
    if a == [] { assert a + b == b; } else {
      assert (a + b)[1..] == a[1..] + b;
      BatchesConcat(a[1..], b);
    }
  }

  lemma {:induction false} ChainedConcat(first: Db, a: seq<Change>, middle: Db, b: seq<Change>, last: Db)
    requires Chained(first, a, middle) && Chained(middle, b, last)
    ensures Chained(first, a + b, last)
    decreases |a|
  {
    if a == [] { assert a + b == b; } else {
      assert (a + b)[1..] == a[1..] + b;
      ChainedConcat(After(a[0]), a[1..], middle, b, last);
    }
  }

  /** Only a commit and the end of another writer touch the database. */
  lemma NoChangeOf(s: System, e: Event)
    requires !e.CommitTask? && !e.EndOtherWriter?
    ensures Next(s, e).db == s.db && Next(s, e).commits == s.commits
  {
    hide Handled, Enqueued, FailedProtocol, Attempt;
  }

  lemma CommitChange(s: System, w: Id, ok: bool)
    ensures var t := Next(s, CommitTask(w, ok));
      || (t.db == s.db && t.commits == s.commits)
      || (|t.commits| > 0 && t.commits == s.commits + [t.commits[|t.commits| - 1]]
          && t.commits[|t.commits| - 1].before == s.db && t.commits[|t.commits| - 1].after == t.db)
  {}

  lemma SingleChange(c: Change)
    ensures Chained(Before(c), [c], After(c))
    ensures BatchesIn([c]) == if c.ByBatch? then [c.commit] else []
  {
    var none: seq<Change> := [];
    assert [c][1..] == none;
    assert Chained(After(c), none, After(c)) && BatchesIn(none) == [];
  }

  /** An event leaves the database alone, or adds one change that starts from it. */
  lemma OneChange(s: System, e: Event)
    ensures Chained(s.db, ChangeOf(s, e), Next(s, e).db)
    ensures Next(s, e).commits == s.commits + BatchesIn(ChangeOf(s, e))
  {
    hide Chained, BatchesIn, StepTask;
    NoChange(s.db);
    assert s.commits + [] == s.commits;
    if ChangeOf(s, e) != [] { SingleChange(ChangeOf(s, e)[0]); }
    match e
    case CommitTask(w, ok) =>
      hide Next;
      CommitChange(s, w, ok);
    case EndOtherWriter(_) =>
    case _ =>
      hide Next;
      NoChangeOf(s, e);
  }

  /**
   The database is the first one with every change of the run applied in turn, and the
   batches among them are the commits.
   */
  lemma {:induction false} RunChanges(s: System, events: seq<Event>)
    ensures Chained(s.db, Changes(s, events), RunEvents(s, events).db)
    ensures RunEvents(s, events).commits == s.commits + BatchesIn(Changes(s, events))
    decreases |events|
  {
    hide Next, ChangeOf, Chained, BatchesIn;
    if events == [] {
      NoChange(s.db);
      assert s.commits + [] == s.commits;
    } else {
      var t := Next(s, events[0]);
      OneChange(s, events[0]);
      RunChanges(t, events[1..]);
      ChainedConcat(s.db, ChangeOf(s, events[0]), t.db, Changes(t, events[1..]), RunEvents(s, events).db);
      BatchesConcat(ChangeOf(s, events[0]), Changes(t, events[1..]));
      assert s.commits + BatchesIn(ChangeOf(s, events[0])) + BatchesIn(Changes(t, events[1..]))
          == s.commits + (BatchesIn(ChangeOf(s, events[0])) + BatchesIn(Changes(t, events[1..])));
    }
  }

  lemma NoChange(db: Db)
    ensures Chained(db, [], db) && BatchesIn([]) == []
  {}
}
