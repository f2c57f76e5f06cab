/**
 Left alone, the protocol settles: every step other than a new job or another
 writer's step lowers a measure, and while a job is retained the current Worker, or
 the message it is to get or has sent, can take one more step.  A failure is needed
 for that only when the current Worker has died or hangs in the deliberate failure.
 */
module BatchTermination {
  import opened Common
  import opened BatchExecutor
  import opened BatchProtocol
  import opened BatchSystem
  import opened BatchClientLemmas
  import opened BatchInvariant
  import opened BatchWorkerLemmas
  import opened BatchParentLemmas
  import opened BatchDeliveryLemmas
  import opened BatchRuns

  /** What still has to happen to a job that is not dispatched yet. */
  function JobWeight(operations: seq<Operation>): nat { 2 * |operations| + 8 }

  function QueueWeight(queue: seq<Job>): nat {
    if queue == [] then 0 else JobWeight(queue[0].operations) + QueueWeight(queue[1..])
  }

  function MessageWeight(message: ToWorker): nat {
    match message
    case Start => 4
    case PostedJob(_, operations, _) => 2 * |operations| + 6
  }

  function BoxWeight(box: seq<ToWorker>): nat {
    if box == [] then 0 else MessageWeight(box[0]) + BoxWeight(box[1..])
  }

  function TaskWeight(task: Task): nat {
    match task.stage
    case NotBegun => 2 * |task.operations| + 5
    case Open(_) => 4 + if |task.results| < |task.operations| then 2 * (|task.operations| - |task.results|) else 0
    case Ended(_) => 2
    case Answered(_) => 0
  }

  function WorkerWeight(worker: Worker, box: seq<ToWorker>): nat {
    (if worker.dead then 0 else 1) + (if worker.phase == Initializing then 3 else 0) + |worker.out| + BoxWeight(box)
    + if worker.task.Some? then TaskWeight(worker.task.value) else 0
  }

  function WorkersWeight(p: Parent, workers: seq<Worker>, n: nat): nat
    requires n <= |workers|
  {
    if n == 0 then 0 else WorkersWeight(p, workers, n - 1) + WorkerWeight(workers[n - 1], Box(p, n - 1))
  }

  function ClientWeight(p: Parent): nat {
    |p.microtasks| + QueueWeight(p.queue) + (if p.worker.Some? then 1 else 0)
    + if p.active == None then 0 else if p.dispatched.Some? then 1 else JobWeight(p.active.value.operations)
  }

  function Measure(s: System): nat { ClientWeight(s.p) + WorkersWeight(s.p, s.workers, |s.workers|) }

  /** Steps nobody outside the protocol takes. */
  predicate Internal(e: Event) {
    !e.Enqueue? && !e.BeginOtherWriter? && !e.EndOtherWriter? && !e.CloseClient?
  }

  // ------------------------------------------------------------- arithmetic

  lemma {:induction false} SameWeight(p: Parent, q: Parent, a: seq<Worker>, b: seq<Worker>, n: nat)
    requires n <= |a| && n <= |b|
    requires forall v: Id :: v < n ==> a[v] == b[v] && Box(p, v) == Box(q, v)
    ensures WorkersWeight(p, a, n) == WorkersWeight(q, b, n)
  {
    hide WorkerWeight, Box;
    if n > 0 { SameWeight(p, q, a, b, n - 1); }
  }

  /** Only Worker `w` or its inbox changed. */
  lemma {:induction false} OneWeight(p: Parent, q: Parent, a: seq<Worker>, b: seq<Worker>, w: Id, n: nat)
    requires w < n <= |a| && |b| == |a|
    requires forall v: Id :: v < n && v != w ==> a[v] == b[v] && Box(p, v) == Box(q, v)
    ensures WorkersWeight(q, b, n) - WorkerWeight(b[w], Box(q, w))
      == WorkersWeight(p, a, n) - WorkerWeight(a[w], Box(p, w))
  {
    hide WorkerWeight, Box;
    if w == n - 1 { SameWeight(p, q, a, b, n - 1); } else { OneWeight(p, q, a, b, w, n - 1); }
  }

  lemma InboxesDecide(p: Parent, q: Parent, workers: seq<Worker>)
    requires p.inboxes == q.inboxes
    ensures WorkersWeight(p, workers, |workers|) == WorkersWeight(q, workers, |workers|)
  {
    assert forall v: Id :: Box(p, v) == Box(q, v);
    SameWeight(p, q, workers, workers, |workers|);
  }

  // ----------------------------------------------------------- Worker steps

  /** A Worker's own step lowers its own weight. */
  lemma OwnStep(s: System, q: Parent, w: Id, worker: Worker)
    requires w < |s.workers| && q == s.p.(inboxes := q.inboxes) && (forall v: Id :: v != w ==> Box(q, v) == Box(s.p, v))
    requires WorkerWeight(worker, Box(q, w)) < WorkerWeight(s.workers[w], Box(s.p, w))
    ensures forall t: System :: t.p == q && t.workers == s.workers[w := worker] ==> Measure(t) < Measure(s)
  {
    hide WorkerWeight, Box, JobWeight, QueueWeight;
    OneWeight(s.p, q, s.workers, s.workers[w := worker], w, |s.workers|);
  }

  lemma LifeStepDescends(s: System, e: Event)
    requires Inv(s) && Next(s, e) != s && (e.Die? || e.FinishInitialization?)
    ensures Measure(Next(s, e)) < Measure(s)
  {
    hide Inv, Box, Measure, BoxWeight, TaskWeight;
    TaskOf(s, e.w);
    OwnStep(s, s.p, e.w, Next(s, e).workers[e.w]);
  }

  lemma TaskStepLighter(s: System, w: Id, e: Event)
    requires w < |s.workers| && s.workers[w].task.Some? && StepTask(s, w, e) != s
    requires e.BeginTask? || e.RunOperation? || e.CommitTask? || e.Answer?
    requires TaskOk(s.workers[w].task.value, s.db, s.commits)
    ensures var t := StepTask(s, w, e);
      && t.p == s.p && |t.workers| == |s.workers| && t.workers == s.workers[w := t.workers[w]]
      && WorkerWeight(t.workers[w], Box(s.p, w)) < WorkerWeight(s.workers[w], Box(s.p, w))
  {
    hide Box, BoxWeight, Run, CommittedId, CommittedWith, Attempt;
    var task := s.workers[w].task.value;
    if e.BeginTask? && task.stage == NotBegun {
    } else if e.RunOperation? {
    } else if e.CommitTask? {
    } else {
    }
  }

  lemma TaskStepDescends(s: System, e: Event)
    requires Inv(s) && Next(s, e) != s && (e.BeginTask? || e.RunOperation? || e.CommitTask? || e.Answer?)
    ensures Measure(Next(s, e)) < Measure(s)
  {
    hide Inv, Box, Measure, StepTask, TaskOk, WorkerWeight;
    TaskOf(s, e.w);
    TaskStepLighter(s, e.w, e);
    OwnStep(s, s.p, e.w, Next(s, e).workers[e.w]);
  }

  lemma TakeDescends(s: System, w: Id)
    requires Inv(s) && Next(s, Take(w)) != s
    ensures Measure(Next(s, Take(w))) < Measure(s)
  {
    hide Inv, Box, Measure;
    TakenBoxes(s.p, w);
    InboxFields(s.p, w);
    if HasJob(s.p, w) { InboxShape(s, w); }
    OwnStep(s, Taken(s.p, w), w, Next(s, Take(w)).workers[w]);
  }

  // ------------------------------------------------------------ parent steps

  lemma {:induction false} QueueAtLeast(queue: seq<Job>)
    ensures QueueWeight(queue) >= |queue|
  {
    if queue != [] { QueueAtLeast(queue[1..]); }
  }

  /** Recovery trades every retained job for one due callback, and lets the Worker go. */
  lemma RecoveredLighter(p: Parent)
    requires |p.jobs| == |p.queue| + (if p.active.Some? then 1 else 0) && !p.closed
    ensures ClientWeight(Recovered(p)) + (if p.worker.Some? then 1 else 0) <= ClientWeight(p)
  {
    QueueAtLeast(p.queue);
    hide IdSet;
  }

  lemma PoisonedLighter(p: Parent)
    requires !p.closed
    ensures ClientWeight(FailedUnexpectedly(p)) + (if p.worker.Some? then 1 else 0) <= ClientWeight(p)
  {
    hide IdSet, FailAll;
  }

  lemma RetainedCount(p: Parent)
    requires Shape(p)
    ensures |p.jobs| == |p.queue| + if p.active.Some? then 1 else 0
  {}

  lemma FailedBoxes(p: Parent)
    ensures FailedProtocol(p).inboxes == p.inboxes
  {
    hide IdSet, FailAll;
  }

  lemma ErrorDescends(s: System, w: Id)
    requires Inv(s) && Next(s, ErrorEvent(w)) != s
    ensures Measure(Next(s, ErrorEvent(w))) < Measure(s)
  {
    hide ClientOk, WorkersOk, DatabaseOk, WorkersWeight, ClientWeight, Shape, Recovered, FailedUnexpectedly;
    Parts(s);
    ClientShape(s.p, s.next);
    NotClosed(s);
    RetainedCount(s.p);
    RecoveredLighter(s.p);
    PoisonedLighter(s.p);
    FailedBoxes(s.p);
    InboxesDecide(s.p, FailedProtocol(s.p), s.workers);
  }

  lemma ClientShape(p: Parent, next: Id)
    requires ClientOk(p, next)
    ensures Shape(p)
  {
    hide Shape, Conserved, PostedOk;
  }

  lemma MicrotaskDescends(s: System)
    requires s.p.microtasks != []
    ensures Measure(Next(s, RunMicrotask)) < Measure(s)
  {
    InboxesDecide(s.p, MicrotaskRun(s.p), s.workers);
    hide WorkersWeight, QueueWeight, JobWeight;
  }

  /** What a posted job weighs in its inbox. */
  lemma PostedBox(p: Parent, w: Id, job: Job)
    requires Box(p, w) == []
    ensures BoxWeight(Box(PostedTo(p, w, job), w)) == 2 * |job.operations| + 6
    ensures forall v: Id :: v != w ==> Box(PostedTo(p, w, job), v) == Box(p, v)
  {
    var m := PostedJob(job.id, job.operations, job.terminateAfterBegin);
    assert [] + [m] == [m] && BoxWeight([m]) == MessageWeight(m) + BoxWeight([m][1..]);
  }

  lemma RecoveredBoxes(p: Parent)
    ensures Recovered(p).inboxes == p.inboxes && forall v: Id :: Box(Recovered(p), v) == Box(p, v)
  {
    hide IdSet;
  }

  /** An activation costs no more than the job it activates. */
  lemma ActivatedLighter(p: Parent, job: Job, f: HostFaults, n: Id)
    requires Between(p, job) && p.worker.Some? && Box(p, p.worker.value) == []
    ensures var q := Activated(p, job, f, n);
      ClientWeight(q) + BoxWeight(Box(q, p.worker.value)) <= ClientWeight(p) + JobWeight(job.operations)
      && forall v: Id :: v != p.worker.value ==> Box(q, v) == Box(p, v)
  {
    hide QueueWeight, IdSet, JobIds, Fresh, Recovered, Box, BoxWeight;
    QueueAtLeast(p.queue);
    EmptyBox();
    var w := p.worker.value;
    var p1 := p.(reservation := Some(job.id), activeWriter := BatchWriter(job.id), active := Some(job));
    RecoveredBoxes(p);
    RecoveredBoxes(p1);
    SameBoxes(p, p1);
    assert |p.jobs| == |p.queue| + 1;
    if p.activeWriter != NoOwner {
      RecoveredWeighs(p);
    } else if f.postFails {
      RecoveredWeighs(p1);
    } else {
      PostedBox(p1, w, job);
    }
  }

  lemma SameBoxes(p: Parent, q: Parent)
    requires q.inboxes == p.inboxes
    ensures forall v: Id :: Box(q, v) == Box(p, v)
  {}

  lemma RecoveredWeighs(p: Parent)
    requires !p.closed
    ensures ClientWeight(Recovered(p)) == |p.microtasks| + |p.jobs|
  {
    hide IdSet;
  }

  lemma FinishedLighter(p: Parent, error: Option<Failure>, releaseFails: bool, f: HostFaults, n: Id, next: Id)
    requires ClientOk(p, next) && p.active.Some? && p.microtasks == [] && p.dispatched == Some(p.active.value.id)
    requires p.worker.Some? && Box(p, p.worker.value) == [] && (error == None || error == Some(WorkerFailure))
    ensures var q := Finished(p.(dispatched := None), p.active.value, error, releaseFails, f, n);
      ClientWeight(q) + BoxWeight(Box(q, p.worker.value)) <= ClientWeight(p)
      && forall v: Id :: v != p.worker.value ==> Box(q, v) == Box(p, v)
  {
    hide Activated, Settled, Conserved, PostedOk, IdSet, Fresh, JobWeight, BoxWeight;
    SettledFields(p, next);
    var settled := Settled(p.(dispatched := None), p.active.value);
    assert BoxWeight([]) == 0 by { EmptyBox(); }
    if p.queue != [] {
      JobIdsTail(p.queue);
      SameBoxes(p, settled.(queue := p.queue[1..]));
      ActivatedLighter(settled.(queue := p.queue[1..]), p.queue[0], f, n);
    }
  }

  lemma EmptyBox()
    ensures BoxWeight([]) == 0
  {}

  lemma ReadyLighter(p: Parent, f: HostFaults, next: Id)
    requires ClientOk(p, next) && !p.ready && p.worker.Some? && Box(p, p.worker.value) == []
    ensures var q := HandledReady(p, f);
      ClientWeight(q) + BoxWeight(Box(q, p.worker.value)) <= ClientWeight(p)
      && forall v: Id :: v != p.worker.value ==> Box(q, v) == Box(p, v)
  {
    var job := p.active.value;
    RetainedCount(p);
    QueueAtLeast(p.queue);
    hide QueueWeight, IdSet, JobIds, Conserved, PostedOk;
    var m := PostedJob(job.id, job.operations, job.terminateAfterBegin);
    assert [] + [m] == [m] && BoxWeight([m]) == MessageWeight(m) + BoxWeight([m][1..]);
  }

  /** The message leaves the channel, and what it sets off weighs no more than before. */
  lemma DeliveredLighter(s: System, w: Id, q: Parent)
    requires w < |s.workers| && s.workers[w].out != [] && q.worker != Some(|s.workers|)
    requires ClientWeight(q) + BoxWeight(Box(q, w)) <= ClientWeight(s.p) + BoxWeight(Box(s.p, w))
    requires forall v: Id :: v != w ==> Box(q, v) == Box(s.p, v)
    ensures Measure(WithParent(Popped(s, w), q)) < Measure(s)
  {
    OneWeight(s.p, q, s.workers, Popped(s, w).workers, w, |s.workers|);
    hide WorkersWeight, ClientWeight, BoxWeight, Box, TaskWeight;
  }

  lemma DeliverDescends(s: System, w: Id, releaseFails: bool, f: HostFaults)
    requires Inv(s) && Next(s, Deliver(w, releaseFails, f)) != s
    ensures Measure(Next(s, Deliver(w, releaseFails, f))) < Measure(s)
  {
    hide Inv, TaskOk, CurrentWorker, ProgressArrives, AnswerArrives, ReadyArrives, Box, Measure, ClientWeight,
         ClientOk, Handled, WithParent;
    TaskOf(s, w);
    OpenClient(s);
    if s.p.worker != Some(w) {
      ForeignPopped(s, w);
      DeliveredLighter(s, w, s.p);
    } else {
      FirstMessage(s.p, s.workers[w], Box(s.p, w));
      DeliveredHere(s, w, releaseFails, f);
    }
  }

  lemma ForeignPopped(s: System, w: Id)
    requires Inv(s) && w < |s.workers| && s.workers[w].out != []
    ensures s.p.worker != Some(|s.workers|) && WithParent(Popped(s, w), s.p) == Popped(s, w)
  {
    hide ClientOk, DatabaseOk, BoxesOk, WorkingOk, IdsOk, PendingOk, CurrentWorker;
  }

  lemma DeliveredHere(s: System, w: Id, releaseFails: bool, f: HostFaults)
    requires Inv(s) && s.p.microtasks == [] && s.p.worker == Some(w) && w < |s.workers| && s.workers[w].out != []
    requires CurrentWorker(s.p, s.workers[w], Box(s.p, w))
    requires s.p.ready && s.p.active.Some? ==> s.p.dispatched.Some?
    ensures Measure(DeliverMessage(s, w, releaseFails, f)) < Measure(s)
  {
    hide Inv, Measure, Box, CurrentWorker, ReadyArrives, ProgressArrives, AnswerArrives, DeliverMessage;
    OpenClient(s);
    FirstMessage(s.p, s.workers[w], Box(s.p, w));
    if ReadyArrives(s.p, s.workers[w], Box(s.p, w)) {
      ReadyDelivered(s, w, releaseFails, f);
    } else if ProgressArrives(s.p.active.value, s.workers[w], Box(s.p, w)) {
      ProgressDelivered(s, w, releaseFails, f);
    } else {
      AnswerDelivered(s, w, releaseFails, f);
    }
  }

  lemma ReadyDelivered(s: System, w: Id, releaseFails: bool, f: HostFaults)
    requires Inv(s) && s.p.microtasks == [] && s.p.worker == Some(w) && w < |s.workers| && s.workers[w].out != []
    requires ReadyArrives(s.p, s.workers[w], Box(s.p, w))
    ensures Measure(DeliverMessage(s, w, releaseFails, f)) < Measure(s)
  {
    hide Box, Measure, ClientWeight, BoxWeight, WorkersOk, DatabaseOk, ClientOk, HandledReady;
    Parts(s);
    NotClosed(s);
    EmptyBox();
    ReadyLighter(s.p, f, s.next);
    ReadyEffect(s.p, f, s.next);
    DeliveredLighter(s, w, HandledReady(s.p, f));
  }

  lemma ProgressDelivered(s: System, w: Id, releaseFails: bool, f: HostFaults)
    requires Inv(s) && s.p.microtasks == [] && s.p.worker == Some(w) && w < |s.workers| && s.workers[w].out != []
    requires s.p.ready && s.p.active.Some? && s.p.dispatched == Some(s.p.active.value.id)
    requires ProgressArrives(s.p.active.value, s.workers[w], Box(s.p, w))
    ensures Measure(DeliverMessage(s, w, releaseFails, f)) < Measure(s)
  {
    hide Received, Box, Measure, ClientWeight, BoxWeight, WorkersOk, DatabaseOk, ClientOk, ProgressFrom,
         FailedUnexpectedly, ApplyAll;
    Parts(s);
    NotClosed(s);
    EmptyBox();
    var job, task := s.p.active.value, s.workers[w].task.value;
    AppliedProgress(job, task.results);
    var q := s.p.(active := ApplyAll(job, [(job.receivedCount, Code(task.results[job.receivedCount]))]));
    ResultsWeighNothing(s.p, q);
    DeliveredLighter(s, w, q);
  }

  lemma AnswerDelivered(s: System, w: Id, releaseFails: bool, f: HostFaults)
    requires Inv(s) && s.p.microtasks == [] && s.p.worker == Some(w) && w < |s.workers| && s.workers[w].out != []
    requires s.p.ready && s.p.active.Some? && s.p.dispatched == Some(s.p.active.value.id)
    requires AnswerArrives(s.p.active.value, s.workers[w], Box(s.p, w))
    ensures Measure(DeliverMessage(s, w, releaseFails, f)) < Measure(s)
  {
    hide TaskOk, Received, Box, Measure, ClientWeight, BoxWeight, WorkersOk, DatabaseOk, ClientOk, Finished,
         ProgressFrom, FailedUnexpectedly, EveryResult;
    Parts(s);
    NotClosed(s);
    EmptyBox();
    var job, task := s.p.active.value, s.workers[w].task.value;
    var error := if task.stage.committed then None else Some(WorkerFailure);
    TaskOf(s, w);
    AnswerIsTrue(task, s.db, s.commits, job, releaseFails);
    FinishedLighter(s.p, error, releaseFails, f, |s.workers|, s.next);
    FinishedEffect(s.p, error, releaseFails, f, |s.workers|, s.next);
    DeliveredLighter(s, w, Finished(s.p.(dispatched := None), job, error, releaseFails, f, |s.workers|));
  }

  lemma ResultsWeighNothing(p: Parent, q: Parent)
    requires q == p.(active := q.active) && p.active.Some? && q.active.Some? && p.dispatched.Some?
    ensures ClientWeight(q) == ClientWeight(p) && forall v: Id :: Box(q, v) == Box(p, v)
  {}

  // ------------------------------------------------------------------- results

  /** Every internal step that does anything lowers the measure. */
  lemma InternalStepDescends(s: System, e: Event)
    requires Inv(s) && Internal(e) && Next(s, e) != s
    ensures Measure(Next(s, e)) < Measure(s)
  {
    hide Inv, Measure;
    match e
    case RunMicrotask => MicrotaskDescends(s);
    case Deliver(w, releaseFails, f) => DeliverDescends(s, w, releaseFails, f);
    case ErrorEvent(w) => ErrorDescends(s, w);
    case Take(w) => TakeDescends(s, w);
    case FinishInitialization(_) => LifeStepDescends(s, e);
    case Die(_) => LifeStepDescends(s, e);
    case _ => TaskStepDescends(s, e);
  }

  /** Every event of the run does something. */
  predicate Effective(s: System, events: seq<Event>)
    decreases |events|
  {
    events == [] || (Internal(events[0]) && Next(s, events[0]) != s && Effective(Next(s, events[0]), events[1..]))
  }

  /** So no internal run is longer than the measure. */
  lemma {:induction false} InternalRunsEnd(s: System, events: seq<Event>)
    requires Inv(s) && Effective(s, events)
    ensures |events| <= Measure(s)
    decreases |events|
  {
    hide Inv, Measure, Next;
    if events != [] {
      InternalStepDescends(s, events[0]);
      NextKeeps(s, events[0]);
      InternalRunsEnd(Next(s, events[0]), events[1..]);
    }
  }

  // ------------------------------------------------------------------ progress

  /** The current Worker will never answer: it is dead, or holds the transaction of the deliberate failure. */
  predicate Stuck(s: System) {
    s.p.worker.Some? && s.p.worker.value < |s.workers|
    && var worker := s.workers[s.p.worker.value];
    worker.dead || (worker.task.Some? && worker.task.value.stage.Open? && worker.task.value.terminateAfterBegin)
  }

  /**
   The steps that need no failure: due callbacks, deliveries, and what live Workers
   do.  The error of the current Worker is one of them only when that is stuck.
   */
  predicate Ordinary(s: System, e: Event) {
    match e
    case RunMicrotask => true
    case Deliver(_, _, _) => true
    case Take(_) => true
    case FinishInitialization(_) => true
    case BeginTask(_, _) => true
    case RunOperation(_, _) => true
    case CommitTask(_, _) => true
    case Answer(_) => true
    case ErrorEvent(w) => s.p.worker == Some(w) && Stuck(s)
    case _ => false
  }

  /** The same step, perhaps with another answer of LMDB or of the host. */
  predicate SameStep(a: Event, b: Event) {
    match a
    case Deliver(w, _, _) => b.Deliver? && b.w == w
    case BeginTask(w, _) => b.BeginTask? && b.w == w
    case RunOperation(w, _) => b.RunOperation? && b.w == w
    case CommitTask(w, _) => b.CommitTask? && b.w == w
    case _ => b == a
  }

  /** Step `e` does something, whatever LMDB and the host answer. */
  ghost predicate Goes(s: System, e: Event) { forall a :: SameStep(e, a) ==> Next(s, a) != s }

  lemma DeliverGoes(s: System, w: Id)
    requires s.p.microtasks == [] && w < |s.workers| && s.workers[w].out != []
    ensures Goes(s, Deliver(w, false, HostFaults(false, false)))
  {
    hide Handled;
    forall releaseFails, f ensures Next(s, Deliver(w, releaseFails, f)) != s {
      var t := Next(s, Deliver(w, releaseFails, f));
      assert w < |t.workers| && |t.workers[w].out| == |s.workers[w].out| - 1;
    }
  }

  lemma TakeGoes(s: System, w: Id)
    requires w < |s.workers| && !s.workers[w].dead && Box(s.p, w) != []
    requires Box(s.p, w)[0].Start? || (s.workers[w].phase == Up && !Unanswered(s.workers[w]))
    ensures Goes(s, Take(w))
  {
    TakenBoxes(s.p, w);
    assert |Box(Taken(s.p, w), w)| < |Box(s.p, w)|;
    hide Box;
  }

  lemma TaskGoes(s: System, w: Id) returns (e: Event)
    requires w < |s.workers| && !s.workers[w].dead && Unanswered(s.workers[w])
    requires var task := s.workers[w].task.value;
      |task.results| <= |task.operations| && !(task.stage.Open? && task.terminateAfterBegin)
    ensures Goes(s, e) && Ordinary(s, e) && (e.BeginTask? || e.RunOperation? || e.CommitTask? || e.Answer?) && e.w == w
  {
    hide Attempt;
    var task := s.workers[w].task.value;
    match task.stage
    case NotBegun =>
      e := BeginTask(w, true);
      forall ok ensures Next(s, BeginTask(w, ok)) != s {
        assert Next(s, BeginTask(w, ok)).workers[w].task.value.stage != NotBegun;
      }
    case Open(_) =>
      if |task.results| < |task.operations| {
        e := RunOperation(w, OpFaults(NoFault, NoFault));
        forall f ensures Next(s, RunOperation(w, f)) != s {
          var after := Next(s, RunOperation(w, f)).workers[w].task.value;
          assert after.stage.Ended? || |after.results| == |task.results| + 1;
        }
      } else {
        e := CommitTask(w, true);
        forall ok ensures Next(s, CommitTask(w, ok)) != s {
          assert Next(s, CommitTask(w, ok)).workers[w].task.value.stage.Ended?;
        }
      }
    case Ended(_) =>
      e := Answer(w);
      assert Next(s, Answer(w)).workers[w].task.value.stage.Answered?;
  }

  /** What a job being run waits for when nothing it sent is left to deliver. */
  lemma NothingSentIsUnanswered(job: Job, worker: Worker, box: seq<ToWorker>)
    requires BeingRun(job, worker, box) && worker.out == []
    ensures Unanswered(worker) && |worker.task.value.results| <= |worker.task.value.operations|
  {
    hide ProgressFrom;
    assert Tail(worker.task.value) == [];
  }

  /** The current Worker may always be reported, which ends its job. */
  lemma MayFail(s: System)
    requires Inv(s) && s.p.microtasks == []
    ensures s.p.active.Some? ==> s.p.worker.Some? && Next(s, ErrorEvent(s.p.worker.value)) != s
  {
    hide DatabaseOk, WorkersOk, Conserved, PostedOk, IdSet, FailAll, JobIds, Fresh;
  }

  lemma RetainedIsActive(s: System)
    requires Inv(s)
    ensures s.p.jobs != [] <==> s.p.active.Some?
    ensures s.p.active.Some? ==> s.p.worker.Some? && s.p.worker.value < |s.workers|
    ensures s.p.active == None ==> (s.p.worker.Some? ==> s.p.ready && s.p.worker.value < |s.workers|)
  {
    hide DatabaseOk, BoxesOk, WorkingOk, IdsOk, PendingOk, CurrentWorker, Conserved, PostedOk, IdSet, Fresh;
    assert JobIds([]) == [];
  }

  /**
   While a job is retained and no callback is due, the current Worker goes on: it
   takes its message, initializes, begins, runs, commits, answers, or something it
   sent is delivered.  Only a stuck Worker has to be reported instead.
   */
  lemma CurrentGoesOn(s: System) returns (e: Event)
    requires Inv(s) && s.p.jobs != [] && s.p.microtasks == []
    ensures s.p.worker.Some? && Goes(s, e) && Ordinary(s, e) && !e.RunMicrotask? && e.w == s.p.worker.value
    ensures e.ErrorEvent? <==> Stuck(s)
  {
    hide Inv, Next, Goes, CurrentWorker, Box, TaskOk;
    RetainedIsActive(s);
    var w := s.p.worker.value;
    OpenClient(s);
    TaskOf(s, w);
    if Stuck(s) {
      e := ErrorEvent(w);
      MayFail(s);
      ErrorGoes(s, w);
    } else if s.workers[w].out != [] {
      e := Deliver(w, false, HostFaults(false, false));
      DeliverGoes(s, w);
    } else {
      e := QuietGoes(s, w);
    }
  }

  lemma ErrorGoes(s: System, w: Id)
    requires Next(s, ErrorEvent(w)) != s
    ensures Goes(s, ErrorEvent(w))
  {
    hide Next;
  }

  lemma QuietGoes(s: System, w: Id) returns (e: Event)
    requires w < |s.workers| && s.p.worker == Some(w) && CurrentWorker(s.p, s.workers[w], Box(s.p, w))
      && s.p.active.Some?
    requires s.p.ready ==> s.p.dispatched.Some?
    requires !Stuck(s) && s.workers[w].out == []
    ensures Goes(s, e) && Ordinary(s, e) && !e.RunMicrotask? && !e.ErrorEvent? && e.w == w
  {
    hide Goes, Next, Received, ProgressFrom, Fresh;
    var worker, box := s.workers[w], Box(s.p, w);
    if !s.p.ready {
      if worker.phase == Unstarted {
        e := Take(w);
        TakeGoes(s, w);
      } else {
        e := FinishInitialization(w);
        InitializationGoes(s, w);
      }
    } else if OnItsWay(s.p.active.value, worker, box) {
      e := Take(w);
      TakeGoes(s, w);
    } else {
      NothingSentIsUnanswered(s.p.active.value, worker, box);
      e := TaskGoes(s, w);
    }
  }

  lemma InitializationGoes(s: System, w: Id)
    requires w < |s.workers| && !s.workers[w].dead && s.workers[w].phase == Initializing
    ensures Goes(s, FinishInitialization(w))
  {
    assert Next(s, FinishInitialization(w)).workers[w].phase == Up;
  }

  // ------------------------------------------------------------------- results

  /** Every job is called back and nothing is held; the Worker, if there is one, is idle. */
  ghost predicate AllDone(s: System) {
    && |s.p.calledBack| == s.next && s.p.jobs == [] && s.p.microtasks == []
    && s.p.reservation == None && s.p.leased == {} && !s.p.activeWriter.BatchWriter?
    && (s.p.worker.Some? ==>
          s.p.worker.value < |s.workers| && Idle(s.workers[s.p.worker.value], Box(s.p, s.p.worker.value)))
  }

  lemma NothingRetained(s: System)
    requires Inv(s) && s.p.jobs == [] && s.p.microtasks == []
    ensures AllDone(s)
  {
    hide DatabaseOk, BoxesOk, WorkingOk, IdsOk, PendingOk, PostedOk, Fresh, Starting, OnItsWay, BeingRun, Idle;
    RetainedIsActive(s);
    Positions(s.p, s.next);
  }

  /** As long as not everything is done some ordinary step goes on. */
  lemma GoesOn(s: System) returns (e: Event)
    requires Inv(s) && !AllDone(s)
    ensures Goes(s, e) && Ordinary(s, e)
  {
    hide Inv, Next, AllDone, Goes, Stuck;
    if s.p.microtasks != [] {
      e := RunMicrotask;
      MicrotaskGoes(s);
    } else if s.p.jobs != [] {
      e := CurrentGoesOn(s);
    } else {
      NothingRetained(s);
    }
  }

  lemma MicrotaskGoes(s: System)
    requires s.p.microtasks != []
    ensures Goes(s, RunMicrotask)
  {
    assert |MicrotaskRun(s.p).microtasks| < |s.p.microtasks|;
  }

  /** A run of ordinary steps, each of which does something. */
  predicate OrdinaryRun(s: System, events: seq<Event>)
    decreases |events|
  {
    events == [] || (Ordinary(s, events[0]) && Next(s, events[0]) != s && OrdinaryRun(Next(s, events[0]), events[1..]))
  }

  /**
   From any state, ordinary runs are no longer than the measure, and one that cannot
   be made longer has called every job back and holds nothing.
   */
  lemma {:induction false} OrdinaryRunsFinish(s: System, events: seq<Event>)
    requires Inv(s) && OrdinaryRun(s, events)
    ensures |events| <= Measure(s) && Inv(RunEvents(s, events))
    ensures (forall e :: Ordinary(RunEvents(s, events), e) ==>
             Next(RunEvents(s, events), e) == RunEvents(s, events)) ==>
      AllDone(RunEvents(s, events))
    decreases |events|
  {
    hide Inv, Measure, Next, AllDone, Stuck;
    if events == [] {
      if !AllDone(s) {
        var e := GoesOn(s);
        assert SameStep(e, e);
      }
    } else {
      InternalStepDescends(s, events[0]);
      NextKeeps(s, events[0]);
      OrdinaryRunsFinish(Next(s, events[0]), events[1..]);
    }
  }

  /** And from every state there is such a run to the end. */
  lemma {:induction false} FinishingRun(s: System) returns (events: seq<Event>)
    requires Inv(s)
    ensures OrdinaryRun(s, events) && AllDone(RunEvents(s, events))
    decreases Measure(s)
  {
    hide Inv, Measure, Next, AllDone, Stuck;
    if AllDone(s) {
      events := [];
    } else {
      var e := GoesOn(s);
      assert SameStep(e, e);
      InternalStepDescends(s, e);
      NextKeeps(s, e);
      var rest := FinishingRun(Next(s, e));
      events := [e] + rest;
      assert events[1..] == rest;
    }
  }
}
