/**
 The messages between a batch client and its Worker, and what each event makes
 of the client, the writer slot and leases of its environment, and the host's
 callbacks, microtasks and message queues.
 */
module BatchProtocol {
  import opened Common
  import opened BatchExecutor

  type Id = nat

  datatype ToWorker = Start | PostedJob(id: Id, operations: seq<Operation>, terminateAfterBegin: bool)

  datatype Reply = Ready | Progress(id: Id, deltas: seq<(int, int)>) | Complete(id: Id) | Failed(id: Id)

  /** A retained job; `results` has a hole where no result arrived yet. */
  datatype Job = Job(
    id: Id, operations: seq<Operation>, terminateAfterBegin: bool,
    received: seq<bool>, results: seq<Option<int>>, receivedCount: nat)

  datatype Failure = WorkerFailure | CleanupFailure | NotDispatched | EnvironmentPoisoned

  datatype Callback = Callback(id: Id, error: Option<Failure>, results: seq<Option<int>>)

  /** Who holds the environment's writer slot. */
  datatype Owner = NoOwner | OtherWriter | BatchWriter(job: Id)

  datatype Parent = Parent(
    // the client
    jobs: seq<Id>, queue: seq<Job>, active: Option<Job>, reservation: Option<Id>,
    worker: Option<Id>, ready: bool, dispatched: Option<Id>, closed: bool,
    // its shared environment
    activeWriter: Owner, poisoned: bool, leased: set<Id>,
    // the host: callbacks made, callbacks due, messages not yet taken, jobs ever posted
    calledBack: seq<Callback>, microtasks: seq<Id>, inboxes: map<Id, seq<ToWorker>>, posted: set<Id>)

  /** Which host calls of one activation throw. */
  datatype HostFaults = HostFaults(startFails: bool, postFails: bool)

  function NewJob(id: Id, operations: seq<Operation>, terminateAfterBegin: bool): Job {
    Job(id, operations, terminateAfterBegin,
        seq(|operations|, _ => false), seq(|operations|, _ => None), 0)
  }

  function InitialParent(): Parent {
    Parent([], [], None, None, None, false, None, false, NoOwner, false, {}, [], [], map[], {})
  }

  function IdSet(ids: seq<Id>): set<Id> { set i | i in ids }

  function Without(ids: seq<Id>, id: Id): seq<Id> {
    if ids == [] then [] else if ids[0] == id then Without(ids[1..], id) else [ids[0]] + Without(ids[1..], id)
  }

  function FailAll(ids: seq<Id>, failure: Failure): seq<Callback> {
    seq(|ids|, i requires 0 <= i < |ids| => Callback(ids[i], Some(failure), []))
  }

  // ----------------------------------------------------------------- results

  predicate SafeInteger(x: int) { -0x1F_FFFF_FFFF_FFFF <= x <= 0x1F_FFFF_FFFF_FFFF }

  predicate Acceptable(job: Job, delta: (int, int)) {
    && SafeInteger(delta.0) && 0 <= delta.0 < |job.operations| && delta.0 < |job.received| && delta.0 < |job.results|
    && !job.received[delta.0] && SafeInteger(delta.1)
  }

  function Apply(job: Job, delta: (int, int)): Job
    requires Acceptable(job, delta)
  {
    job.(received := job.received[delta.0 := true], results := job.results[delta.0 := Some(delta.1)],
         receivedCount := job.receivedCount + 1)
  }

  /** All deltas in order; none when one of them is malformed or arrives twice. */
  function ApplyAll(job: Job, deltas: seq<(int, int)>): Option<Job>
    decreases |deltas|
  {
    if deltas == [] then Some(job)
    else if !Acceptable(job, deltas[0]) then None
    else ApplyAll(Apply(job, deltas[0]), deltas[1..])
  }

  predicate EveryResult(job: Job) {
    job.receivedCount == |job.operations| && forall i :: 0 <= i < |job.operations| && i < |job.received| ==>
        job.received[i]
  }

  // ------------------------------------------------------------------ events

  function Box(p: Parent, w: Id): seq<ToWorker> { if w in p.inboxes then p.inboxes[w] else [] }

  function ResetWorker(p: Parent): Parent { p.(worker := None, ready := false, dispatched := None) }

  function ReleaseReservation(p: Parent): Parent {
    p.(reservation := None,
       activeWriter := if p.reservation.Some? && p.activeWriter == BatchWriter(p.reservation.value)
                       then NoOwner else p.activeWriter)
  }

  /** Every retained job fails before it reached a Worker; the callbacks are due as one microtask. */
  function Recovered(p: Parent): Parent {
    if p.closed then p
    else
      ReleaseReservation(ResetWorker(p)).(
        jobs := [], queue := [], active := None, leased := p.leased - IdSet(p.jobs),
            microtasks := p.microtasks + p.jobs)
  }

  /** Every retained job fails at once and the environment is poisoned. */
  function FailedUnexpectedly(p: Parent): Parent {
    if p.closed then p
    else
      ReleaseReservation(ResetWorker(p)).(
        closed := true, poisoned := true, jobs := [], queue := [], active := None, leased := p.leased - IdSet(p.jobs),
        calledBack := p.calledBack + FailAll(p.jobs, EnvironmentPoisoned))
  }

  /** A failure reported by, or about, the Worker. */
  function FailedProtocol(p: Parent): Parent {
    if p.dispatched == None then Recovered(p) else FailedUnexpectedly(p)
  }

  function PostedTo(p: Parent, w: Id, job: Job): Parent {
    p.(inboxes := p.inboxes[w := Box(p, w) + [PostedJob(job.id, job.operations, job.terminateAfterBegin)]],
       dispatched := Some(job.id), posted := p.posted + {job.id})
  }

  /** `job` takes the writer slot and goes to a Worker, new Worker `w` if there is none. */
  function Activated(p: Parent, job: Job, f: HostFaults, w: Id): Parent {
    if p.activeWriter != NoOwner || p.poisoned then Recovered(p)
    else
      var p1 := p.(reservation := Some(job.id), activeWriter := BatchWriter(job.id), active := Some(job));
      if p1.worker == None && f.startFails then Recovered(p1)
      else
        var p2 := if p1.worker == None then p1.(worker := Some(w), inboxes := p1.inboxes[w := [Start]]) else p1;
        if !p2.ready then p2
        else if f.postFails then Recovered(p2)
        else PostedTo(p2, p2.worker.value, job)
  }

  function Enqueued(p: Parent, job: Job, f: HostFaults, w: Id): Parent {
    var p1 := p.(jobs := p.jobs + [job.id], leased := p.leased + {job.id});
    if p1.active.Some? then p1.(queue := p1.queue + [job]) else Activated(p1, job, f, w)
  }

  function Settled(p: Parent, job: Job): Parent {
    ReleaseReservation(p.(active := None, jobs := Without(p.jobs, job.id), leased := p.leased - {job.id}))
  }

  /** The active job is done: the next one is activated, then the callback runs. */
  function Finished(p: Parent, job: Job, error: Option<Failure>, releaseFails: bool, f: HostFaults, w: Id): Parent {
    if p.active == None || p.active.value.id != job.id then p
    else
      var outcome := if error == None && releaseFails then Some(CleanupFailure) else error;
      var p1 := Settled(p, job);
      var p2 := if p1.queue == [] then p1 else Activated(p1.(queue := p1.queue[1..]), p1.queue[0], f, w);
      p2.(calledBack := p2.calledBack + [Callback(job.id, outcome, if outcome == None then job.results else [])])
  }

  function HandledReady(p: Parent, f: HostFaults): Parent {
    if p.ready || p.active == None then FailedProtocol(p)
    else
      var p1 := p.(ready := true);
      if f.postFails || p1.worker == None then Recovered(p1) else PostedTo(p1, p1.worker.value, p1.active.value)
  }

  function Handled(p: Parent, message: Reply, releaseFails: bool, f: HostFaults, w: Id): Parent {
    if p.closed then p
    else if message.Ready? then HandledReady(p, f)
    else if p.active == None || p.active.value.id != message.id
        || p.dispatched != Some(message.id) then FailedProtocol(p)
    else
      var job := p.active.value;
      match message
      case Progress(_, deltas) =>
        var applied := ApplyAll(job, deltas);
        if applied == None then FailedUnexpectedly(p) else p.(active := applied)
      case Failed(_) => Finished(p.(dispatched := None), job, Some(WorkerFailure), releaseFails, f, w)
      case _ =>
        if !EveryResult(job) then FailedUnexpectedly(p)
        else Finished(p.(dispatched := None), job, None, releaseFails, f, w)
  }

  /** An idle client closes with its environment. */
  function Closed(p: Parent): Parent { ResetWorker(p.(closed := true)) }

  /** The next due callback of a recovery. */
  function MicrotaskRun(p: Parent): Parent
    requires p.microtasks != []
  {
    p.(microtasks := p.microtasks[1..],
       calledBack := p.calledBack + [Callback(p.microtasks[0], Some(NotDispatched), [])])
  }
}
