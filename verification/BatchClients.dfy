/** The batch client as the object the source keeps per shared environment. */
module BatchClients {
  import opened Common
  import opened BatchExecutor
  import opened BatchProtocol
  import opened BatchSystem
  import opened BatchClientLemmas

  /** What the client shares with its environment and its host. */
  class Host {
    var activeWriter: Owner
    var poisoned: bool
    var leased: set<Id>
    var calledBack: seq<Callback>
    var microtasks: seq<Id>
    var inboxes: map<Id, seq<ToWorker>>
    var posted: set<Id>

    constructor ()
      ensures activeWriter == NoOwner && !poisoned && leased == {} && calledBack == [] && microtasks == []
      ensures inboxes == map[] && posted == {}
    {
      activeWriter, poisoned, leased, calledBack, microtasks, inboxes, posted := NoOwner, false, {}, [], [], map[], {};
    }

    method PostMessage(w: Id, message: ToWorker)
      modifies this`inboxes
      ensures inboxes == old(inboxes)[w := (if w in old(inboxes) then old(inboxes)[w] else []) + [message]]
    {
      inboxes := inboxes[w := (if w in inboxes then inboxes[w] else []) + [message]];
    }

    method ReleasePreparedBatch(id: Id)
      modifies this`leased
      ensures leased == old(leased) - {id}
    {
      leased := leased - {id};
    }

    method CallBack(callback: Callback)
      modifies this`calledBack
      ensures calledBack == old(calledBack) + [callback]
    {
      calledBack := calledBack + [callback];
    }
  }

  class BatchWorkerClient {
    const host: Host
    var jobs: seq<Id>
    var queue: seq<Job>
    var active: Option<Job>
    var reservation: Option<Id>
    var worker: Option<Id>
    var ready: bool
    var dispatchedJobId: Option<Id>
    var closed: bool

    ghost function View(): Parent
      reads this, host
    {
      Parent(jobs, queue, active, reservation, worker, ready, dispatchedJobId, closed,
             host.activeWriter, host.poisoned, host.leased, host.calledBack, host.microtasks, host.inboxes, host.posted)
    }

    /** The writer slot is free for a job. */
    ghost predicate Free()
      reads host
    {
      host.activeWriter == NoOwner && !host.poisoned
    }

    /** `job` is the active one and has the writer slot. */
    ghost predicate Holds(job: Job)
      reads this, host
    {
      active == Some(job) && reservation == Some(job.id) && host.activeWriter == BatchWriter(job.id)
    }

    /**
     What no Worker that follows the protocol sends: a second ready, an answer to another
     job than the one posted, results that are malformed or there already, and a completion
     with results missing.
     */
    ghost predicate Violated(message: Reply)
      reads this
    {
      match message
      case Ready => ready || active == None
      case Progress(id, deltas) => !Expected(id) || !WellFormed(active.value, deltas)
      case Complete(id) =>
        !Expected(id) || active.value.receivedCount != |active.value.operations| || false in active.value.received
      case Failed(id) => !Expected(id)
    }

    /** The job posted last, and not answered yet, is number `id`. */
    ghost predicate Expected(id: Id)
      reads this
    {
      active.Some? && active.value.id == id && dispatchedJobId == Some(id)
    }

    ghost function InboxOf(w: Id): seq<ToWorker>
      reads host
    {
      if w in host.inboxes then host.inboxes[w] else []
    }

    constructor (host: Host)
      ensures this.host == host
      ensures View() == InitialParent().(
        activeWriter := host.activeWriter, poisoned := host.poisoned, leased := host.leased,
            calledBack := host.calledBack,
        microtasks := host.microtasks, inboxes := host.inboxes, posted := host.posted)
    {
      this.host := host;
      jobs, queue, active, reservation, worker, ready, dispatchedJobId, closed := [], [], None, None, None, false, None,
          false;
    }

    /** Stops and forgets the Worker; what it still sends is ignored. */
    method StopWorker()
      modifies this`worker, this`ready, this`dispatchedJobId
      ensures View() == ResetWorker(old(View()))
    {
      worker, ready, dispatchedJobId := None, false, None;
    }

    method FreeReservation()
      modifies this`reservation, host`activeWriter
      ensures View() == ReleaseReservation(old(View()))
    {
      if reservation.Some? && host.activeWriter == BatchWriter(reservation.value) {
        host.activeWriter := NoOwner;
      }
      reservation := None;
    }

    method ReleaseAll(ids: seq<Id>)
      modifies host`leased
      ensures host.leased == old(host.leased) - IdSet(ids)
    {
      for i := 0 to |ids|
        invariant host.leased == old(host.leased) - IdSet(ids[..i])
      {
        assert IdSet(ids[..i + 1]) == IdSet(ids[..i]) + {ids[i]};
        host.ReleasePreparedBatch(ids[i]);
      }
      assert ids[..|ids|] == ids;
    }

    method RecoverUndispatched()
      modifies this, host
      ensures View() == Recovered(old(View()))
      ensures !old(closed) ==>
        && jobs == [] && queue == [] && active == None && worker == None && !ready && dispatchedJobId == None
        && !closed && host.poisoned == old(host.poisoned) && host.inboxes == old(host.inboxes)
        && host.leased == old(host.leased) - IdSet(old(jobs)) && host.calledBack == old(host.calledBack)
        && host.microtasks == old(host.microtasks) + old(jobs)
    {
      hide IdSet;
      if closed {
        return;
      }
      StopWorker();
      var failing := jobs;
      active, queue, jobs := None, [], [];
      FreeReservation();
      ReleaseAll(failing);
      host.microtasks := host.microtasks + failing;
    }

    method FailUnexpectedly()
      modifies this, host
      ensures View() == FailedUnexpectedly(old(View()))
      ensures !old(closed) ==>
        && jobs == [] && queue == [] && active == None && worker == None && !ready && dispatchedJobId == None
        && closed && host.poisoned && host.inboxes == old(host.inboxes)
        && host.leased == old(host.leased) - IdSet(old(jobs)) && host.microtasks == old(host.microtasks)
        && host.calledBack == old(host.calledBack) + FailAll(old(jobs), EnvironmentPoisoned)
    {
      hide FailAll, IdSet;
      if closed {
        return;
      }
      closed := true;
      StopWorker();
      host.poisoned := true;
      var failing := jobs;
      active, queue, jobs := None, [], [];
      FreeReservation();
      ReleaseAll(failing);
      CallBackAll(failing, EnvironmentPoisoned);
    }

    method CallBackAll(ids: seq<Id>, failure: Failure)
      modifies host`calledBack
      ensures host.calledBack == old(host.calledBack) + FailAll(ids, failure)
    {
      assert host.calledBack + FailAll(ids[..0], failure) == host.calledBack;
      for i := 0 to |ids|
        invariant host.calledBack == old(host.calledBack) + FailAll(ids[..i], failure)
      {
        assert FailAll(ids[..i + 1], failure) == FailAll(ids[..i], failure) + [Callback(ids[i], Some(failure), [])];
        host.CallBack(Callback(ids[i], Some(failure), []));
      }
      assert ids[..|ids|] == ids;
    }

    method FailProtocol()
      modifies this, host
      ensures View() == FailedProtocol(old(View()))
      ensures !old(closed) ==> jobs == [] && active == None && worker == None
      ensures old(dispatchedJobId) == None && !old(closed) ==>
        !closed && host.microtasks == old(host.microtasks) + old(jobs) && host.calledBack == old(host.calledBack)
      ensures old(dispatchedJobId).Some? && !old(closed) ==>
        && closed && host.poisoned && host.microtasks == old(host.microtasks)
        && host.calledBack == old(host.calledBack) + FailAll(old(jobs), EnvironmentPoisoned)
    {
      if dispatchedJobId == None {
        RecoverUndispatched();
      } else {
        FailUnexpectedly();
      }
    }

    method PostJob(job: Job)
      requires worker.Some?
      modifies this, host
      ensures View() == PostedTo(old(View()), old(worker).value, job)
    {
      host.PostMessage(worker.value, PostedJob(job.id, job.operations, job.terminateAfterBegin));
      dispatchedJobId := Some(job.id);
      host.posted := host.posted + {job.id};
    }

    method Activate(job: Job, f: HostFaults, w: Id)
      requires worker == None ==> w !in host.inboxes
      requires ready ==> worker.Some?
      modifies this, host
      ensures View() == Activated(old(View()), job, f, w)
      ensures old(Free()) && old(worker).Some? && (old(ready) ==> !f.postFails) ==>
        && worker == old(worker) && ready == old(ready) && Holds(job)
        && host.microtasks == old(host.microtasks) && host.calledBack == old(host.calledBack)
        && (if ready then
              && dispatchedJobId == Some(job.id)
              && host.inboxes == old(host.inboxes)[worker.value := old(InboxOf(worker.value))
                                   + [PostedJob(job.id, job.operations, job.terminateAfterBegin)]]
            else dispatchedJobId == old(dispatchedJobId) && host.inboxes == old(host.inboxes))
      ensures old(Free()) && old(worker) == None && !f.startFails ==>
        && worker == Some(w) && !ready && Holds(job) && dispatchedJobId == old(dispatchedJobId)
        && host.inboxes == old(host.inboxes)[w := [Start]]
        && host.microtasks == old(host.microtasks) && host.calledBack == old(host.calledBack)
      ensures (!old(Free()) || if old(worker) == None then f.startFails else old(ready) && f.postFails) && !old(closed)
        ==> host.microtasks == old(host.microtasks) + old(jobs) && jobs == [] && active == None && worker == None
    {
      hide Recovered;
      if host.activeWriter != NoOwner || host.poisoned {
        RecoverUndispatched();
        return;
      }
      host.activeWriter := BatchWriter(job.id);
      reservation := Some(job.id);
      active := Some(job);
      if worker == None {
        if f.startFails {
          RecoverUndispatched();
          return;
        }
        worker := Some(w);
        host.PostMessage(w, Start);
        assert [] + [Start] == [Start];
      }
      if ready {
        if f.postFails {
          RecoverUndispatched();
          return;
        }
        PostJob(job);
      }
    }

    /** Refused once the client is closed or the environment poisoned. */
    method Enqueue(job: Job, f: HostFaults, w: Id) returns (accepted: bool)
      requires worker == None ==> w !in host.inboxes
      requires ready ==> worker.Some?
      modifies this, host
      ensures accepted == !(old(closed) || old(host.poisoned))
      ensures View() == if accepted then Enqueued(old(View()), job, f, w) else old(View())
    {
      if closed || host.poisoned {
        return false;
      }
      host.leased := host.leased + {job.id};
      jobs := jobs + [job.id];
      if active.Some? {
        queue := queue + [job];
        return true;
      }
      Activate(job, f, w);
      return true;
    }

    /** The active job lets go of its leases and of the writer slot. */
    method Settle(job: Job)
      modifies this`active, this`jobs, this`reservation, host`leased, host`activeWriter
      ensures View() == Settled(old(View()), job)
    {
      active := None;
      jobs := Without(jobs, job.id);
      host.ReleasePreparedBatch(job.id);
      FreeReservation();
    }

    method Finish(job: Job, error: Option<Failure>, releaseFails: bool, f: HostFaults, w: Id)
      requires worker == None ==> w !in host.inboxes
      requires ready ==> worker.Some?
      modifies this, host
      ensures View() == Finished(old(View()), job, error, releaseFails, f, w)
    {
      hide Activated, Settled;
      if active == None || active.value.id != job.id {
        return;
      }
      Settle(job);
      var completionError := if error == None && releaseFails then Some(CleanupFailure) else error;
      if queue != [] {
        var next := queue[0];
        queue := queue[1..];
        Activate(next, f, w);
      }
      host.CallBack(Callback(job.id, completionError, if completionError == None then job.results else []));
    }

    /** Applies one message's deltas one by one, in place. */
    method ApplyDeltas(deltas: seq<(int, int)>) returns (ok: bool)
      requires active.Some?
      modifies this`active
      ensures var applied := ApplyAll(old(active).value, deltas);
        ok == applied.Some? && (ok ==> active == applied)
    {
      ghost var job := active.value;
      for i := 0 to |deltas|
        invariant active.Some? && ApplyAll(job, deltas) == ApplyAll(active.value, deltas[i..])
      {
        if !Acceptable(active.value, deltas[i]) {
          return false;
        }
        assert deltas[i..][1..] == deltas[i + 1..];
        active := Some(Apply(active.value, deltas[i]));
      }
      return true;
    }

    method HasEveryResult(job: Job) returns (complete: bool)
      requires |job.received| == |job.operations|
      ensures complete == EveryResult(job)
      ensures complete <==> job.receivedCount == |job.operations| && false !in job.received
    {
      if job.receivedCount != |job.operations| {
        return false;
      }
      for index := 0 to |job.operations|
        invariant forall i :: 0 <= i < index ==> job.received[i]
      {
        if !job.received[index] {
          return false;
        }
      }
      return true;
    }

    method HandleMessage(message: Reply, releaseFails: bool, f: HostFaults, w: Id)
      requires worker == None ==> w !in host.inboxes
      requires ready ==> worker.Some?
      requires active.Some? ==> |active.value.received| == |active.value.operations|
      modifies this, host
      ensures View() == Handled(old(View()), message, releaseFails, f, w)
      ensures old(closed) ==> View() == old(View())
      ensures !old(closed) && old(Violated(message)) ==> jobs == [] && active == None && worker == None
      ensures !old(closed) && old(Violated(message)) && old(dispatchedJobId) == None ==>
        !closed && host.microtasks == old(host.microtasks) + old(jobs) && host.calledBack == old(host.calledBack)
      ensures !old(closed) && old(Violated(message)) && old(dispatchedJobId).Some? ==>
        && closed && host.poisoned && host.microtasks == old(host.microtasks)
        && host.calledBack == old(host.calledBack) + FailAll(old(jobs), EnvironmentPoisoned)
    {
      hide Activated, Finished, ApplyAll, EveryResult, Recovered, FailedUnexpectedly, WellFormed, FilledIn;
      if closed {
        return;
      }
      if message.Ready? {
        if ready || active == None {
          FailProtocol();
          return;
        }
        ready := true;
        if f.postFails || worker == None {
          RecoverUndispatched();
          return;
        }
        PostJob(active.value);
        return;
      }
      if active == None || active.value.id != message.id || dispatchedJobId != Some(message.id) {
        FailProtocol();
        return;
      }
      var job := active.value;
      match message {
        case Progress(_, deltas) =>
          ghost var before := View();
          DeltasApplied(job, deltas);
          var ok := ApplyDeltas(deltas);
          if !ok {
            FailedForgets(before, View());
            FailUnexpectedly();
          }
        case Failed(_) =>
          dispatchedJobId := None;
          Finish(job, Some(WorkerFailure), releaseFails, f, w);
        case Complete(_) =>
          var complete := HasEveryResult(job);
          if !complete {
            FailUnexpectedly();
            return;
          }
          dispatchedJobId := None;
          Finish(job, None, releaseFails, f, w);
      }
    }

    /** `onerror` and `onmessageerror` of the current Worker. */
    method WorkerError()
      modifies this, host
      ensures View() == FailedProtocol(old(View()))
    {
      if dispatchedJobId == None {
        RecoverUndispatched();
      } else {
        FailUnexpectedly();
      }
    }

    /** Refused while a job is active or queued. */
    method Close() returns (accepted: bool)
      modifies this
      ensures accepted == (old(active) == None && old(queue) == [])
      ensures View() == if accepted then Closed(old(View())) else old(View())
      ensures accepted ==> closed && worker == None && !ready && jobs == old(jobs)
    {
      if active.Some? || queue != [] {
        return false;
      }
      closed := true;
      StopWorker();
      return true;
    }
  }

  /** The deltas of a rejected message leave no trace: the job they belong to fails. */
  lemma FailedForgets(p: Parent, q: Parent)
    requires q == p.(active := q.active) && !p.closed
    ensures FailedUnexpectedly(q) == FailedUnexpectedly(p)
  {}
}
