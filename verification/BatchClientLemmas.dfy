/** Every event of the client keeps its shape, the order of callbacks, and the record of posted jobs. */
module BatchClientLemmas {
  import opened Common
  import opened BatchExecutor
  import opened BatchProtocol
  import opened BatchSystem

  // ------------------------------------------------------------------- order

  /** Job numbers are consecutive through callbacks made, callbacks due and retained jobs. */
  lemma Positions(p: Parent, next: Id)
    requires Conserved(p, next)
    ensures |p.calledBack| + |p.microtasks| + |p.jobs| == next
    ensures forall i :: 0 <= i < |p.calledBack| ==> p.calledBack[i].id == i
    ensures forall i :: 0 <= i < |p.microtasks| ==> p.microtasks[i] == |p.calledBack| + i
    ensures forall i :: 0 <= i < |p.jobs| ==> p.jobs[i] == |p.calledBack| + |p.microtasks| + i
  {
    var all := CallbackIds(p.calledBack) + p.microtasks + p.jobs;
    assert |all| == next;
    forall i | 0 <= i < |p.calledBack| ensures p.calledBack[i].id == i { assert all[i] == i; }
    forall i | 0 <= i < |p.microtasks| ensures p.microtasks[i] == |p.calledBack| + i {
      assert all[|p.calledBack| + i] == |p.calledBack| + i;
    }
    forall i | 0 <= i < |p.jobs| ensures p.jobs[i] == |p.calledBack| + |p.microtasks| + i {
      assert all[|p.calledBack| + |p.microtasks| + i] == |p.calledBack| + |p.microtasks| + i;
    }
  }

  lemma CallbackIdsConcat(a: seq<Callback>, b: seq<Callback>)
    ensures CallbackIds(a + b) == CallbackIds(a) + CallbackIds(b)
  {}

  lemma FailAllIds(ids: seq<Id>, failure: Failure)
    ensures CallbackIds(FailAll(ids, failure)) == ids
  {}

  /** Each of the jobs is called back with the failure and without results. */
  lemma FailAllAt(ids: seq<Id>, failure: Failure)
    ensures |FailAll(ids, failure)| == |ids|
    ensures forall i :: 0 <= i < |ids| ==>
      var callback := FailAll(ids, failure)[i];
      callback.id == ids[i] && callback.error == Some(failure) && callback.results == []
  {}

  // ----------------------------------------------------------------- results

  /**
   The results of one message are acceptable: each is a safe integer for another operation
   of the job that has none yet.
   */
  predicate WellFormed(job: Job, deltas: seq<(int, int)>) {
    && (forall k :: 0 <= k < |deltas| ==>
          && 0 <= deltas[k].0 < |job.operations| && deltas[k].0 <= 0x1F_FFFF_FFFF_FFFF
          && deltas[k].0 < |job.received| && deltas[k].0 < |job.results| && !job.received[deltas[k].0]
          && -0x1F_FFFF_FFFF_FFFF <= deltas[k].1 <= 0x1F_FFFF_FFFF_FFFF)
    && forall j, k :: 0 <= j < k < |deltas| ==> deltas[j].0 != deltas[k].0
  }

  /** `job` with the results of one message filled in, and nothing else changed. */
  ghost predicate FilledIn(job: Job, deltas: seq<(int, int)>, after: Job) {
    && after == job.(received := after.received, results := after.results,
                     receivedCount := job.receivedCount + |deltas|)
    && |after.received| == |job.received| && |after.results| == |job.results|
    && (forall k :: 0 <= k < |deltas| && 0 <= deltas[k].0 < |after.received| && deltas[k].0 < |after.results| ==>
          after.received[deltas[k].0] && after.results[deltas[k].0] == Some(deltas[k].1))
    && forall i :: 0 <= i < |after.received| && i < |after.results| && !Names(deltas, i) ==>
         after.received[i] == job.received[i] && after.results[i] == job.results[i]
  }

  predicate Names(deltas: seq<(int, int)>, i: int) { exists k :: 0 <= k < |deltas| && deltas[k].0 == i }

  /** A message's results are applied exactly when all of them are acceptable, and then all are. */
  lemma {:induction false} DeltasApplied(job: Job, deltas: seq<(int, int)>)
    ensures ApplyAll(job, deltas).Some? <==> WellFormed(job, deltas)
    ensures WellFormed(job, deltas) ==> FilledIn(job, deltas, ApplyAll(job, deltas).value)
    decreases |deltas|
  {
    if deltas != [] && Acceptable(job, deltas[0]) {
      var next, rest := Apply(job, deltas[0]), deltas[1..];
      DeltasApplied(next, rest);
      RestWellFormed(job, deltas);
      if WellFormed(job, deltas) { RestFilledIn(job, deltas, ApplyAll(next, rest).value); }
    }
  }

  lemma RestWellFormed(job: Job, deltas: seq<(int, int)>)
    requires deltas != [] && Acceptable(job, deltas[0])
    ensures WellFormed(job, deltas) <==> WellFormed(Apply(job, deltas[0]), deltas[1..])
  {
    var next, rest := Apply(job, deltas[0]), deltas[1..];
    if WellFormed(next, rest) {
      forall k | 1 <= k < |deltas|
        ensures 0 <= deltas[k].0 < |job.operations| && deltas[k].0 <= 0x1F_FFFF_FFFF_FFFF
        ensures deltas[k].0 < |job.received| && deltas[k].0 < |job.results|
        ensures !job.received[deltas[k].0] && deltas[k].0 != deltas[0].0
        ensures -0x1F_FFFF_FFFF_FFFF <= deltas[k].1 <= 0x1F_FFFF_FFFF_FFFF
      {
        assert rest[k - 1] == deltas[k];
      }
      forall j, k | 0 <= j < k < |deltas| ensures deltas[j].0 != deltas[k].0 {
        if j > 0 { assert rest[j - 1] == deltas[j] && rest[k - 1] == deltas[k]; }
      }
    }
  }

  lemma RestFilledIn(job: Job, deltas: seq<(int, int)>, after: Job)
    requires deltas != [] && Acceptable(job, deltas[0]) && WellFormed(job, deltas)
    requires FilledIn(Apply(job, deltas[0]), deltas[1..], after)
    ensures FilledIn(job, deltas, after)
  {
    var next, rest := Apply(job, deltas[0]), deltas[1..];
    forall k | 0 <= k < |rest| ensures rest[k].0 != deltas[0].0 { assert deltas[k + 1] == rest[k]; }
    RestNames(deltas);
    forall k | 0 <= k < |deltas|
      ensures after.received[deltas[k].0] && after.results[deltas[k].0] == Some(deltas[k].1)
    {
      if k > 0 { assert rest[k - 1] == deltas[k]; }
    }
    forall i | 0 <= i < |after.received| && i < |after.results| && !Names(deltas, i)
      ensures after.received[i] == job.received[i] && after.results[i] == job.results[i]
    {
      assert !Names(rest, i) && i != deltas[0].0;
    }
  }

  lemma RestNames(deltas: seq<(int, int)>)
    requires deltas != []
    ensures forall i :: Names(deltas[1..], i) ==> Names(deltas, i)
  {
    forall i | Names(deltas[1..], i) ensures Names(deltas, i) {
      var k :| 0 <= k < |deltas[1..]| && deltas[1..][k].0 == i;
      assert deltas[k + 1].0 == i;
    }
  }

  lemma JobIdsTail(queue: seq<Job>)
    requires queue != []
    ensures JobIds(queue) == [queue[0].id] + JobIds(queue[1..])
  {}

  lemma {:induction false} WithoutAbsent(ids: seq<Id>, id: Id)
    requires id !in ids
    ensures Without(ids, id) == ids
  {
    if ids != [] { WithoutAbsent(ids[1..], id); }
  }

  /** The first retained job is taken off the list. */
  lemma WithoutFirst(ids: seq<Id>)
    requires ids != [] && forall i, j :: 0 <= i < j < |ids| ==> ids[i] != ids[j]
    ensures Without(ids, ids[0]) == ids[1..]
  {
    WithoutAbsent(ids[1..], ids[0]);
  }

  lemma IdSetCons(id: Id, rest: seq<Id>)
    ensures IdSet([id] + rest) == {id} + IdSet(rest)
  {
    assert forall i :: i in [id] + rest <==> i == id || i in rest;
  }

  lemma IdSetSnoc(ids: seq<Id>, id: Id)
    ensures IdSet(ids + [id]) == IdSet(ids) + {id}
  {
    assert forall i :: i in ids + [id] <==> i == id || i in ids;
  }

  // ---------------------------------------------------------------- recovery

  /** What recovery and poisoning need of the client they give up on. */
  ghost predicate Abandonable(p: Parent) {
    && !p.closed && !p.poisoned && p.leased == IdSet(p.jobs)
    && (p.activeWriter.BatchWriter? ==> p.reservation == Some(p.activeWriter.job))
  }

  lemma RecoveredShape(p: Parent)
    requires Abandonable(p)
    ensures Shape(Recovered(p))
  {
    assert p.leased - IdSet(p.jobs) == IdSet([]);
  }

  lemma RecoveredOrder(p: Parent, next: Id)
    requires Conserved(p, next) && !p.closed
    ensures Conserved(Recovered(p), next)
  {
    assert CallbackIds(p.calledBack) + (p.microtasks + p.jobs) + []
        == CallbackIds(p.calledBack) + p.microtasks + p.jobs;
  }

  /** Nothing recovered was ever posted. */
  lemma RecoveredPosted(p: Parent, next: Id)
    requires PostedOk(p, next) && !p.closed && p.dispatched == None
    ensures PostedOk(Recovered(p), next)
  {}

  lemma PoisonedShape(p: Parent)
    requires Abandonable(p) && p.activeWriter != OtherWriter
    ensures Shape(FailedUnexpectedly(p))
  {
    assert p.leased - IdSet(p.jobs) == IdSet([]);
  }

  lemma PoisonedOrder(p: Parent, next: Id)
    requires Conserved(p, next) && !p.closed && p.microtasks == []
    ensures Conserved(FailedUnexpectedly(p), next)
  {
    var failed := FailAll(p.jobs, EnvironmentPoisoned);
    CallbackIdsConcat(p.calledBack, failed);
    FailAllIds(p.jobs, EnvironmentPoisoned);
    assert CallbackIds(p.calledBack) + [] + p.jobs == CallbackIds(p.calledBack) + p.jobs + [] + [];
  }

  lemma PoisonedPosted(p: Parent, next: Id)
    requires PostedOk(p, next) && !p.closed
    ensures PostedOk(FailedUnexpectedly(p), next)
  {}

  // -------------------------------------------------------------- activation

  /** No job is active and `job` is next. */
  ghost predicate Between(p: Parent, job: Job) {
    && p.active == None && p.reservation == None && p.dispatched == None && !p.closed && !p.poisoned
    && !p.activeWriter.BatchWriter? && p.jobs == [job.id] + JobIds(p.queue) && Fresh(job)
    && (forall i :: 0 <= i < |p.queue| ==> Fresh(p.queue[i]))
    && (p.ready <==> p.worker.Some?) && p.leased == IdSet(p.jobs)
  }

  lemma FirstRetained(p: Parent, job: Job)
    requires Between(p, job)
    ensures p.jobs != [] && p.jobs[0] == job.id
  {}

  lemma ActivatedShape(p: Parent, job: Job, f: HostFaults, w: Id)
    requires Between(p, job)
    ensures Shape(Activated(p, job, f, w))
  {
    hide Recovered, Fresh, IdSet, JobIds;
    if p.activeWriter != NoOwner {
      RecoveredShape(p);
    } else {
      var p1 := p.(reservation := Some(job.id), activeWriter := BatchWriter(job.id), active := Some(job));
      if (p1.worker == None && f.startFails) || (p1.ready && f.postFails) { RecoveredShape(p1); }
    }
  }

  lemma ActivatedOrder(p: Parent, job: Job, f: HostFaults, w: Id, next: Id)
    requires Between(p, job) && Conserved(p, next)
    ensures Conserved(Activated(p, job, f, w), next)
  {
    hide Recovered, Fresh, IdSet, JobIds;
    if p.activeWriter != NoOwner {
      RecoveredOrder(p, next);
    } else {
      var p1 := p.(reservation := Some(job.id), activeWriter := BatchWriter(job.id), active := Some(job));
      if (p1.worker == None && f.startFails) || (p1.ready && f.postFails) { RecoveredOrder(p1, next); }
    }
  }

  /** The first retained job reaches its Worker, once. */
  lemma PostedFirst(p: Parent, w: Id, job: Job, next: Id)
    requires Conserved(p, next) && PostedOk(p, next) && p.jobs != [] && p.jobs[0] == job.id && p.dispatched == None
    ensures PostedOk(PostedTo(p, w, job), next) && job.id !in p.posted
  {
    Positions(p, next);
    var q := PostedTo(p, w, job);
    forall id | id in p.jobs ensures id in q.posted <==> q.dispatched == Some(id) {
      var i :| 0 <= i < |p.jobs| && p.jobs[i] == id;
    }
    assert forall id :: id in p.microtasks ==> id != job.id;
  }

  lemma ActivatedPosted(p: Parent, job: Job, f: HostFaults, w: Id, next: Id)
    requires Between(p, job) && Conserved(p, next) && PostedOk(p, next)
    ensures PostedOk(Activated(p, job, f, w), next)
  {
    hide Recovered, Fresh, IdSet, JobIds;
    Positions(p, next);
    if p.activeWriter != NoOwner {
      RecoveredPosted(p, next);
    } else {
      var p1 := p.(reservation := Some(job.id), activeWriter := BatchWriter(job.id), active := Some(job));
      if (p1.worker == None && f.startFails) || (p1.ready && f.postFails) {
        RecoveredPosted(p1, next);
      } else if p1.ready {
        FirstRetained(p, job);
        PostedFirst(p1, p1.worker.value, job, next);
      }
    }
  }

  // ------------------------------------------------------------------ events

  ghost predicate ClientOk(p: Parent, next: Id) { Shape(p) && Conserved(p, next) && PostedOk(p, next) }

  lemma ActivatedKeeps(p: Parent, job: Job, f: HostFaults, w: Id, next: Id)
    requires Between(p, job) && Conserved(p, next) && PostedOk(p, next)
    ensures ClientOk(Activated(p, job, f, w), next)
  {
    hide Between, Conserved, PostedOk, Shape, Activated;
    ActivatedShape(p, job, f, w);
    ActivatedOrder(p, job, f, w, next);
    ActivatedPosted(p, job, f, w, next);
  }

  lemma RecoveredKeeps(p: Parent, next: Id)
    requires Abandonable(p) && Conserved(p, next) && PostedOk(p, next) && p.dispatched == None
    ensures ClientOk(Recovered(p), next)
  {
    RecoveredShape(p);
    RecoveredOrder(p, next);
    RecoveredPosted(p, next);
    hide Conserved, PostedOk, Shape, Recovered;
  }

  lemma ShapeIsAbandonable(p: Parent)
    requires Shape(p) && !p.closed
    ensures Abandonable(p) && (p.active.Some? ==> p.activeWriter != OtherWriter)
  {}

  /** A Worker failure recovers or poisons; either way every retained job is accounted for. */
  lemma FailedProtocolKeeps(p: Parent, next: Id)
    requires ClientOk(p, next) && p.microtasks == []
    ensures ClientOk(FailedProtocol(p), next)
  {
    hide Conserved, PostedOk, Recovered, FailedUnexpectedly, IdSet, JobIds, Fresh;
    if p.closed {
      ClosedIgnores(p);
    } else if p.dispatched == None {
      ShapeIsAbandonable(p);
      RecoveredKeeps(p, next);
    } else {
      PoisonedKeeps(p, next);
    }
  }

  lemma ClosedIgnores(p: Parent)
    requires p.closed
    ensures FailedProtocol(p) == p && Recovered(p) == p && FailedUnexpectedly(p) == p
  {}

  lemma PoisonedKeeps(p: Parent, next: Id)
    requires ClientOk(p, next) && p.active.Some? && p.microtasks == []
    ensures ClientOk(FailedUnexpectedly(p), next) && FailedUnexpectedly(p).poisoned
  {
    hide Conserved, PostedOk, IdSet, JobIds, Fresh;
    ShapeIsAbandonable(p);
    PoisonedShape(p);
    PoisonedOrder(p, next);
    PoisonedPosted(p, next);
  }

  lemma EnqueuedKeeps(p: Parent, job: Job, f: HostFaults, w: Id, next: Id)
    requires ClientOk(p, next) && !p.closed && Fresh(job) && job.id == next
    ensures ClientOk(Enqueued(p, job, f, w), next + 1)
  {
    hide Activated, Conserved, PostedOk, IdSet;
    var p1 := p.(jobs := p.jobs + [job.id], leased := p.leased + {job.id});
    IdSetSnoc(p.jobs, job.id);
    EnqueuedOrder(p, p1, next);
    if p.active.Some? {
      assert JobIds(p.queue + [job]) == JobIds(p.queue) + [job.id];
      QueueIgnored(p1, p.queue + [job], next + 1);
    } else {
      assert JobIds([]) == [];
      ActivatedKeeps(p1, job, f, w, next + 1);
    }
  }

  lemma EnqueuedOrder(p: Parent, p1: Parent, next: Id)
    requires Conserved(p, next) && PostedOk(p, next) && (p.dispatched.Some? ==> p.dispatched.value in p.jobs)
    requires p1 == p.(jobs := p.jobs + [next], leased := p1.leased)
    ensures Conserved(p1, next + 1) && PostedOk(p1, next + 1)
  {
    Positions(p, next);
    assert Upto(next + 1) == Upto(next) + [next];
    assert CallbackIds(p.calledBack) + p.microtasks + (p.jobs + [next])
        == CallbackIds(p.calledBack) + p.microtasks + p.jobs + [next];
    forall id | id in p.jobs ensures id < next { var i :| 0 <= i < |p.jobs| && p.jobs[i] == id; }
  }

  /** Activation does not look at the callbacks already made. */
  lemma ActivatedIgnoresCallbacks(p: Parent, calls: seq<Callback>, job: Job, f: HostFaults, w: Id)
    ensures Activated(p.(calledBack := calls), job, f, w) == Activated(p, job, f, w).(calledBack := calls)
    ensures Activated(p, job, f, w).calledBack == p.calledBack
  {
    hide Recovered, PostedTo;
    var p1 := p.(reservation := Some(job.id), activeWriter := BatchWriter(job.id), active := Some(job));
    var p2 := if p1.worker == None then p1.(worker := Some(w), inboxes := p1.inboxes[w := [Start]]) else p1;
    if p.activeWriter != NoOwner || p.poisoned {
      RecoveredIgnoresCallbacks(p, calls);
    } else if p1.worker == None && f.startFails {
      RecoveredIgnoresCallbacks(p1, calls);
    } else if p2.ready && f.postFails {
      RecoveredIgnoresCallbacks(p2, calls);
    } else if p2.ready {
      PostedIgnoresCallbacks(p2, calls, job);
    }
  }

  lemma RecoveredIgnoresCallbacks(p: Parent, calls: seq<Callback>)
    ensures Recovered(p.(calledBack := calls)) == Recovered(p).(calledBack := calls)
    ensures Recovered(p).calledBack == p.calledBack
  {
    hide IdSet;
  }

  lemma PostedIgnoresCallbacks(p: Parent, calls: seq<Callback>, job: Job)
    requires p.worker.Some?
    ensures PostedTo(p.(calledBack := calls), p.worker.value, job)
      == PostedTo(p, p.worker.value, job).(calledBack := calls)
    ensures PostedTo(p, p.worker.value, job).calledBack == p.calledBack
  {}

  /** The parent once the active job has let go and its callback is recorded. */
  function CalledBack(p: Parent, callback: Callback): Parent
    requires p.active.Some?
  {
    Settled(p.(dispatched := None), p.active.value).(calledBack := p.calledBack + [callback])
  }

  lemma SettledFields(p: Parent, next: Id)
    requires ClientOk(p, next) && p.active.Some?
    ensures var q := Settled(p.(dispatched := None), p.active.value);
      q == p.(active := None, jobs := JobIds(p.queue), leased := IdSet(JobIds(p.queue)), reservation := None,
              activeWriter := NoOwner, dispatched := None)
    ensures p.jobs == [p.active.value.id] + JobIds(p.queue)
  {
    Positions(p, next);
    WithoutFirst(p.jobs);
    assert p.jobs[1..] == JobIds(p.queue);
    IdSetCons(p.active.value.id, JobIds(p.queue));
    forall i | 0 <= i < |JobIds(p.queue)| ensures JobIds(p.queue)[i] != p.active.value.id {
      assert p.jobs[i + 1] == JobIds(p.queue)[i];
    }
    assert p.leased - {p.active.value.id} == IdSet(JobIds(p.queue));
  }

  lemma CalledBackOrder(p: Parent, callback: Callback, next: Id)
    requires ClientOk(p, next) && p.active.Some? && p.microtasks == [] && callback.id == p.active.value.id
    requires callback.error != Some(NotDispatched) && callback.error != Some(EnvironmentPoisoned)
    requires p.dispatched == Some(callback.id)
    ensures Conserved(CalledBack(p, callback), next) && PostedOk(CalledBack(p, callback), next)
  {
    var q := CalledBack(p, callback);
    SettledFields(p, next);
    Positions(p, next);
    CallbackIdsConcat(p.calledBack, [callback]);
    assert CallbackIds([callback]) == [callback.id];
    assert CallbackIds(p.calledBack) + [callback.id] + [] + JobIds(p.queue)
        == CallbackIds(p.calledBack) + [] + ([callback.id] + JobIds(p.queue));
    forall id | id in q.jobs ensures id !in p.posted {
      var i :| 0 <= i < |q.jobs| && q.jobs[i] == id;
      assert p.jobs[i + 1] == id;
    }
  }

  lemma FinishedKeeps(p: Parent, error: Option<Failure>, releaseFails: bool, f: HostFaults, w: Id, next: Id)
    requires ClientOk(p, next) && p.active.Some? && p.microtasks == [] && p.dispatched == Some(p.active.value.id)
    requires error == None || error == Some(WorkerFailure)
    ensures ClientOk(Finished(p.(dispatched := None), p.active.value, error, releaseFails, f, w), next)
  {
    hide Activated, Settled, Conserved, PostedOk;
    var job := p.active.value;
    var outcome := if error == None && releaseFails then Some(CleanupFailure) else error;
    var callback := Callback(job.id, outcome, if outcome == None then job.results else []);
    var q := CalledBack(p, callback);
    SettledFields(p, next);
    CalledBackOrder(p, callback, next);
    if p.queue == [] {
      assert JobIds([]) == [];
    } else {
      JobIdsTail(p.queue);
      var settled := Settled(p.(dispatched := None), job);
      ActivatedIgnoresCallbacks(settled.(queue := p.queue[1..]), q.calledBack, p.queue[0], f, w);
      QueueIgnored(q, p.queue[1..], next);
      ActivatedKeeps(q.(queue := p.queue[1..]), p.queue[0], f, w, next);
    }
  }

  lemma QueueIgnored(p: Parent, queue: seq<Job>, next: Id)
    requires Conserved(p, next) && PostedOk(p, next)
    ensures Conserved(p.(queue := queue), next) && PostedOk(p.(queue := queue), next)
  {}

  lemma {:induction false} ApplyAllKeepsJob(job: Job, deltas: seq<(int, int)>)
    ensures ApplyAll(job, deltas).Some? ==>
      var applied := ApplyAll(job, deltas).value;
      applied.id == job.id && applied.operations == job.operations
      && applied.terminateAfterBegin == job.terminateAfterBegin
    decreases |deltas|
  {
    if deltas != [] && Acceptable(job, deltas[0]) { ApplyAllKeepsJob(Apply(job, deltas[0]), deltas[1..]); }
  }

  /** Whatever the Worker sends, the client stays in order. */
  lemma HandledKeeps(p: Parent, message: Reply, releaseFails: bool, f: HostFaults, w: Id, next: Id)
    requires ClientOk(p, next) && p.microtasks == []
    ensures ClientOk(Handled(p, message, releaseFails, f, w), next)
  {
    hide Conserved, PostedOk, FailedProtocol, Finished, ApplyAll, EveryResult, FailedUnexpectedly, IdSet, JobIds,
         HandledReady;
    if p.closed {
    } else if message.Ready? {
      HandledReadyKeeps(p, f, next);
    } else if p.active == None || p.active.value.id != message.id || p.dispatched != Some(message.id) {
      FailedProtocolKeeps(p, next);
    } else {
      match message
      case Progress(_, deltas) =>
        ApplyAllKeepsJob(p.active.value, deltas);
        PoisonedKeeps(p, next);
        if ApplyAll(p.active.value, deltas).Some? { ActiveIgnored(p, ApplyAll(p.active.value, deltas), next); }
      case Failed(_) => FinishedKeeps(p, Some(WorkerFailure), releaseFails, f, w, next);
      case _ =>
        PoisonedKeeps(p, next);
        FinishedKeeps(p, None, releaseFails, f, w, next);
    }
  }

  lemma ActiveIgnored(p: Parent, active: Option<Job>, next: Id)
    requires Conserved(p, next) && PostedOk(p, next)
    ensures Conserved(p.(active := active), next) && PostedOk(p.(active := active), next)
  {}

  lemma HandledReadyKeeps(p: Parent, f: HostFaults, next: Id)
    requires ClientOk(p, next) && p.microtasks == [] && !p.closed
    ensures ClientOk(HandledReady(p, f), next)
  {
    hide Conserved, PostedOk, FailedProtocol, IdSet, Recovered, JobIds;
    if p.ready || p.active == None {
      FailedProtocolKeeps(p, next);
    } else {
      var p1 := p.(ready := true);
      ReadyIgnored(p, next);
      if f.postFails {
        RecoveredKeeps(p1, next);
      } else {
        PostedFirst(p1, p1.worker.value, p1.active.value, next);
        PostedFields(p1, p1.worker.value, p1.active.value, next);
      }
    }
  }

  lemma PostedFields(p: Parent, w: Id, job: Job, next: Id)
    ensures Conserved(PostedTo(p, w, job), next) == Conserved(p, next)
  {}

  lemma ReadyIgnored(p: Parent, next: Id)
    requires Conserved(p, next) && PostedOk(p, next)
    ensures Conserved(p.(ready := true), next) && PostedOk(p.(ready := true), next)
  {}

  lemma ClosedKeeps(p: Parent, next: Id)
    requires ClientOk(p, next) && p.active == None
    ensures ClientOk(Closed(p), next)
  {}

  lemma MicrotaskKeeps(p: Parent, next: Id)
    requires ClientOk(p, next) && p.microtasks != []
    ensures ClientOk(MicrotaskRun(p), next)
  {
    var callback := Callback(p.microtasks[0], Some(NotDispatched), []);
    CallbackIdsConcat(p.calledBack, [callback]);
    assert CallbackIds([callback]) == [p.microtasks[0]];
    assert CallbackIds(p.calledBack) + [p.microtasks[0]] + p.microtasks[1..] + p.jobs
        == CallbackIds(p.calledBack) + ([p.microtasks[0]] + p.microtasks[1..]) + p.jobs;
    assert [p.microtasks[0]] + p.microtasks[1..] == p.microtasks;
  }
}
