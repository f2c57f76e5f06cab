/**
 A job in small steps and in one go: however LMDB treats its calls, the events of a
 Worker add up to what `WorkerScope.RunJob` sends and leaves.
 */
module BatchJobs {
  import opened Common
  import opened BatchExecutor
  import opened BatchProtocol
  import opened BatchSystem
  import opened BatchInvariant
  import opened BatchExamples
  import opened BatchWorkers

  /** A Worker about to begin its job, which is not the deliberate hard failure. */
  predicate AboutToBegin(s: System, w: Id) {
    Runnable(s, w) && s.workers[w].task.value.stage == NotBegun
    && s.workers[w].task.value.results == [] && s.workers[w].task.value.faults == []
  }

  /** The events of a job whose native calls meet the fates of `script` from number `calls` on. */
  function EventsOf(w: Id, db: Db, ops: seq<Operation>, script: nat -> Fault, calls: nat): seq<Event> {
    if script(calls) != NoFault then [BeginTask(w, false), Answer(w)]
    else
      var o, fs := RunScript(db, ops, script, calls + 1), FaultsOf(db, ops, script, calls + 1);
      if o.failed
      then [BeginTask(w, true)] + (OperationEvents(w, fs[..|o.results|])
                                   + [RunOperation(w, fs[|o.results|]), Answer(w)])
      else [BeginTask(w, true)] + (OperationEvents(w, fs) + [CommitTask(w, Accepts(db, ops, script, calls)), Answer(w)])
  }

  /** The results are those of the operations before the one that throws, if one does. */
  lemma {:induction false} RunPrefix(db: Db, ops: seq<Operation>, faults: seq<OpFaults>)
    requires |faults| == |ops|
    ensures var o := Run(db, ops, faults);
      && Run(db, ops[..|o.results|], faults[..|o.results|]) == Outcome(o.results, o.db, false)
      && (o.failed ==> Attempt(o.db, ops[|o.results|], faults[|o.results|]) == None)
    decreases |ops|
  {
    hide Attempt;
    var o := Run(db, ops, faults);
    if o.results == [] {
      assert ops[..0] == [] && faults[..0] == [];
      RunNothing(db);
    } else {
      RunTail(db, ops, faults);
      var next := Attempt(db, ops[0], faults[0]).value;
      var rest := Run(next.0, ops[1..], faults[1..]);
      RunPrefix(next.0, ops[1..], faults[1..]);
      var k := |o.results|;
      assert rest.results == o.results[1..] && |rest.results| == k - 1;
      assert ops[..k][1..] == ops[1..][..k - 1] && faults[..k][1..] == faults[1..][..k - 1];
      assert [o.results[0]] + o.results[1..] == o.results;
    }
  }

  /** The Worker and the database once the operations have run. */
  lemma OperationsRan(s: System, w: Id, k: nat, fs: seq<OpFaults>)
    requires AboutToBegin(s, w) && k <= |s.workers[w].task.value.operations| && |fs| == k
    requires !Run(s.db, s.workers[w].task.value.operations[..k], fs).failed
    ensures var task := s.workers[w].task.value;
      var o := Run(s.db, task.operations[..k], fs);
      RunEvents(s, [BeginTask(w, true)] + OperationEvents(w, fs)) == WithWorker(s, w, s.workers[w].(
        out := s.workers[w].out + ProgressFrom(task.id, o.results, 0),
        task := Some(task.(base := s.db, stage := Open(o.db), results := o.results, faults := fs))))
  {
    hide Next, RunEvents, OperationEvents, ProgressFrom, Run, AfterOperations;
    var task := s.workers[w].task.value;
    var o := Run(s.db, task.operations[..k], fs);
    RunAppend(s, [BeginTask(w, true)], OperationEvents(w, fs));
    OneEvent(s, BeginTask(w, true));
    BeginStep(s, w);
    var begun := Next(s, BeginTask(w, true));
    assert task.operations[0..k] == task.operations[..k];
    OperationsRun(begun, w, fs);
    RanFields(begun.workers[w], fs, o);
    Overwritten(s.workers, w, begun.workers[w], AfterOperations(begun.workers[w], fs, o));
  }

  lemma FailedBegin(s: System, w: Id)
    requires AboutToBegin(s, w)
    ensures var t := Next(Next(s, BeginTask(w, false)), Answer(w));
      && t.db == s.db && t.p == s.p && t.commits == s.commits && w < |t.workers|
      && t.workers[w].out == s.workers[w].out + [Failed(s.workers[w].task.value.id)]
  {}

  lemma FailedOperation(s: System, w: Id, f: OpFaults)
    requires Runnable(s, w) && s.workers[w].task.value.stage.Open?
    requires var task := s.workers[w].task.value;
      |task.results| < |task.operations| && Attempt(task.stage.txn, task.operations[|task.results|], f) == None
    ensures var t := Next(Next(s, RunOperation(w, f)), Answer(w));
      && t.db == s.db && t.p == s.p && t.commits == s.commits && w < |t.workers|
      && t.workers[w].out == s.workers[w].out + [Failed(s.workers[w].task.value.id)]
  {
    hide Attempt;
  }

  lemma EndedJob(s: System, w: Id, ok: bool)
    requires Runnable(s, w) && s.workers[w].task.value.stage.Open?
    requires |s.workers[w].task.value.results| == |s.workers[w].task.value.operations|
    ensures var task := s.workers[w].task.value;
      var t := Next(Next(s, CommitTask(w, ok)), Answer(w));
      && t.db == (if ok then task.stage.txn else s.db) && t.p == s.p && w < |t.workers|
      && t.workers[w].out == s.workers[w].out + [if ok then Complete(task.id) else Failed(task.id)]
      && t.commits == if ok
           then s.commits + [Commit(task.id, task.operations, task.faults, s.db, task.stage.txn, task.results)]
               else s.commits
  {}

  /**
   Step by step a Worker sends what `RunJob` sends and leaves the database `RunJob`
   leaves, whether the begin, an operation, the commit or nothing at all fails.
   */
  lemma StepsAreRunJob(s: System, w: Id, script: nat -> Fault, calls: nat)
    requires AboutToBegin(s, w)
    ensures var task := s.workers[w].task.value;
      var t := RunEvents(s, EventsOf(w, s.db, task.operations, script, calls));
      && t.db == JobDb(s.db, task.operations, script, calls) && t.p == s.p && w < |t.workers|
      && t.workers[w].out == s.workers[w].out + JobReplies(task.id, s.db, task.operations, script, calls)
      && (|t.commits| > |s.commits| <==> Accepts(s.db, task.operations, script, calls))
  {
    hide Next, RunEvents, OperationEvents, ProgressFrom, Run, CallsMade, FaultsOf, Attempt, AfterOperations;
    var task := s.workers[w].task.value;
    var ops, out := task.operations, s.workers[w].out;
    if script(calls) != NoFault {
      TwoEvents(s, BeginTask(w, false), Answer(w));
      FailedBegin(s, w);
    } else {
      var o, fs := RunScript(s.db, ops, script, calls + 1), FaultsOf(s.db, ops, script, calls + 1);
      RunPrefix(s.db, ops, fs);
      var k := |o.results|;
      var events := OperationEvents(w, fs[..k]);
      OperationsRan(s, w, k, fs[..k]);
      var ran := RunEvents(s, [BeginTask(w, true)] + events);
      var last := if o.failed then [RunOperation(w, fs[k]), Answer(w)]
                  else [CommitTask(w, Accepts(s.db, ops, script, calls)), Answer(w)];
      assert fs[..|fs|] == fs;
      assert [BeginTask(w, true)] + (events + last) == [BeginTask(w, true)] + events + last;
      RunAppend(s, [BeginTask(w, true)] + events, last);
      TwoEvents(ran, last[0], last[1]);
      if o.failed { FailedOperation(ran, w, fs[k]); } else { EndedJob(ran, w, Accepts(s.db, ops, script, calls)); }
      assert out + ProgressFrom(task.id, o.results, 0)
          + [if Accepts(s.db, ops, script, calls) then Complete(task.id) else Failed(task.id)]
          == out + JobReplies(task.id, s.db, ops, script, calls);
    }
  }

  /** The deliberate hard failure: nothing is sent, and a dead Worker holds its transaction open. */
  lemma StepsOfHardFailure(s: System, w: Id)
    requires w < |s.workers| && !s.workers[w].dead && s.workers[w].task.Some?
    requires s.workers[w].task.value.stage == NotBegun && s.workers[w].task.value.terminateAfterBegin
    ensures var t := RunEvents(s, [BeginTask(w, true), Die(w)]);
      && t.db == s.db && t.commits == s.commits && t.p == s.p && w < |t.workers| && t.workers[w].dead
      && t.workers[w].out == s.workers[w].out
      && t.workers[w].task.Some? && t.workers[w].task.value.stage == Open(s.db)
  {
    TwoEvents(s, BeginTask(w, true), Die(w));
    hide RunEvents;
  }
}
