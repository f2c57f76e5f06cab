/** Every step of a Worker, wanted or given up on, keeps the system invariant. */
module BatchWorkerLemmas {
  import opened Common
  import opened BatchExecutor
  import opened BatchProtocol
  import opened BatchSystem
  import opened BatchClientLemmas
  import opened BatchInvariant

  // ------------------------------------------------- steps that take no message

  /** The Worker keeps its job, or answers it. */
  predicate SameTask(before: Worker, after: Worker) {
    && before.task.Some? == after.task.Some?
    && (before.task.Some? ==> before.task.value.id == after.task.value.id)
    && (Unanswered(after) ==> Unanswered(before))
    && (before.phase == Up || before.phase == after.phase || before.task == None)
    && (before.phase == Up ==> after.phase == Up)
  }

  lemma SameTaskKeeps(p: Parent, workers: seq<Worker>, w: Id, worker: Worker)
    requires w < |workers| && SameTask(workers[w], worker)
    requires BoxesOk(p, workers) && WorkingOk(p, workers) && IdsOk(p, workers) && PendingOk(p, workers)
    ensures var after := workers[w := worker];
      BoxesOk(p, after) && WorkingOk(p, after) && IdsOk(p, after) && PendingOk(p, after)
  {
    hide Box;
    var after := workers[w := worker];
    forall v: Id | Working(p, after, v) ensures Working(p, workers, v)
        && WorkId(p, workers, v) == WorkId(p, after, v) {}
  }

  lemma OtherCurrent(p: Parent, workers: seq<Worker>, w: Id, worker: Worker)
    requires w < |workers| && CurrentOk(p, workers)
    requires p.worker == Some(w) ==> CurrentWorker(p, worker, Box(p, w))
    ensures CurrentOk(p, workers[w := worker])
  {
    hide CurrentWorker;
  }

  lemma OtherTasks(workers: seq<Worker>, db: Db, commits: seq<Commit>, w: Id, worker: Worker)
    requires w < |workers| && TasksOk(workers, db, commits)
    requires worker.task.Some? ==> TaskOk(worker.task.value, db, commits)
    ensures TasksOk(workers[w := worker], db, commits)
  {
    hide TaskOk;
  }

  lemma OtherWaiting(p: Parent, workers: seq<Worker>, commits: seq<Commit>, w: Id, worker: Worker)
    requires w < |workers| && WaitingOk(p, workers, commits)
    ensures WaitingOk(p, workers[w := worker], commits)
  {
    hide HasJob, CommittedId;
  }

  /** A step inside one Worker that neither commits nor takes a message. */
  lemma InnerStepKeeps(s: System, w: Id, worker: Worker)
    requires Inv(s) && w < |s.workers| && SameTask(s.workers[w], worker)
    requires s.p.worker == Some(w) ==> CurrentWorker(s.p, worker, Box(s.p, w))
    requires worker.task.Some? ==> TaskOk(worker.task.value, s.db, s.commits)
    ensures Inv(WithWorker(s, w, worker))
  {
    hide ClientOk, BoxesOk, WorkingOk, IdsOk, PendingOk, CurrentOk, TasksOk, TaskOk, WaitingOk, CommitsOk, AnswersOk,
         CurrentWorker, SameTask;
    SameTaskKeeps(s.p, s.workers, w, worker);
    OtherCurrent(s.p, s.workers, w, worker);
    OtherTasks(s.workers, s.db, s.commits, w, worker);
    OtherWaiting(s.p, s.workers, s.commits, w, worker);
  }

  lemma TaskOf(s: System, w: Id)
    requires Inv(s) && w < |s.workers|
    ensures s.workers[w].task.Some? ==> TaskOk(s.workers[w].task.value, s.db, s.commits) && s.workers[w].phase == Up
    ensures s.p.worker == Some(w) ==> CurrentWorker(s.p, s.workers[w], Box(s.p, w))
  {
    hide ClientOk, TaskOk, CommitsOk, AnswersOk, CurrentWorker, WorkingOk, IdsOk, PendingOk;
  }

  lemma DieKeeps(s: System, w: Id)
    requires Inv(s) && w < |s.workers|
    ensures Inv(Next(s, Die(w)))
  {
    hide Inv, TaskOk, Box;
    TaskOf(s, w);
    InnerStepKeeps(s, w, s.workers[w].(dead := true));
  }

  lemma InitializedKeeps(s: System, w: Id)
    requires Inv(s)
    ensures Inv(Next(s, FinishInitialization(w)))
  {
    hide Inv, TaskOk, Box;
    if w < |s.workers| && !s.workers[w].dead && s.workers[w].phase == Initializing {
      TaskOf(s, w);
      InnerStepKeeps(s, w, s.workers[w].(phase := Up, out := s.workers[w].out + [Ready]));
    }
  }

  // ------------------------------------------------------------ running a job

  lemma ProgressSnoc(id: Id, results: seq<BatchResult>, r: BatchResult, m: nat)
    requires m <= |results|
    ensures ProgressFrom(id, results + [r], m) == ProgressFrom(id, results, m) + [Progress(id, [(|results|, Code(r))])]
  {}

  lemma BeginKeeps(s: System, w: Id, ok: bool)
    requires Inv(s)
    ensures Inv(Next(s, BeginTask(w, ok)))
  {
    hide Inv, CommittedId, CommittedWith, ProgressFrom, Box, Received;
    if w < |s.workers| && !s.workers[w].dead && s.workers[w].task.Some? && s.workers[w].task.value.stage == NotBegun {
      TaskOf(s, w);
      var task := s.workers[w].task.value;
      assert task.operations[..0] == [] && Run(s.db, [], []) == Outcome([], s.db, false);
      InnerStepKeeps(s, w,
                     s.workers[w].(task :=
                                   Some(task.(base := s.db, stage := if ok then Open(s.db) else Ended(false)))));
    }
  }

  /** One more operation of the fold. */
  lemma RunSnoc(base: Db, ops: seq<Operation>, faults: seq<OpFaults>, k: nat, txn: Db, results: seq<BatchResult>,
                f: OpFaults)
    requires |faults| == k < |ops| && Run(base, ops[..k], faults) == Outcome(results, txn, false)
    requires Attempt(txn, ops[k], f).Some?
    ensures var (db, r) := Attempt(txn, ops[k], f).value;
      Run(base, ops[..k + 1], faults + [f]) == Outcome(results + [r], db, false)
  {
    hide Attempt;
    RunConcat(base, ops[..k], faults, [ops[k]], [f]);
    assert ops[..k] + [ops[k]] == ops[..k + 1];
    assert [ops[k]][1..] == [] && [f][1..] == [];
  }

  lemma RunKeeps(s: System, w: Id, f: OpFaults)
    requires Inv(s)
    ensures Inv(Next(s, RunOperation(w, f)))
  {
    hide Inv, CommittedId, CommittedWith, ProgressFrom, Box, Attempt, Run;
    if w < |s.workers| && !s.workers[w].dead && s.workers[w].task.Some? {
      var worker, task := s.workers[w], s.workers[w].task.value;
      if task.stage.Open? && !task.terminateAfterBegin && |task.results| < |task.operations| {
        TaskOf(s, w);
        var attempt := Attempt(task.stage.txn, task.operations[|task.results|], f);
        if attempt == None {
          InnerStepKeeps(s, w, worker.(task := Some(task.(stage := Ended(false)))));
        } else {
          var (db, r) := attempt.value;
          RunSnoc(task.base, task.operations, task.faults, |task.results|, task.stage.txn, task.results, f);
          var next := worker.(
             out := worker.out + [Progress(task.id, [(|task.results|, Code(r))])],
             task := Some(task.(stage := Open(db), results := task.results + [r], faults := task.faults + [f])));
          if s.p.worker == Some(w) { RunCurrent(s.p, worker, next, Box(s.p, w), r); }
          InnerStepKeeps(s, w, next);
        }
      }
    }
  }

  lemma RunCurrent(p: Parent, worker: Worker, next: Worker, box: seq<ToWorker>, r: BatchResult)
    requires CurrentWorker(p, worker, box) && worker.task.Some? && worker.task.value.stage.Open?
    requires next.phase == worker.phase && next.task.Some?
      && |worker.task.value.results| < |worker.task.value.operations|
    requires var task, after := worker.task.value, next.task.value;
      && after.id == task.id && after.operations == task.operations && after.results == task.results + [r]
      && after.stage.Open?
      && next.out == worker.out + [Progress(task.id, [(|task.results|, Code(r))])]
    ensures CurrentWorker(p, next, box)
  {
    var task, job := worker.task.value, p.active.value;
    ProgressSnoc(task.id, task.results, r, job.receivedCount);
    assert Received(job, task.results + [r]);
    hide ProgressFrom, Code;
  }

  lemma AnswerKeeps(s: System, w: Id)
    requires Inv(s)
    ensures Inv(Next(s, Answer(w)))
  {
    hide Inv, CommittedId, CommittedWith, ProgressFrom, Box, Received, Run;
    if w < |s.workers| && !s.workers[w].dead && s.workers[w].task.Some? && s.workers[w].task.value.stage.Ended? {
      TaskOf(s, w);
      var worker, task := s.workers[w], s.workers[w].task.value;
      InnerStepKeeps(s, w, worker.(
             out := worker.out + [if task.stage.committed then Complete(task.id) else Failed(task.id)],
             task := Some(task.(stage := Answered(task.stage.committed)))));
    }
  }

  // ------------------------------------------------------------------ commit

  lemma CommittedSnoc(commits: seq<Commit>, c: Commit)
    ensures forall id :: CommittedId(commits + [c], id) <==> CommittedId(commits, id) || id == c.id
    ensures forall id, results :: CommittedWith(commits, id, results) ==> CommittedWith(commits + [c], id, results)
    ensures CommittedWith(commits + [c], c.id, c.results)
  {
    var after := commits + [c];
    assert after[|commits|] == c;
    forall i | 0 <= i < |commits| ensures after[i] == commits[i] {}
  }

  lemma OneAtWork(p: Parent, workers: seq<Worker>, v: Id, w: Id)
    requires WorkingOk(p, workers) && v < |workers| && w < |workers|
    ensures Unanswered(workers[v]) && Unanswered(workers[w]) ==> v == w
    ensures Unanswered(workers[v]) && HasJob(p, w) ==> v == w
    ensures HasJob(p, v) && HasJob(p, w) ==> v == w
  {
    hide Box;
    assert Unanswered(workers[v]) || HasJob(p, v) ==> Working(p, workers, v);
    assert Unanswered(workers[w]) || HasJob(p, w) ==> Working(p, workers, w);
  }

  /** The only open transaction commits; no other job can notice. */
  lemma CommitTasks(s: System, w: Id, after: Db, c: Commit)
    requires w < |s.workers| && TasksOk(s.workers, s.db, s.commits) && IdsOk(s.p, s.workers)
      && WorkingOk(s.p, s.workers)
    requires s.workers[w].task.Some? && s.workers[w].task.value.stage.Open? && c.id == s.workers[w].task.value.id
    requires c.results == s.workers[w].task.value.results && |c.results| == |s.workers[w].task.value.operations|
    ensures TasksOk(s.workers[w := s.workers[w].(task := Some(s.workers[w].task.value.(stage := Ended(true))))], after,
                    s.commits + [c])
  {
    hide CommittedId, CommittedWith, Run;
    CommittedSnoc(s.commits, c);
    forall v: Id | v < |s.workers| && v != w && s.workers[v].task.Some?
      ensures TaskOk(s.workers[v].task.value, after, s.commits + [c])
    {
      OneAtWork(s.p, s.workers, v, w);
    }
  }

  lemma CommitWaiting(s: System, w: Id, worker: Worker, c: Commit)
    requires w < |s.workers| && WaitingOk(s.p, s.workers, s.commits) && IdsOk(s.p, s.workers)
    requires s.workers[w].task.Some? && c.id == s.workers[w].task.value.id
    ensures WaitingOk(s.p, s.workers[w := worker], s.commits + [c])
  {
    hide CommittedId, CommittedWith, Box;
    CommittedSnoc(s.commits, c);
  }

  lemma CommitCommits(commits: seq<Commit>, posted: set<Id>, c: Commit)
    requires CommitsOk(commits, posted) && !CommittedId(commits, c.id) && c.id in posted
    requires |c.faults| == |c.operations| && Run(c.before, c.operations, c.faults) == Outcome(c.results, c.after, false)
    ensures CommitsOk(commits + [c], posted)
  {
    hide Run;
  }

  lemma CommitAnswers(calledBack: seq<Callback>, commits: seq<Commit>, c: Commit)
    requires AnswersOk(calledBack, commits)
    requires forall i :: 0 <= i < |calledBack| && calledBack[i].id == c.id ==>
      calledBack[i].error == Some(EnvironmentPoisoned)
    ensures AnswersOk(calledBack, commits + [c])
  {
    hide CommittedId, Codes;
    CommittedSnoc(commits, c);
    forall i | 0 <= i < |calledBack| ensures AnswerOk(calledBack[i], commits + [c]) {
      assert AnswerOk(calledBack[i], commits);
      if calledBack[i].error == None {
        var j :| 0 <= j < |commits| && commits[j].id == calledBack[i].id
            && calledBack[i].results == Codes(commits[j].results);
        assert (commits + [c])[j] == commits[j];
      }
    }
  }

  lemma WorkedOn(s: System, w: Id)
    requires Inv(s) && w < |s.workers| && Unanswered(s.workers[w])
    ensures var id := s.workers[w].task.value.id;
      && id in s.p.posted
      && forall i :: 0 <= i < |s.p.calledBack| && s.p.calledBack[i].id == id ==>
          s.p.calledBack[i].error == Some(EnvironmentPoisoned)
  {
    hide ClientOk, CurrentOk, DatabaseOk;
    assert Working(s.p, s.workers, w) && WorkId(s.p, s.workers, w) == s.workers[w].task.value.id;
  }

  lemma CommitKeeps(s: System, w: Id, ok: bool)
    requires Inv(s)
    ensures Inv(Next(s, CommitTask(w, ok)))
  {
    hide Inv, CommittedId, CommittedWith, ProgressFrom, Box, Received, Run;
    if w < |s.workers| && !s.workers[w].dead && s.workers[w].task.Some? {
      var worker, task := s.workers[w], s.workers[w].task.value;
      if task.stage.Open? && !task.terminateAfterBegin && |task.results| == |task.operations| {
        TaskOf(s, w);
        var next := worker.(task := Some(task.(stage := Ended(ok))));
        if ok {
          assert task.operations[..|task.results|] == task.operations;
          CommittedKeeps(s, w, Commit(task.id, task.operations, task.faults, s.db, task.stage.txn, task.results), next);
        } else {
          InnerStepKeeps(s, w, next);
        }
      }
    }
  }

  lemma CommittedKeeps(s: System, w: Id, c: Commit, next: Worker)
    requires Inv(s) && w < |s.workers| && s.workers[w].task.Some?
    requires var task := s.workers[w].task.value;
      && task.stage.Open? && c == Commit(task.id, task.operations, task.faults, s.db, task.stage.txn, task.results)
      && next == s.workers[w].(task := Some(task.(stage := Ended(true))))
      && |task.results| == |task.operations| && task.operations[..|task.results|] == task.operations
    ensures Inv(WithWorker(s, w, next).(db := c.after, commits := s.commits + [c]))
  {
    hide ClientOk, BoxesOk, WorkingOk, IdsOk, PendingOk, CurrentOk, TasksOk, WaitingOk, CommitsOk, AnswersOk,
         CommittedId, CommittedWith, Run, Received, ProgressFrom, Box;
    TaskOf(s, w);
    WorkedOn(s, w);
    SameTaskKeeps(s.p, s.workers, w, next);
    OtherCurrent(s.p, s.workers, w, next);
    CommitTasks(s, w, c.after, c);
    CommitWaiting(s, w, next, c);
    CommitCommits(s.commits, s.p.posted, c);
    CommitAnswers(s.p.calledBack, s.commits, c);
  }

  // -------------------------------------------------------- taking a message

  lemma TakenBoxes(p: Parent, w: Id)
    requires Box(p, w) != []
    ensures Box(Taken(p, w), w) == Box(p, w)[1..] && forall v :: v != w ==> Box(Taken(p, w), v) == Box(p, v)
  {}

  lemma TakenClient(p: Parent, w: Id, next: Id)
    requires Box(p, w) != [] && ClientOk(p, next)
    ensures ClientOk(Taken(p, w), next)
  {
    hide IdSet, JobIds, Fresh;
  }

  /** Taking a start message changes no job. */
  lemma TakeStartKeeps(s: System, w: Id, worker: Worker)
    requires Inv(s) && w < |s.workers| && Box(s.p, w) != [] && Box(s.p, w)[0].Start? && SameTask(s.workers[w], worker)
    requires s.p.worker == Some(w) ==> CurrentWorker(s.p, worker, [])
    requires worker.task == s.workers[w].task
    ensures Inv(WithWorker(s.(p := Taken(s.p, w)), w, worker))
  {
    hide ClientOk, WorkingOk, IdsOk, PendingOk, CurrentWorker, TaskOk, CommitsOk, AnswersOk, SameTask, Box, Taken,
         CommittedId;
    var p := Taken(s.p, w);
    TakenBoxes(s.p, w);
    TakenClient(s.p, w, s.next);
    InboxFields(s.p, w);
    StartedTables(s.p, p, s.workers, w);
    SameTaskKeeps(p, s.workers, w, worker);
    CurrentTaken(s.p, w, worker);
  }

  lemma InboxFields(p: Parent, w: Id)
    requires Box(p, w) != []
    ensures Taken(p, w) == p.(inboxes := Taken(p, w).inboxes)
    ensures forall v :: v in Taken(p, w).inboxes ==> v == w || v in p.inboxes
    ensures w in p.inboxes
  {}

  lemma CurrentTaken(p: Parent, w: Id, worker: Worker)
    requires Box(p, w) != []
    ensures forall box :: CurrentWorker(Taken(p, w), worker, box) == CurrentWorker(p, worker, box)
    ensures forall v: Worker, box :: CurrentWorker(Taken(p, w), v, box) == CurrentWorker(p, v, box)
  {
    hide Starting, OnItsWay, BeingRun, Idle;
  }

  lemma StartedTables(p: Parent, q: Parent, workers: seq<Worker>, w: Id)
    requires BoxesOk(p, workers) && WorkingOk(p, workers) && IdsOk(p, workers) && PendingOk(p, workers)
    requires q == p.(inboxes := q.inboxes) && (forall v :: v in q.inboxes ==> v == w || v in p.inboxes)
      && w in p.inboxes
    requires Box(p, w) != [] && Box(p, w)[0].Start? && Box(q, w) == Box(p, w)[1..]
      && (forall v :: v != w ==> Box(q, v) == Box(p, v))
    ensures BoxesOk(q, workers) && WorkingOk(q, workers) && IdsOk(q, workers) && PendingOk(q, workers)
    ensures forall v :: HasJob(q, v) <==> HasJob(p, v)
  {
    hide Box;
    forall v: Id ensures HasJob(q, v) <==> HasJob(p, v) {}
    forall v: Id | Working(q, workers, v) ensures Working(p, workers, v)
        && WorkId(q, workers, v) == WorkId(p, workers, v) {}
  }

  lemma JobTables(p: Parent, q: Parent, workers: seq<Worker>, w: Id, worker: Worker)
    requires BoxesOk(p, workers) && WorkingOk(p, workers) && IdsOk(p, workers) && PendingOk(p, workers)
    requires q == p.(inboxes := q.inboxes) && (forall v :: v in q.inboxes ==> v == w || v in p.inboxes)
      && w in p.inboxes
    requires w < |workers| && HasJob(p, w) && Box(q, w) == Box(p, w)[1..]
      && (forall v :: v != w ==> Box(q, v) == Box(p, v))
    requires worker.phase == workers[w].phase && worker.task.Some? && worker.task.value.id == Box(p, w)[0].id
      && Unanswered(worker)
    ensures var after := workers[w := worker];
      BoxesOk(q, after) && WorkingOk(q, after) && IdsOk(q, after) && PendingOk(q, after)
    ensures forall v: Id :: HasJob(q, v) ==> HasJob(p, v) && Box(q, v) == Box(p, v)
  {
    hide Box;
    var after := workers[w := worker];
    assert Working(p, workers, w);
    forall v: Id ensures HasJob(q, v) ==> v != w && HasJob(p, v) && Box(q, v) == Box(p, v) {}
    forall v: Id | Working(q, after, v) ensures Working(p, workers, v)
        && WorkId(q, after, v) == WorkId(p, workers, v) {}
    forall v: Id | v < |workers| && v != w ensures !HasJob(p, v) { OneAtWork(p, workers, v, w); }
  }

  /** Taking the posted job. */
  lemma TakeJobKeeps(s: System, w: Id, worker: Worker)
    requires Inv(s) && w < |s.workers| && HasJob(s.p, w)
    requires var m := Box(s.p, w)[0];
      worker == s.workers[w].(task := Some(Task(m.id, m.operations, m.terminateAfterBegin, map[], NotBegun, [], [])))
    ensures Inv(WithWorker(s.(p := Taken(s.p, w)), w, worker))
  {
    hide ClientOk, BoxesOk, WorkingOk, IdsOk, PendingOk, CurrentWorker, CommitsOk, AnswersOk, TasksOk, Box, Taken,
         CommittedId, CommittedWith, Run;
    var p := Taken(s.p, w);
    TakenBoxes(s.p, w);
    TakenClient(s.p, w, s.next);
    InboxFields(s.p, w);
    JobTables(s.p, p, s.workers, w, worker);
    CurrentTaken(s.p, w, worker);
    if s.p.worker == Some(w) { JobTaken(s, w, worker); }
    OtherTasks(s.workers, s.db, s.commits, w, worker);
  }

  lemma JobTaken(s: System, w: Id, worker: Worker)
    requires Inv(s) && w < |s.workers| && HasJob(s.p, w) && s.p.worker == Some(w)
    requires var m := Box(s.p, w)[0];
      worker == s.workers[w].(task := Some(Task(m.id, m.operations, m.terminateAfterBegin, map[], NotBegun, [], [])))
    ensures CurrentWorker(s.p, worker, Box(s.p, w)[1..])
  {
    hide WorkingOk, IdsOk, PendingOk, DatabaseOk, ClientOk, Box;
    assert CurrentWorker(s.p, s.workers[w], Box(s.p, w));
    assert OnItsWay(s.p.active.value, s.workers[w], Box(s.p, w));
    assert ProgressFrom(worker.task.value.id, [], 0) == [];
    assert Received(s.p.active.value, []);
  }

  lemma TakeKeeps(s: System, w: Id)
    requires Inv(s)
    ensures Inv(Next(s, Take(w)))
  {
    hide Inv, TaskOk, Box, Starting, OnItsWay, BeingRun, Idle, Taken;
    if w < |s.workers| && !s.workers[w].dead && Box(s.p, w) != [] {
      TaskOf(s, w);
      if Box(s.p, w)[0].Start? {
        StartShape(s, w);
        TakeStartKeeps(s, w, if s.workers[w].phase == Unstarted then s.workers[w].(phase := Initializing)
                             else s.workers[w].(dead := true));
      } else {
        var m := Box(s.p, w)[0];
        InboxShape(s, w);
        TakeJobKeeps(s, w, s.workers[w].(
          task := Some(Task(m.id, m.operations, m.terminateAfterBegin, map[], NotBegun, [], []))));
      }
    }
  }

  lemma InboxShape(s: System, w: Id)
    requires Inv(s) && w < |s.workers| && HasJob(s.p, w)
    ensures s.workers[w].phase == Up && !Unanswered(s.workers[w])
  {
    hide ClientOk, DatabaseOk, CurrentOk, WorkingOk, IdsOk, PendingOk, Box;
  }

  /** The current Worker takes a start message only at its very beginning. */
  lemma StartShape(s: System, w: Id)
    requires Inv(s) && w < |s.workers| && Box(s.p, w) != [] && Box(s.p, w)[0].Start?
    ensures s.p.worker == Some(w) ==>
      s.workers[w].phase == Unstarted && CurrentWorker(s.p, s.workers[w].(phase := Initializing), [])
    ensures s.workers[w].phase == Unstarted ==> s.workers[w].task == None
  {
    hide ClientOk, DatabaseOk, WorkingOk, IdsOk, PendingOk, Box;
  }
}
