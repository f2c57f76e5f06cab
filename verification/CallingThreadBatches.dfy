/** `Env.batchWrite` with `useWorker: false`: the whole batch runs before the call returns. */
module CallingThreadBatches {
  import opened Common
  import opened NativeLmdb
  import opened Ownership
  import opened RetentionLemmas
  import opened EnvironmentLemmas
  import opened SharedEnvironments
  import opened PublicOperations
  import opened BatchExecutor
  import opened BatchLeases

  /** The two microtasks: a progress call with the completed prefix, then the callback. */
  datatype Completion = Completion(error: Option<BatchError>, progress: bool, results: seq<Option<BatchResult>>)

  method CountCompleted(results: array<Option<BatchResult>>, ghost done: seq<BatchResult>) returns (n: nat)
    requires Filled(results[..], done)
    ensures n == |done|
  {
    n := 0;
    while n < results.Length && results[n].Some?
      invariant n <= |done|
    {
      assert results[..][n] == results[n];
      n := n + 1;
    }
    assert n < results.Length ==> results[..][n] == results[n];
  }

  /**
   What the callback and the progress call will be given: the completed prefix, and
   no error exactly when LMDB lets the batch through, which is when it is committed.
   */
  predicate Completes(c: Completion, operations: seq<Operation>, before: Db, after: Db, script: nat -> Fault,
                      calls: nat) {
    var o := RunScript(before, operations, script, calls + 1);
    var done := if script(calls) == NoFault then o.results else [];
    && Filled(c.results, done) && |c.results| == |operations| && c.progress == (done != [])
    && (c.error == None <==> Accepts(before, operations, script, calls))
    && after == (if c.error == None then o.db else before)
  }

  method RunHere(api: NativeApi, operations: seq<Operation>) returns (c: Completion)
    requires api.txn == None
    modifies api
    ensures api.txn == None && Completes(c, operations, old(api.db), api.db, api.script, old(api.calls))
    ensures c.error == None ==> api.commits == old(api.commits) + 1
  {
    hide RunScript, Numbered, CallsMade;
    var results := new Option<BatchResult>[|operations|](_ => None);
    var executed := ExecuteBatch(api, operations, results, null);
    ghost var o := RunScript(old(api.db), operations, api.script, old(api.calls) + 1);
    ghost var done := if api.script(old(api.calls)) == NoFault then o.results else [];
    match executed {
      case Ok(n) => return Completion(None, n != 0, results[..]);
      case Err(failure) =>
        var completed := CountCompleted(results, done);
        return Completion(Some(failure), completed != 0, results[..]);
    }
  }

  /** Nothing has changed but for leases that came and went. */
  predicate OnlySpentLeases(o: Graph, g: Graph) {
    g == o.(leases := g.leases) && forall l :: l in g.leases && l !in o.leases ==> g.leases[l].released
  }

  /** Lets go of the leases and of the writer slot. */
  method LetGo(e: SharedEnvironment, prepared: PreparedBatch, token: Id, ghost o: Graph, ghost next: Id, ghost w: Id)
    requires Inv(e.graph) && Inv(o) && w in o.wrappers && o.activeWriter == NoWriter && !prepared.released
    requires JustPrepared(ReserveWriter(o, token), e.graph, prepared.leases, next, w)
    modifies e
    ensures Inv(e.graph) && OnlySpentLeases(o, e.graph)
  {
    hide Inv, Spent, Unused, Holding, JustPrepared, OpenRecords, Progress, MayReleaseBatch;
    JustPreparedMayRelease(ReserveWriter(o, token), e.graph, prepared.leases, next, w);
    var _ := ReleasePreparedBatch(e, prepared, ReserveWriter(o, token), next, w);
    AllReleased(ReserveWriter(o, token), e.graph, next);
    StillUsed(o, ReleaseWriter(e.graph, token), w);
    ReleaseInternalWriter(e, token);
  }

  /** A batch that cannot get the writer slot gives its leases back. */
  method GiveBack(e: SharedEnvironment, prepared: PreparedBatch, ghost o: Graph, ghost next: Id, ghost w: Id)
    requires Inv(e.graph) && !prepared.released && JustPrepared(o, e.graph, prepared.leases, next, w)
    modifies e
    ensures Inv(e.graph) && OnlySpentLeases(o, e.graph)
  {
    hide Inv, Spent, Holding, JustPrepared, OpenRecords, Progress, MayReleaseBatch;
    JustPreparedMayRelease(o, e.graph, prepared.leases, next, w);
    var _ := ReleasePreparedBatch(e, prepared, o, next, w);
    AllReleased(o, e.graph, next);
  }

  /** The environment while the executor runs: the slot reserved, every handle of the request open. */
  ghost predicate RunsIn(g: Graph, operations: seq<Operation>, token: Id) {
    Inv(g) && Tracked(g) && g.activeWriter == InternalWriter(token) && HandlesOpen(g, operations)
  }

  /**
   None when the call throws: the batch is invalid, or another writer holds the
   slot.  Otherwise the callback gets no error exactly when LMDB lets the batch
   through, which runs in environment `running`.  Either way no lease and no
   reservation outlives the call.
   */
  method BatchWrite(e: SharedEnvironment, w: Id, api: NativeApi, inputs: seq<BatchInput>, keyThrows: bool, first: Id,
                    token: Id)
    returns (r: Option<Completion>, ghost running: Graph)
    requires Inv(e.graph) && (forall l :: l in e.graph.leases ==> l < first) && api.txn == None
    modifies e, api
    ensures Inv(e.graph) && OnlySpentLeases(old(e.graph), e.graph) && api.txn == None
    ensures r.Some? <==> BatchValid(old(e.graph), w, inputs, keyThrows)
                         && w in old(e.graph).wrappers && !old(e.graph).poisoned
                         && old(e.graph).activeWriter == NoWriter
    ensures r.None? ==> api.db == old(api.db) && api.commits == old(api.commits)
    ensures r.Some? ==>
      && Completes(r.value, Normalised(old(e.graph), inputs), old(api.db), api.db, api.script, old(api.calls))
      && (Tracked(old(e.graph)) ==> RunsIn(running, Normalised(old(e.graph), inputs), token))
  {
    hide Inv, BatchValid, Named, Holding, Raised, Completes, JustPrepared, OpenRecords, Progress, Owners, RunsIn;
    running := e.graph;
    if w !in e.graph.wrappers {
      return None, running;
    }
    ghost var o := e.graph;
    var prepared, next := PrepareBatchSnapshot(e, w, inputs, keyThrows, first);
    if prepared.None? {
      return None, running;
    }
    HeldOf(o, e.graph, prepared.value.leases, next);
    NothingElse(o, e.graph, prepared.value.leases, next, w);
    var reserved := ReserveInternalWriter(e, w, token);
    if !reserved {
      GiveBack(e, prepared.value, o, next, w);
      return None, running;
    }
    Reserved(o, w, token);
    HeldUnder(o, e.graph, prepared.value.leases, next, w, token);
    running := e.graph;
    if Tracked(o) { RunningHandles(o, running, prepared.value.leases, next, w, inputs, keyThrows, token); }
    var completion := RunHere(api, prepared.value.operations);
    LetGo(e, prepared.value, token, o, next, w);
    return Some(completion), running;
  }

  lemma RunningHandles(o: Graph, g: Graph, held: map<Id, Id>, next: Id, w: Id, inputs: seq<BatchInput>, keyThrows: bool,
                       token: Id)
    requires Inv(g) && w in g.wrappers && Tracked(o) && g.activeWriter == InternalWriter(token)
    requires Holding(o, g.(activeWriter := o.activeWriter), held, next)
    requires BatchValid(o, w, inputs, keyThrows) && held.Keys == Named(o, Owners(inputs))
    ensures RunsIn(g, Normalised(o, inputs), token)
  {
    hide Inv, Owners, Throws, HandlesOpen;
    ReferencedIsLive(g);
    forall b | b in Owners(inputs) ensures LeasedWrapper(o, b, held.Keys) { assert Leasable(o, b); }
    LeasedHandlesOpen(o, g, held, inputs);
  }

  lemma HeldOf(o: Graph, g: Graph, held: map<Id, Id>, next: Id)
    requires Holding(o, g, held, next)
    ensures forall r :: r in held ==> held[r] in g.leases
    ensures g.wrappers == o.wrappers && g.activeWriter == o.activeWriter && g.poisoned == o.poisoned
  {}

  lemma NothingElse(o: Graph, g: Graph, held: map<Id, Id>, next: Id, w: Id)
    requires Inv(o) && w in o.wrappers && OpenRecords(o, held.Keys) && Holding(o, g, held, next)
    ensures JustPrepared(o, g, held, next, w)
  {
    hide Inv, Holding, OpenRecords;
  }

  lemma Reserved(o: Graph, w: Id, token: Id)
    requires Inv(o) && w in o.wrappers && o.activeWriter == NoWriter
    ensures Inv(ReserveWriter(o, token))
  {
    hide Inv, InvMid, InvHeap, InvLife;
    MidOf(o);
    ReferencedIsLive(o);
    WriterSlotKeeps(o, token);
    Kept(o, ReserveWriter(o, token));
  }

  /** The reservation changes neither records nor leases. */
  lemma HeldUnder(o: Graph, g: Graph, held: map<Id, Id>, next: Id, w: Id, token: Id)
    requires Inv(ReserveWriter(o, token)) && w in o.wrappers && OpenRecords(o, held.Keys)
    requires Holding(o, g.(activeWriter := o.activeWriter), held, next) && g.activeWriter == InternalWriter(token)
    ensures JustPrepared(ReserveWriter(o, token), g, held, next, w)
  {
    hide Inv, LeaseTable, Raised;
  }

  lemma StillUsed(o: Graph, g: Graph, w: Id)
    requires Inv(o) && w in o.wrappers && g.refCount == o.refCount
    ensures !Unused(g)
  {
    hide Inv;
    ReferencedIsLive(o);
  }

  /** After the release only spent leases are new, and nothing else has changed. */
  lemma AllReleased(o: Graph, g: Graph, next: Id)
    requires Holding(o, g, map[], next)
    ensures g == o.(leases := g.leases)
    ensures forall l :: l in g.leases && l !in o.leases ==> g.leases[l].released
  {
    assert Raised(o.records, {}) == o.records;
    var none: map<Id, Id> := map[];
    assert none.Keys == {};
  }

  lemma SingleRun(db: Db, op: Operation, script: nat -> Fault, calls: nat)
    requires forall n :: script(n) == NoFault
    ensures var o := RunScript(db, [op], script, calls);
      Attempt(db, op, OpFaults(NoFault, NoFault)) == Some((o.db, o.results[0])) && !o.failed && |o.results| == 1
  {
    hide Attempt, RunScript, CallsOf;
    RunScriptStep(db, [op], script, calls);
    assert FaultsAt(op, script, calls) == OpFaults(NoFault, NoFault);
    NothingThrows(db, op);
    assert [op][1..] == [];
    var next := Attempt(db, op, OpFaults(NoFault, NoFault)).value;
    RunScriptNone(next.0, [op][1..], script, calls + CallsOf(db, op, OpFaults(NoFault, NoFault)));
  }

  lemma NothingThrows(db: Db, op: Operation)
    ensures Attempt(db, op, OpFaults(NoFault, NoFault)).Some?
  {}

  /**
   A batch of one operation when LMDB fails nothing, from its input: without a
   condition, or when the record at the condition's key is as asked, the value is
   written or the key deleted; otherwise the database is as it was.
   */
  lemma OneOperation(g: Graph, x: BatchInput, c: Completion, before: Db, after: Db, script: nat -> Fault, calls: nat)
    requires x.db in g.dbiBindings && g.dbiBindings[x.db].record in g.records
    requires x.conditionDb.Some? ==>
      x.conditionDb.value in g.dbiBindings && g.dbiBindings[x.conditionDb.value].record in g.records
    requires Completes(c, Normalised(g, [x]), before, after, script, calls) && forall n :: script(n) == NoFault
    ensures c.error == None && c.progress && |c.results| == 1
    ensures
      var k := (g.records[g.dbiBindings[x.db].record].handle, x.key);
      var met :=
        match x.conditionDb
        case None => true
        case Some(b) =>
          var at := (g.records[g.dbiBindings[b].record].handle, match x.ifKey case Some(key) => key case None => x.key);
          match x.ifValue
          case None => at !in before
          case Some(v) =>
            at in before && |before[at]| >= |v| && (x.exact ==> |before[at]| == |v|)
            && forall i :: 0 <= i < |v| ==> before[at][i] == v[i];
      && (met && x.value.Some? ==> after == before[k := x.value.value] && c.results == [Some(Success)])
      && (met && x.value == None && k in before ==> after == before - {k} && c.results == [Some(Success)])
      && (met && x.value == None && k !in before ==> after == before && c.results == [Some(NotFound)])
      && (!met ==> after == before && c.results == [Some(ConditionNotMet)])
  {
    hide RunScript, CallsMade, Attempt, ConditionResult;
    var op := NormalOperation(g, x);
    assert Normalised(g, [x]) == [op];
    NormalisedMeaning(g, [x]);
    SingleRun(before, op, script, calls + 1);
    OperationMeaning(before, op, OpFaults(NoFault, NoFault));
    if op.condition.Some? { ConditionMeaning(before, op.condition.value, NoFault); }
  }
}
