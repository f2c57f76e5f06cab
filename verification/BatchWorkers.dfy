/** The Worker host: one start message, then jobs run to their answer one by one. */
module BatchWorkers {
  import opened Common
  import opened BatchExecutor
  import opened BatchProtocol
  import opened BatchSystem
  import opened BatchInvariant

  datatype Initialization = NotRequested | Requested | Done

  /** What a Worker sends about a job it does not die of. */
  function JobReplies(id: Id, db: Db, operations: seq<Operation>, script: nat -> Fault, calls: nat): seq<Reply> {
    if script(calls) != NoFault then [Failed(id)]
    else
      ProgressFrom(id, RunScript(db, operations, script, calls + 1).results, 0)
      + [if Accepts(db, operations, script, calls) then Complete(id) else Failed(id)]
  }

  /** The database such a job leaves. */
  function JobDb(db: Db, operations: seq<Operation>, script: nat -> Fault, calls: nat): Db {
    if Accepts(db, operations, script, calls) then RunScript(db, operations, script, calls + 1).db else db
  }

  class WorkerScope {
    const api: NativeApi
    var initialization: Initialization
    var crashed: bool
    var posted: seq<Reply>

    constructor (api: NativeApi)
      ensures this.api == api && initialization == NotRequested && !crashed && posted == []
    {
      this.api, initialization, crashed, posted := api, NotRequested, false, [];
    }

    /** An error nobody handles ends the isolate. */
    method ReportUnhandled()
      modifies this`crashed
      ensures crashed
    {
      crashed := true;
    }

    method HandleStart()
      modifies this`initialization, this`crashed
      ensures old(initialization) == NotRequested ==> initialization == Requested && crashed == old(crashed)
      ensures old(initialization) != NotRequested ==> initialization == old(initialization) && crashed
    {
      if initialization != NotRequested {
        ReportUnhandled();
        return;
      }
      initialization := Requested;
    }

    /** The end of the asynchronous initialization. */
    method FinishInitialize(ok: bool)
      requires initialization == Requested
      modifies this`initialization, this`crashed, this`posted
      ensures if ok then initialization == Done && posted == old(posted) + [Ready] && crashed == old(crashed)
              else initialization == Requested && posted == old(posted) && crashed
    {
      if ok {
        initialization := Done;
        posted := posted + [Ready];
      } else {
        ReportUnhandled();
      }
    }

    /**
     Runs one job: a progress message per result and then the answer, which says
     `complete` exactly when LMDB let the batch through.  The deliberate hard
     failure answers nothing and leaves its transaction open.
     */
    method RunJob(id: Id, operations: seq<Operation>, terminateAfterBegin: bool)
      requires api.txn == None
      modifies this, api
      ensures initialization == old(initialization)
      ensures initialization != Done ==> crashed && posted == old(posted) && api.db == old(api.db) && api.txn == None
      ensures initialization == Done && api.script(old(api.calls)) == NoFault && terminateAfterBegin ==>
        crashed && posted == old(posted) && api.txn.Some? && api.db == old(api.db)
      ensures initialization == Done && (terminateAfterBegin ==> api.script(old(api.calls)) != NoFault) ==>
        && crashed == old(crashed) && api.txn == None
        && posted == old(posted) + JobReplies(id, old(api.db), operations, api.script, old(api.calls))
        && api.db == JobDb(old(api.db), operations, api.script, old(api.calls))
    {
      hide RunScript, ProgressFrom, Numbered, CallsMade;
      if initialization != Done {
        ReportUnhandled();
        return;
      }
      var results := new Option<BatchResult>[|operations|](_ => None);
      var hooks := new Hooks(terminateAfterBegin);
      var r := ExecuteBatch(api, operations, results, hooks);
      NumberedNone();
      ghost var o := RunScript(old(api.db), operations, api.script, old(api.calls) + 1);
      ghost var done := if api.script(old(api.calls)) != NoFault || terminateAfterBegin then [] else o.results;
      ReportedFromNone(hooks.reported, done);
      PostProgress(id, hooks.reported, done);
      NoProgress(id);
      match r {
        case Err(HardFailure) => ReportUnhandled();
        case Err(NativeFailure(_)) => posted := posted + [Failed(id)];
        case Ok(_) => posted := posted + [Complete(id)];
      }
    }

    /** The result hook: one progress message per completed result, in order. */
    method PostProgress(id: Id, reported: seq<(nat, BatchResult)>, ghost results: seq<BatchResult>)
      requires reported == Numbered(results)
      modifies this`posted
      ensures posted == old(posted) + ProgressFrom(id, results, 0)
    {
      assert ProgressFrom(id, results[..0], 0) == [];
      for i := 0 to |reported|
        invariant posted == old(posted) + ProgressFrom(id, results[..i], 0)
      {
        assert ProgressFrom(id, results[..i + 1], 0)
            == ProgressFrom(id, results[..i], 0) + [Progress(id, [(i, Code(results[i]))])];
        posted := posted + [Progress(id, [(reported[i].0, Code(reported[i].1))])];
      }
      assert results[..|reported|] == results;
    }
  }

  lemma NoProgress(id: Id)
    ensures ProgressFrom(id, [], 0) == []
  {}

  /** What the hook collected is the numbered list of the results the fold produced. */
  lemma ReportedFromNone(reported: seq<(nat, BatchResult)>, results: seq<BatchResult>)
    requires reported == [] + Numbered(results)
    ensures reported == Numbered(results)
  {}
}
