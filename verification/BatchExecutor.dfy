/**
 One batch in one write transaction.  `Run` is the fold of the operations over a
 map database; `ExecuteBatch` is the loop around the native calls.  Which native
 calls LMDB rejects, and how, is an arbitrary script.
 */
module BatchExecutor {
  import opened Common

  type Bytes = seq<bv8>
  type Db = map<(nat, Bytes), Bytes>

  datatype BatchResult = Success | ConditionNotMet | NotFound | BadValsize

  datatype Condition = Condition(dbi: nat, key: Bytes, value: Option<Bytes>, exact: bool)
  datatype Operation = Operation(dbi: nat, key: Bytes, value: Option<Bytes>, condition: Option<Condition>)

  /** How LMDB treats one call: as documented, as a size error, or with another error. */
  datatype Fault = NoFault | SizeError | OtherError(code: int)
  datatype OpFaults = OpFaults(get: Fault, update: Fault)

  // ------------------------------------------------------------------- fold

  function Lookup(db: Db, dbi: nat, key: Bytes): Option<Bytes> {
    if (dbi, key) in db then Some(db[(dbi, key)]) else None
  }

  /** A null condition wants an absent key; a value wants itself, or itself as a prefix. */
  predicate Meets(actual: Option<Bytes>, c: Condition) {
    match c.value
    case None => actual == None
    case Some(v) => actual.Some? && if c.exact then actual.value == v else v <= actual.value
  }

  /** The result of a condition; none when the read throws. */
  function ConditionResult(db: Db, c: Condition, fault: Fault): Option<BatchResult> {
    match fault
    case OtherError(_) => None
    case SizeError => Some(BadValsize)
    case NoFault => Some(if Meets(Lookup(db, c.dbi, c.key), c) then Success else ConditionNotMet)
  }

  /** The update itself; none when it throws something that is not a result. */
  function UpdateResult(db: Db, op: Operation, fault: Fault): Option<(Db, BatchResult)> {
    match fault
    case OtherError(_) => None
    case SizeError => Some((db, BadValsize))
    case NoFault =>
      match op.value
      case Some(v) => Some((db[(op.dbi, op.key) := v], Success))
      case None => if (op.dbi, op.key) in db then Some((db - {(op.dbi, op.key)}, Success)) else Some((db, NotFound))
  }

  /** One operation: its update, unless its condition says otherwise. */
  function Attempt(db: Db, op: Operation, f: OpFaults): Option<(Db, BatchResult)> {
    var gate := if op.condition.None? then Some(Success) else ConditionResult(db, op.condition.value, f.get);
    if gate == None then None
    else if gate != Some(Success) then Some((db, gate.value))
    else UpdateResult(db, op, f.update)
  }

  /**
   What a condition asks, in terms of the database: without a value the key is absent;
   with one it is present, at least as long, byte for byte the same as far as the value
   goes, and no longer when the match is to be exact.
   */
  lemma ConditionMeaning(db: Db, c: Condition, fault: Fault)
    ensures fault == NoFault ==>
      (ConditionResult(db, c, fault) == Some(Success) <==>
         if c.value == None then (c.dbi, c.key) !in db
         else
           && (c.dbi, c.key) in db && |db[(c.dbi, c.key)]| >= |c.value.value|
           && (c.exact ==> |db[(c.dbi, c.key)]| == |c.value.value|)
           && forall i :: 0 <= i < |c.value.value| ==> db[(c.dbi, c.key)][i] == c.value.value[i])
    ensures fault == NoFault ==> ConditionResult(db, c, fault) in {Some(Success), Some(ConditionNotMet)}
    ensures fault == SizeError ==> ConditionResult(db, c, fault) == Some(BadValsize)
    ensures fault.OtherError? ==> ConditionResult(db, c, fault) == None
  {
    if c.value.Some? && (c.dbi, c.key) in db {
      var actual, v := db[(c.dbi, c.key)], c.value.value;
      if |actual| >= |v| && forall i :: 0 <= i < |v| ==> actual[i] == v[i] {
        assert v == actual[..|v|];
        assert c.exact && |actual| == |v| ==> actual == v;
      }
    }
  }

  /**
   The effect and the result code of an operation whose condition, if any, is met; every
   other result changes nothing.
   */
  lemma OperationMeaning(db: Db, op: Operation, f: OpFaults)
    ensures var gate := if op.condition == None then Some(Success) else ConditionResult(db, op.condition.value, f.get);
      var k := (op.dbi, op.key);
      && (gate == None ==> Attempt(db, op, f) == None)
      && (gate.Some? && gate != Some(Success) ==> Attempt(db, op, f) == Some((db, gate.value)))
      && (gate == Some(Success) ==>
            && (f.update == NoFault && op.value.Some? ==>
                  Attempt(db, op, f) == Some((db[k := op.value.value], Success)))
            && (f.update == NoFault && op.value == None && k in db ==> Attempt(db, op, f) == Some((db - {k}, Success)))
            && (f.update == NoFault && op.value == None && k !in db ==> Attempt(db, op, f) == Some((db, NotFound)))
            && (f.update == SizeError ==> Attempt(db, op, f) == Some((db, BadValsize)))
            && (f.update.OtherError? ==> Attempt(db, op, f) == None))
  {
    hide ConditionResult;
  }

  datatype Outcome = Outcome(results: seq<BatchResult>, db: Db, failed: bool)

  /** The results up to the first operation that throws, and the database they leave. */
  function Run(db: Db, ops: seq<Operation>, faults: seq<OpFaults>): (o: Outcome)
    requires |faults| == |ops|
    ensures |o.results| <= |ops| && (o.failed <==> |o.results| < |ops|)
    decreases |ops|
  {
    if ops == [] then Outcome([], db, false)
    else
      match Attempt(db, ops[0], faults[0])
      case None => Outcome([], db, true)
      case Some((next, r)) =>
        var o := Run(next, ops[1..], faults[1..]);
        Outcome([r] + o.results, o.db, o.failed)
  }

  /** Running two batches in a row is running their concatenation, unless the first one throws. */
  lemma {:induction false} RunConcat(db: Db, a: seq<Operation>, fa: seq<OpFaults>, b: seq<Operation>, fb: seq<OpFaults>)
    requires |fa| == |a| && |fb| == |b| && !Run(db, a, fa).failed
    ensures var first := Run(db, a, fa);
      var second := Run(first.db, b, fb);
      Run(db, a + b, fa + fb) == Outcome(first.results + second.results, second.db, second.failed)
    decreases |a|
  {
    if a == [] {
      assert a + b == b && fa + fb == fb;
    } else {
      assert (a + b)[1..] == a[1..] + b && (fa + fb)[1..] == fa[1..] + fb;
      var next := Attempt(db, a[0], fa[0]).value;
      RunConcat(next.0, a[1..], fa[1..], b, fb);
      var rest, second := Run(next.0, a[1..], fa[1..]), Run(Run(db, a, fa).db, b, fb);
      assert [next.1] + (rest.results + second.results) == ([next.1] + rest.results) + second.results;
    }
  }

  // ------------------------------------ what a batch does, key by key

  predicate Touches(op: Operation, k: (nat, Bytes)) { (op.dbi, op.key) == k }

  /** After the first operation comes the run of the others. */
  lemma RunTail(db: Db, ops: seq<Operation>, faults: seq<OpFaults>)
    requires |faults| == |ops| && ops != [] && Run(db, ops, faults).results != []
    ensures Attempt(db, ops[0], faults[0]).Some?
    ensures var next := Attempt(db, ops[0], faults[0]).value;
      var o, rest := Run(db, ops, faults), Run(next.0, ops[1..], faults[1..]);
      o.db == rest.db && o.results[0] == next.1 && o.results[1..] == rest.results
  {
    hide Attempt;
  }

  /** An operation changes its own key only, and that only with success. */
  lemma AttemptEffect(db: Db, op: Operation, f: OpFaults, k: (nat, Bytes))
    requires Attempt(db, op, f).Some?
    ensures var (next, r) := Attempt(db, op, f).value;
      Lookup(next, k.0, k.1) == if Touches(op, k) && r == Success then op.value else Lookup(db, k.0, k.1)
  {}

  /** Operation `i` is the last one on `k` that took effect. */
  predicate LastOn(ops: seq<Operation>, results: seq<BatchResult>, k: (nat, Bytes), i: nat) {
    && |results| <= |ops| && i < |results| && results[i] == Success && Touches(ops[i], k)
    && NoneOn(ops[i + 1..], results[i + 1..], k)
  }

  predicate NoneOn(ops: seq<Operation>, results: seq<BatchResult>, k: (nat, Bytes)) {
    |results| <= |ops| && forall j :: 0 <= j < |results| && Touches(ops[j], k) ==> results[j] != Success
  }

  /** The last operation on `k` that took effect decides its value. */
  lemma {:induction false} LastWriterWins(db: Db, ops: seq<Operation>, faults: seq<OpFaults>, k: (nat, Bytes), i: nat)
    requires |faults| == |ops| && LastOn(ops, Run(db, ops, faults).results, k, i)
    ensures Lookup(Run(db, ops, faults).db, k.0, k.1) == ops[i].value
    decreases |ops|
  {
    hide Attempt, Lookup;
    RunTail(db, ops, faults);
    var next := Attempt(db, ops[0], faults[0]).value;
    var results, rest := Run(db, ops, faults).results, Run(next.0, ops[1..], faults[1..]).results;
    if i == 0 {
      assert results[1..] == rest;
      AttemptEffect(db, ops[0], faults[0], k);
      Untouched(next.0, ops[1..], faults[1..], k);
    } else {
      assert ops[i + 1..] == ops[1..][i..] && results[i + 1..] == rest[i..];
      LastWriterWins(next.0, ops[1..], faults[1..], k, i - 1);
    }
  }

  /** A key no operation took effect on keeps its value. */
  lemma {:induction false} Untouched(db: Db, ops: seq<Operation>, faults: seq<OpFaults>, k: (nat, Bytes))
    requires |faults| == |ops| && NoneOn(ops, Run(db, ops, faults).results, k)
    ensures Lookup(Run(db, ops, faults).db, k.0, k.1) == Lookup(db, k.0, k.1)
    decreases |ops|
  {
    hide Lookup;
    if Run(db, ops, faults).results != [] {
      RunTail(db, ops, faults);
      AttemptEffect(db, ops[0], faults[0], k);
      Untouched(Attempt(db, ops[0], faults[0]).value.0, ops[1..], faults[1..], k);
    }
  }

  // ------------------------------------------------------------ native calls

  datatype NativeError = ErrorBadValsize | ErrorNotFound | ErrorOther(code: int)

  /** The native calls of one isolate; the `calls`-th one meets the fate `script(calls)`. */
  class NativeApi {
    const script: nat -> Fault
    var calls: nat
    var db: Db          // what has been committed
    var txn: Option<Db> // the open write transaction's view
    var commits: nat    // commit attempts
    var aborts: nat

    constructor (script: nat -> Fault, db: Db)
      ensures this.script == script && this.db == db && txn == None && calls == 0 && commits == 0 && aborts == 0
    {
      this.script, this.db, txn, calls, commits, aborts := script, db, None, 0, 0, 0;
    }

    method TxnBegin() returns (r: Result<(), NativeError>)
      requires txn == None
      modifies this`calls, this`txn
      ensures calls == old(calls) + 1 && (r.Ok? <==> script(old(calls)) == NoFault)
      ensures txn == if r.Ok? then Some(db) else None
    {
      var fault := script(calls);
      calls := calls + 1;
      match fault {
        case NoFault => txn, r := Some(db), Ok(());
        case SizeError => r := Err(ErrorBadValsize);
        case OtherError(code) => r := Err(ErrorOther(code));
      }
    }

    method TxnCommit() returns (r: Result<(), NativeError>)
      requires txn.Some?
      modifies this
      ensures calls == old(calls) + 1 && commits == old(commits) + 1 && aborts == old(aborts) && txn == None
      ensures (r.Ok? <==> script(old(calls)) == NoFault) && db == if r.Ok? then old(txn).value else old(db)
    {
      var fault := script(calls);
      calls, commits := calls + 1, commits + 1;
      match fault {
        case NoFault => db, r := txn.value, Ok(());
        case SizeError => r := Err(ErrorBadValsize);
        case OtherError(code) => r := Err(ErrorOther(code));
      }
      txn := None;
    }

    method TxnAbort()
      requires txn.Some?
      modifies this`txn, this`aborts
      ensures txn == None && aborts == old(aborts) + 1
    {
      txn, aborts := None, aborts + 1;
    }

    method Get(dbi: nat, key: Bytes) returns (r: Result<Option<Bytes>, NativeError>)
      requires txn.Some?
      modifies this`calls
      ensures calls == old(calls) + 1
      ensures r == match script(old(calls))
                   case NoFault => Ok(Lookup(txn.value, dbi, key))
                   case SizeError => Err(ErrorBadValsize)
                   case OtherError(code) => Err(ErrorOther(code))
    {
      var fault := script(calls);
      calls := calls + 1;
      match fault {
        case NoFault => r := Ok(Lookup(txn.value, dbi, key));
        case SizeError => r := Err(ErrorBadValsize);
        case OtherError(code) => r := Err(ErrorOther(code));
      }
    }

    method Put(dbi: nat, key: Bytes, value: Bytes) returns (r: Result<(), NativeError>)
      requires txn.Some?
      modifies this`calls, this`txn
      ensures calls == old(calls) + 1
      ensures txn == if r.Ok? then Some(old(txn).value[(dbi, key) := value]) else old(txn)
      ensures r == match script(old(calls))
                   case NoFault => Ok(())
                   case SizeError => Err(ErrorBadValsize)
                   case OtherError(code) => Err(ErrorOther(code))
    {
      var fault := script(calls);
      calls := calls + 1;
      match fault {
        case NoFault => txn, r := Some(txn.value[(dbi, key) := value]), Ok(());
        case SizeError => r := Err(ErrorBadValsize);
        case OtherError(code) => r := Err(ErrorOther(code));
      }
    }

    method Del(dbi: nat, key: Bytes) returns (r: Result<(), NativeError>)
      requires txn.Some?
      modifies this`calls, this`txn
      ensures calls == old(calls) + 1
      ensures txn == if r.Ok? then Some(old(txn).value - {(dbi, key)}) else old(txn)
      ensures r == match script(old(calls))
                   case NoFault => if (dbi, key) in old(txn).value then Ok(()) else Err(ErrorNotFound)
                   case SizeError => Err(ErrorBadValsize)
                   case OtherError(code) => Err(ErrorOther(code))
    {
      var fault := script(calls);
      calls := calls + 1;
      match fault {
        case NoFault =>
          if (dbi, key) in txn.value {
            txn, r := Some(txn.value - {(dbi, key)}), Ok(());
          } else {
            r := Err(ErrorNotFound);
          }
        case SizeError => r := Err(ErrorBadValsize);
        case OtherError(code) => r := Err(ErrorOther(code));
      }
    }
  }

  // ----------------------------------------------------------------- the loop

  /** The fates of one operation's calls when the next call is number `calls`. */
  function FaultsAt(op: Operation, script: nat -> Fault, calls: nat): OpFaults {
    OpFaults(script(calls), script(if op.condition.Some? then calls + 1 else calls))
  }

  /** How many native calls an operation makes. */
  function CallsOf(db: Db, op: Operation, f: OpFaults): nat {
    if op.condition.None? then 1
    else if ConditionResult(db, op.condition.value, f.get) == Some(Success) then 2 else 1
  }

  function FaultsOf(db: Db, ops: seq<Operation>, script: nat -> Fault, calls: nat): (fs: seq<OpFaults>)
    ensures |fs| == |ops|
    decreases |ops|
  {
    if ops == [] then []
    else
      var f := FaultsAt(ops[0], script, calls);
      var attempt := Attempt(db, ops[0], f);
      var next := if attempt.Some? then attempt.value.0 else db;
      [f] + FaultsOf(next, ops[1..], script, calls + CallsOf(db, ops[0], f))
  }

  function RunScript(db: Db, ops: seq<Operation>, script: nat -> Fault, calls: nat): (o: Outcome)
    ensures |o.results| <= |ops| && (o.failed <==> |o.results| < |ops|)
  {
    Run(db, ops, FaultsOf(db, ops, script, calls))
  }

  /** The native calls of the operations that do not throw, and of none after one that does. */
  function CallsMade(db: Db, ops: seq<Operation>, script: nat -> Fault, calls: nat): nat
    decreases |ops|
  {
    if ops == [] then 0
    else
      var f := FaultsAt(ops[0], script, calls);
      match Attempt(db, ops[0], f)
      case None => 0
      case Some((next, _)) =>
        CallsOf(db, ops[0], f) + CallsMade(next, ops[1..], script, calls + CallsOf(db, ops[0], f))
  }

  lemma CallsMadeStep(db: Db, ops: seq<Operation>, script: nat -> Fault, calls: nat)
    requires ops != []
    ensures var f := FaultsAt(ops[0], script, calls);
      CallsMade(db, ops, script, calls) ==
        match Attempt(db, ops[0], f)
        case None => 0
        case Some((next, _)) =>
          CallsOf(db, ops[0], f) + CallsMade(next, ops[1..], script, calls + CallsOf(db, ops[0], f))
  {}

  lemma CallsMadeNone(db: Db, ops: seq<Operation>, script: nat -> Fault, calls: nat)
    requires ops == []
    ensures CallsMade(db, ops, script, calls) == 0
  {}

  /** LMDB lets the batch through: the begin, every operation, and the commit after them. */
  predicate Accepts(db: Db, ops: seq<Operation>, script: nat -> Fault, calls: nat) {
    && script(calls) == NoFault
    && !RunScript(db, ops, script, calls + 1).failed
    && script(calls + 1 + CallsMade(db, ops, script, calls + 1)) == NoFault
  }

  lemma RunScriptStep(db: Db, ops: seq<Operation>, script: nat -> Fault, calls: nat)
    requires ops != []
    ensures var f := FaultsAt(ops[0], script, calls);
      RunScript(db, ops, script, calls) ==
        match Attempt(db, ops[0], f)
        case None => Outcome([], db, true)
        case Some((next, r)) =>
          var o := RunScript(next, ops[1..], script, calls + CallsOf(db, ops[0], f));
          Outcome([r] + o.results, o.db, o.failed)
  {}

  // ------------------------------------------------ a script for given fates

  /** The fates that matter: an operation whose condition decides makes no update call. */
  function OwnFates(db: Db, op: Operation, f: OpFaults): seq<Fault> {
    if op.condition.None? then [f.update]
    else if ConditionResult(db, op.condition.value, f.get) == Some(Success) then [f.get, f.update]
    else [f.get]
  }

  /** The fates of the native calls of a whole run, call by call. */
  function Fates(db: Db, ops: seq<Operation>, faults: seq<OpFaults>): seq<Fault>
    requires |faults| == |ops|
    decreases |ops|
  {
    if ops == [] then []
    else
      match Attempt(db, ops[0], faults[0])
      case None => OwnFates(db, ops[0], faults[0])
      case Some((next, _)) => OwnFates(db, ops[0], faults[0]) + Fates(next, ops[1..], faults[1..])
  }

  /** From call number `calls` on, the script deals out `fates`. */
  predicate Deals(script: nat -> Fault, calls: nat, fates: seq<Fault>) {
    forall k :: 0 <= k < |fates| ==> script(calls + k) == fates[k]
  }

  lemma DealsOwn(db: Db, op: Operation, f: OpFaults, script: nat -> Fault, calls: nat)
    requires Deals(script, calls, OwnFates(db, op, f))
    ensures var g := FaultsAt(op, script, calls);
      && Attempt(db, op, g) == Attempt(db, op, f)
      && CallsOf(db, op, g) == |OwnFates(db, op, f)|
  {
    assert OwnFates(db, op, f)[0] == script(calls + 0);
    if |OwnFates(db, op, f)| == 2 { assert OwnFates(db, op, f)[1] == script(calls + 1); }
  }

  lemma DealsBoth(script: nat -> Fault, calls: nat, a: seq<Fault>, b: seq<Fault>)
    requires Deals(script, calls, a + b)
    ensures Deals(script, calls, a) && Deals(script, calls + |a|, b)
  {
    forall k | 0 <= k < |a| ensures script(calls + k) == a[k] { assert (a + b)[k] == a[k]; }
    forall k | 0 <= k < |b| ensures script(calls + |a| + k) == b[k] {
      assert (a + b)[|a| + k] == b[k];
      assert script(calls + (|a| + k)) == b[k];
    }
  }

  /** A script that deals out the fates of a run makes the loop run it. */
  lemma {:induction false} ReplayRuns(db: Db, ops: seq<Operation>, faults: seq<OpFaults>, script: nat -> Fault,
                                      calls: nat)
    requires |faults| == |ops| && Deals(script, calls, Fates(db, ops, faults))
    ensures RunScript(db, ops, script, calls) == Run(db, ops, faults)
    ensures !Run(db, ops, faults).failed ==> CallsMade(db, ops, script, calls) == |Fates(db, ops, faults)|
    decreases |ops|
  {
    hide Attempt, CallsOf, OwnFates, Deals, FaultsAt, RunScript;
    if ops == [] {
      RunScriptNone(db, ops, script, calls);
    } else {
      RunScriptStep(db, ops, script, calls);
      if Attempt(db, ops[0], faults[0]) == None {
        DealsOwn(db, ops[0], faults[0], script, calls);
      } else {
        var next := Attempt(db, ops[0], faults[0]).value.0;
        DealsBoth(script, calls, OwnFates(db, ops[0], faults[0]), Fates(next, ops[1..], faults[1..]));
        DealsOwn(db, ops[0], faults[0], script, calls);
        ReplayRuns(next, ops[1..], faults[1..], script, calls + |OwnFates(db, ops[0], faults[0])|);
      }
    }
  }

  /** The begin succeeds, then come the fates of the run, then everything succeeds. */
  function ScriptFor(db: Db, ops: seq<Operation>, faults: seq<OpFaults>): nat -> Fault
    requires |faults| == |ops|
  {
    var fates := Fates(db, ops, faults);
    (n: nat) => if 1 <= n <= |fates| then fates[n - 1] else NoFault
  }

  /** Any run that does not throw is one LMDB lets through, under some script. */
  lemma ScriptAccepts(db: Db, ops: seq<Operation>, faults: seq<OpFaults>)
    requires |faults| == |ops| && !Run(db, ops, faults).failed
    ensures var script := ScriptFor(db, ops, faults);
      Accepts(db, ops, script, 0) && RunScript(db, ops, script, 1) == Run(db, ops, faults)
  {
    hide Run, Fates, RunScript, CallsMade;
    var script, fates := ScriptFor(db, ops, faults), Fates(db, ops, faults);
    forall k | 0 <= k < |fates| ensures script(1 + k) == fates[k] {}
    ReplayRuns(db, ops, faults, script, 1);
  }

  /** Replays a run on a database of its own, with one commit. */
  method Replay(db: Db, ops: seq<Operation>, faults: seq<OpFaults>)
    returns (api: NativeApi, results: array<Option<BatchResult>>, r: Result<nat, BatchError>)
    requires |faults| == |ops| && !Run(db, ops, faults).failed
    ensures fresh(api) && api.script == ScriptFor(db, ops, faults) && r == Ok(|ops|) && api.txn == None
    ensures api.db == Run(db, ops, faults).db && api.commits == 1 && api.aborts == 0
    ensures Filled(results[..], Run(db, ops, faults).results) && results.Length == |ops|
  {
    hide Run, RunScript, Accepts, ScriptFor;
    ScriptAccepts(db, ops, faults);
    api := new NativeApi(ScriptFor(db, ops, faults), db);
    results := new Option<BatchResult>[|ops|](_ => None);
    BeginsWell(db, ops, faults);
    r := ExecuteBatch(api, ops, results, null);
  }

  lemma BeginsWell(db: Db, ops: seq<Operation>, faults: seq<OpFaults>)
    requires |faults| == |ops|
    ensures ScriptFor(db, ops, faults)(0) == NoFault
  {}

  method EvaluateCondition(api: NativeApi, c: Condition) returns (r: Result<BatchResult, NativeError>)
    requires api.txn.Some?
    modifies api`calls
    ensures api.calls == old(api.calls) + 1
    ensures var expected := ConditionResult(api.txn.value, c, api.script(old(api.calls)));
      if expected.None? then r.Err? && r.error.ErrorOther? else r == Ok(expected.value)
    ensures api.script(old(api.calls)) == NoFault ==>
      && r in {Ok(Success), Ok(ConditionNotMet)}
      && (r == Ok(Success) <==>
            if c.value == None then (c.dbi, c.key) !in api.txn.value
            else
              && (c.dbi, c.key) in api.txn.value
              && |api.txn.value[(c.dbi, c.key)]| >= |c.value.value|
              && (c.exact ==> |api.txn.value[(c.dbi, c.key)]| == |c.value.value|)
              && forall i :: 0 <= i < |c.value.value| ==> api.txn.value[(c.dbi, c.key)][i] == c.value.value[i])
    ensures api.script(old(api.calls)) == SizeError ==> r == Ok(BadValsize)
    ensures api.script(old(api.calls)).OtherError? ==> r.Err?
  {
    ConditionMeaning(api.txn.value, c, api.script(api.calls));
    var got := api.Get(c.dbi, c.key);
    if got.Err? {
      return if got.error == ErrorBadValsize then Ok(BadValsize) else Err(got.error);
    }
    var actual := got.value;
    if c.value.None? {
      return Ok(if actual.None? then Success else ConditionNotMet);
    }
    if actual.None? || |actual.value| < |c.value.value| {
      return Ok(ConditionNotMet);
    }
    if c.exact && |actual.value| != |c.value.value| {
      return Ok(ConditionNotMet);
    }
    var index := 0;
    while index < |c.value.value|
      invariant 0 <= index <= |c.value.value|
      invariant actual.value[..index] == c.value.value[..index]
    {
      if actual.value[index] != c.value.value[index] {
        assert !(c.value.value <= actual.value);
        return Ok(ConditionNotMet);
      }
      index := index + 1;
    }
    assert c.value.value == c.value.value[..|c.value.value|];
    assert c.exact ==> actual.value == actual.value[..|actual.value|];
    return Ok(Success);
  }

  datatype BatchError = HardFailure | NativeFailure(error: NativeError)

  /** The hooks of the Worker host: results are reported as they complete. */
  class Hooks {
    const terminateAfterBegin: bool
    var reported: seq<(nat, BatchResult)>

    constructor (terminateAfterBegin: bool)
      ensures this.terminateAfterBegin == terminateAfterBegin && reported == []
    {
      this.terminateAfterBegin, reported := terminateAfterBegin, [];
    }

    method OnResult(index: nat, result: BatchResult)
      modifies this`reported
      ensures reported == old(reported) + [(index, result)]
    {
      reported := reported + [(index, result)];
    }
  }

  function Numbered(results: seq<BatchResult>): seq<(nat, BatchResult)> {
    seq(|results|, i requires 0 <= i < |results| => (i, results[i]))
  }

  /** `results` holds exactly the completed operations. */
  predicate Filled(slots: seq<Option<BatchResult>>, results: seq<BatchResult>) {
    && |results| <= |slots|
    && forall i :: 0 <= i < |slots| ==> slots[i] == if i < |results| then Some(results[i]) else None
  }

  /** One operation of the loop. */
  method ExecuteOperation(api: NativeApi, op: Operation) returns (r: Result<BatchResult, NativeError>)
    requires api.txn.Some?
    modifies api`calls, api`txn
    ensures api.txn.Some?
    ensures var f := FaultsAt(op, api.script, old(api.calls));
      var attempt := Attempt(old(api.txn).value, op, f);
      if attempt.None? then r.Err?
      else r == Ok(attempt.value.1) && api.txn.value == attempt.value.0
           && api.calls == old(api.calls) + CallsOf(old(api.txn).value, op, f)
    ensures op.condition == None ==>
      var db, k, fault := old(api.txn).value, (op.dbi, op.key), api.script(old(api.calls));
      && (fault == NoFault && op.value.Some? ==> r == Ok(Success) && api.txn == Some(db[k := op.value.value]))
      && (fault == NoFault && op.value == None && k in db ==> r == Ok(Success) && api.txn == Some(db - {k}))
      && (fault == NoFault && op.value == None && k !in db ==> r == Ok(NotFound) && api.txn == Some(db))
      && (fault == SizeError ==> r == Ok(BadValsize) && api.txn == Some(db))
      && (fault.OtherError? ==> r.Err?)
  {
    if op.condition.Some? {
      var condition := EvaluateCondition(api, op.condition.value);
      if condition.Err? {
        return Err(condition.error);
      }
      if condition.value != Success {
        return Ok(condition.value);
      }
    }
    if op.value.None? {
      var deleted := api.Del(op.dbi, op.key);
      match deleted {
        case Ok(_) => return Ok(Success);
        case Err(ErrorNotFound) => return Ok(NotFound);
        case Err(ErrorBadValsize) => return Ok(BadValsize);
        case Err(other) => return Err(other);
      }
    }
    var put := api.Put(op.dbi, op.key, op.value.value);
    match put {
      case Ok(_) => return Ok(Success);
      case Err(ErrorBadValsize) => return Ok(BadValsize);
      case Err(other) => return Err(other);
    }
  }

  /** The loop over the operations, up to the first one that throws. */
  method ExecuteOperations(api: NativeApi, operations: seq<Operation>, results: array<Option<BatchResult>>,
                           hooks: Hooks?)
    returns (r: Result<nat, NativeError>)
    requires api.txn.Some? && results.Length == |operations| && Filled(results[..], [])
    modifies api`calls, api`txn, results, hooks
    ensures var o := RunScript(old(api.txn).value, operations, api.script, old(api.calls));
      && Filled(results[..], o.results) && api.txn.Some?
      && (hooks != null ==> hooks.reported == old(hooks.reported) + Numbered(o.results))
      && (r.Err? <==> o.failed) && (r.Ok? ==> r.value == |operations| && api.txn == Some(o.db))
    ensures r.Ok? ==>
      api.calls == old(api.calls) + CallsMade(old(api.txn).value, operations, api.script, old(api.calls))
  {
    hide Attempt, RunScript, CallsOf, FaultsAt, Numbered, CallsMade;
    ghost var total := CallsMade(api.txn.value, operations, api.script, api.calls);
    ghost var all := RunScript(api.txn.value, operations, api.script, api.calls);
    ghost var done: seq<BatchResult> := [];
    var completed, index := 0, 0;
    assert operations[0..] == operations && forall s: seq<BatchResult> :: [] + s == s;
    NumberedNone();
    while index < |operations|
      invariant 0 <= index <= |operations| && completed == |done| == index && api.txn.Some?
      invariant Filled(results[..], done)
      invariant hooks != null ==> hooks.reported == old(hooks.reported) + Numbered(done)
      invariant total == api.calls - old(api.calls)
        + CallsMade(api.txn.value, operations[index..], api.script, api.calls)
      invariant all == Onto(done, RunScript(api.txn.value, operations[index..], api.script, api.calls))
    {
      RunScriptStep(api.txn.value, operations[index..], api.script, api.calls);
      CallsMadeStep(api.txn.value, operations[index..], api.script, api.calls);
      assert operations[index..][1..] == operations[index + 1..];
      var result := ExecuteOperation(api, operations[index]);
      if result.Err? {
        assert done + [] == done;
        return Err(result.error);
      }
      results[index] := Some(result.value);
      completed := completed + 1;
      if hooks != null {
        hooks.OnResult(index, result.value);
      }
      NumberedSnoc(done, result.value);
      OntoSnoc(done, result.value, RunScript(api.txn.value, operations[index + 1..], api.script, api.calls));
      done := done + [result.value];
      index := index + 1;
    }
    RunScriptNone(api.txn.value, operations[index..], api.script, api.calls);
    CallsMadeNone(api.txn.value, operations[index..], api.script, api.calls);
    assert done + [] == done;
    return Ok(completed);
  }

  /** Results already there, followed by those of the rest. */
  function Onto(done: seq<BatchResult>, rest: Outcome): Outcome {
    Outcome(done + rest.results, rest.db, rest.failed)
  }

  lemma OntoSnoc(done: seq<BatchResult>, r: BatchResult, rest: Outcome)
    ensures Onto(done, Outcome([r] + rest.results, rest.db, rest.failed)) == Onto(done + [r], rest)
  {}

  lemma RunScriptNone(db: Db, ops: seq<Operation>, script: nat -> Fault, calls: nat)
    requires ops == []
    ensures RunScript(db, ops, script, calls) == Outcome([], db, false)
  {}

  lemma NumberedNone()
    ensures Numbered([]) == []
  {}

  lemma NumberedSnoc(done: seq<BatchResult>, r: BatchResult)
    ensures Numbered(done + [r]) == Numbered(done) + [(|done|, r)]
  {}

  method ExecuteBatch(api: NativeApi, operations: seq<Operation>, results: array<Option<BatchResult>>, hooks: Hooks?)
    returns (r: Result<nat, BatchError>)
    requires api.txn == None && results.Length == |operations| && forall i :: 0 <= i < results.Length ==>
      results[i] == None
    modifies api, results, hooks
    // the transaction never began
    ensures api.script(old(api.calls)) != NoFault ==>
      r.Err? && r.error.NativeFailure? && api.txn == None && api.db == old(api.db)
      && api.commits == old(api.commits) && api.aborts == old(api.aborts)
      && Filled(results[..], []) && (hooks != null ==> hooks.reported == old(hooks.reported))
    // the deliberate hard failure leaves it open
    ensures api.script(old(api.calls)) == NoFault && hooks != null && hooks.terminateAfterBegin ==>
      r == Err(HardFailure) && api.txn == Some(old(api.db)) && api.db == old(api.db)
      && api.commits == old(api.commits) && api.aborts == old(api.aborts)
      && Filled(results[..], []) && hooks.reported == old(hooks.reported)
    // otherwise it runs the fold, in exactly one commit or abort
    ensures api.script(old(api.calls)) == NoFault && (hooks == null || !hooks.terminateAfterBegin) ==>
      var o := RunScript(old(api.db), operations, api.script, old(api.calls) + 1);
      && Filled(results[..], o.results) && api.txn == None
      && (hooks != null ==> hooks.reported == old(hooks.reported) + Numbered(o.results))
      && (o.failed ==> r.Err? && r.error.NativeFailure? && api.db == old(api.db)
                       && api.aborts == old(api.aborts) + 1 && api.commits == old(api.commits))
      && (!o.failed ==> api.aborts == old(api.aborts) && api.commits == old(api.commits) + 1
                        && |o.results| == |operations|
                        && (r.Ok? <==> Accepts(old(api.db), operations, api.script, old(api.calls)))
                        && (r.Ok? ==> r.value == |operations| && api.db == o.db)
                        && (r.Err? ==> r.error.NativeFailure? && api.db == old(api.db)))
  {
    hide RunScript, Numbered, CallsMade;
    NumberedNone();
    var begun := api.TxnBegin();
    if begun.Err? {
      return Err(NativeFailure(begun.error));
    }
    if hooks != null && hooks.terminateAfterBegin {
      return Err(HardFailure);
    }
    var executed := ExecuteOperations(api, operations, results, hooks);
    if executed.Err? {
      api.TxnAbort();
      return Err(NativeFailure(executed.error));
    }
    var committed := api.TxnCommit();
    if committed.Err? {
      return Err(NativeFailure(committed.error));
    }
    return Ok(executed.value);
  }
}
