/**
 Runs: any sequence of public operations, batch hooks, finalizers and hard
 Worker failures, in any order.  What the invariant means natively at every
 state of a run is stated first.
 */
module EnvironmentRuns {
  import opened Common
  import opened NativeLmdb
  import opened Ownership
  import opened OwnershipLemmas
  import opened TransactionLemmas
  import opened DbiLemmas
  import opened DropLemmas
  import opened RetentionLemmas
  import opened EnvironmentLemmas
  import opened SharedEnvironments
  import opened PublicOperations

  // -------------------------------------------- what holds in every state

  /** While anything refers to a committed database its handle is open and its own. */
  lemma ReferencedHandleIsOpen(g: Graph, r: Id)
    requires Inv(g) && Tracked(g)
    requires r in g.records && g.records[r].committed && !Unreferenced(g.records[r])
    ensures var h := g.records[r].handle;
      h in g.native.slots && g.native.slots[h] == Shared && h in g.dbiRecords && g.dbiRecords[h] == r
  {
    hide TxnsOk, CursorsOk, DbisOk, CursorCountsOk, LeaseCountsOk, NativeTxnsOk, NativeCursorsOk, PrivateOk, ShapeOk;
    MidOf(g);
    assert InMap(g.dbiRecords, g.records[r].handle, r);
  }

  /** No open database handle is leaked: its one record is referenced. */
  lemma OpenHandleIsReferenced(g: Graph, h: nat)
    requires Inv(g) && Tracked(g) && h in g.native.slots
    ensures h in g.dbiRecords && g.dbiRecords[h] in g.records
    ensures g.records[g.dbiRecords[h]].handle == h && !Unreferenced(g.records[g.dbiRecords[h]])
    ensures forall r :: r in g.records && g.records[r].handle == h && !Unreferenced(g.records[r])
                        && g.records[r].committed ==>
      r == g.dbiRecords[h]
  {
    hide TxnsOk, CursorsOk, DbisOk, CursorCountsOk, LeaseCountsOk, NativeTxnsOk, NativeCursorsOk, PrivateOk, ShapeOk;
    MidOf(g);
    var r := g.dbiRecords[h];
    assert InMap(g.dbiRecords, h, r);
    forall q | q in g.records && g.records[q].handle == h && !Unreferenced(g.records[q]) && g.records[q].committed
      ensures q == r
    {
      ReferencedHandleIsOpen(g, q);
    }
  }

  /** At most one native write transaction, and it is the one in the writer slot. */
  lemma SingleWriter(g: Graph, t: Id, u: Id)
    requires Inv(g) && Tracked(g) && t in g.native.txns && u in g.native.txns
    requires !g.native.txns[t] && !g.native.txns[u]
    ensures t == u && g.activeWriter == PublicWriter(t)
  {
    hide CursorsOk, DbisOk, CursorCountsOk, LeaseCountsOk, RecordsOk, HandleMapOk, RecordsExist, NativeCursorsOk,
         SlotsOk, PrivateOk;
    MidOf(g);
    WriterIsRegistered(g);
  }

  /** An open native cursor belongs to an active transaction that is itself natively open. */
  lemma NativeCursorsAreInside(g: Graph, c: Id)
    requires Inv(g) && Tracked(g) && c in g.native.cursors
    ensures var t := g.native.cursors[c].txn;
      && t in g.native.txns && t in g.txnBindings && c in g.txnBindings[t].cursors
      && g.txnBindings[t].phase == PhaseActive
      && c in g.cursorBindings && g.cursorBindings[c].phase == CursorActive
  {
    hide DbisOk, CursorCountsOk, LeaseCountsOk, RecordsOk, SlotsOk, PrivateOk;
    MidOf(g);
  }

  /** The environment is natively closed exactly when nothing keeps it. */
  lemma ClosedIffUnused(g: Graph)
    requires Inv(g) && !g.poisoned && !g.native.fault
    ensures g.native.envOpen <==> g.live
    ensures !g.native.envOpen ==>
      g.wrappers == map[] && g.operations == {} && g.activeWriter == NoWriter && !Leased(g.leases)
    ensures g.native.envOpen ==>
      g.wrappers != map[] || g.operations != {} || g.activeWriter != NoWriter || Leased(g.leases)
  {
    hide TxnsOk, CursorsOk, DbisOk, CursorCountsOk, LeaseCountsOk, RecordsOk, HandleMapOk, RecordsExist, ShapeOk,
         NativeTxnsOk, NativeCursorsOk, SlotsOk, PrivateOk, Leased;
    MidOf(g);
    ReferencedIsLive(g);
  }

  /** A retired environment refuses everything. */
  lemma RetiredIsEmpty(g: Graph)
    requires Inv(g) && !g.live
    ensures g.wrappers == map[] && g.transactions == {} && g.operations == {} && g.activeWriter == NoWriter
    ensures forall b :: b in g.dbiBindings ==> g.dbiBindings[b].closed
    ensures forall c :: c in g.cursorBindings ==> g.cursorBindings[c].phase == CursorClosed
    ensures forall l :: l in g.leases ==> g.leases[l].released
    ensures g.registered == g.poisoned
  {
    hide CursorCountsOk, LeaseCountsOk, RecordsOk, TxnsOk, WrapperSetsOk, PendingSetsOk, PendingTxnsOk, HandleMapOk;
    MidOf(g);
    ReferencedIsLive(g);
  }

  // -------------------------------------------------------------------- runs

  datatype TxnCall =
    | Begin(w: Id, t: Id, readOnly: bool, nativeOk: bool)
    | CommitTxn(t: Id, nativeOk: bool)
    | AbortTxn(t: Id)
    | ResetTxn(t: Id)
    | RenewTxn(t: Id, nativeOk: bool)
    | FinalizeTxn(t: Id)
    | WriteDb(t: Id, b: Id, nativeOk: bool)
    | DeleteAt(c: Id, nativeOk: bool)
    | OpenCur(c: Id, t: Id, b: Id, nativeOk: bool)
    | CloseCur(c: Id)
    | FinalizeCur(c: Id)

  datatype DbiCall =
    | OpenDbIn(w: Id, t: Id, b: Id, newRecord: Id, h: nat, nativeOk: bool)
    | OpenDb(w: Id, t: Id, token: Id, b: Id, newRecord: Id, h: nat, create: bool, outcome: Outcome)
    | CloseDb(b: Id)
    | FinalizeDb(b: Id)
    | DropDbIn(b: Id, t: Id, del: bool, nativeOk: bool)
    | DropDb(b: Id, t: Id, token: Id, del: bool, outcome: Outcome)
    | Retain(w: Id, b: Id, l: Id)
    | Release(l: Id)

  datatype EnvCall =
    | Attach(w: Id)
    | CloseEnv(w: Id)
    | FinalizeEnv(w: Id)
    | BeginOp(w: Id, op: Id)
    | EndOp(op: Id)
    | Reserve(w: Id, token: Id)
    | Unreserve(token: Id)
    | PoisonEnv

  datatype Call = OnTxn(txn: TxnCall) | OnDbi(dbi: DbiCall) | OnEnv(env: EnvCall)

  /**
   What callers owe the layer: identities of new objects are new, and resets and
   deleting drops stay clear of the known gaps that lose the invariant.
   */
  predicate Permitted(g: Graph, call: Call) {
    match call
    case OnTxn(c) => TxnPermitted(g, c)
    case OnDbi(c) => DbiPermitted(g, c)
    case OnEnv(c) => EnvPermitted(g, c)
  }

  predicate TxnPermitted(g: Graph, call: TxnCall) {
    match call
    case Begin(_, t, _, _) => t !in g.txnBindings
    case ResetTxn(t) => ActiveTxn(g, t) && g.txnBindings[t].readOnly ==> OnlyCommittedPending(g, t)
    case OpenCur(c, _, _, _) => c !in g.cursorBindings
    case CloseCur(c) => c in g.cursorBindings
    case FinalizeCur(c) => c in g.cursorBindings
    case DeleteAt(c, _) => c in g.cursorBindings
    case _ => true
  }

  predicate DbiPermitted(g: Graph, call: DbiCall) {
    match call
    case OpenDbIn(_, _, b, newRecord, _, _) => b !in g.dbiBindings && newRecord !in g.records
    case OpenDb(_, t, _, b, newRecord, _, _, _) =>
      b !in g.dbiBindings && newRecord !in g.records && t !in g.transactions
    case FinalizeDb(b) => b in g.dbiBindings
    case DropDbIn(b, t, del, nativeOk) =>
      MayDropIn(g, b, t) && del && nativeOk ==>
        var record := g.records[g.dbiBindings[b].record];
        record.committed ==> record.cursorRefs == 0
    case DropDb(b, t, _, del, outcome) => t !in g.transactions && DropSafe(g, b, del, outcome)
    case Retain(_, _, l) => l !in g.leases
    case Release(l) => l in g.leases
    case _ => true
  }

  predicate EnvPermitted(g: Graph, call: EnvCall) {
    match call
    case Attach(w) => w !in g.wrappers
    case BeginOp(_, op) => op !in g.operations
    case PoisonEnv => g.live
    case _ => true
  }

  /**
   The call leads to no native call that LMDB's header forbids: it takes the last
   reference to no database an open transaction has modified, deletes none that has a
   cursor open, and opens none while another transaction has opened one.
   */
  predicate Clear(g: Graph, call: Call) {
    match call
    case OnTxn(c) => TxnClear(g, c)
    case OnDbi(c) => DbiClear(g, c)
    case OnEnv(c) => EnvClear(g, c)
  }

  predicate TxnClear(g: Graph, call: TxnCall) {
    match call
    case CommitTxn(t, nativeOk) => OpenTxn(g, t) ==> MayEnd(g, t, nativeOk)
    case AbortTxn(t) => OpenTxn(g, t) ==> MayEnd(g, t, false)
    case FinalizeTxn(t) => OpenTxn(g, t) ==> MayEnd(g, t, false)
    case CloseCur(c) => c in g.cursors ==> MayCloseCursor(g, c)
    case FinalizeCur(c) => c in g.cursors ==> MayCloseCursor(g, c)
    case _ => true
  }

  predicate DbiClear(g: Graph, call: DbiCall) {
    match call
    case OpenDbIn(w, t, _, _, h, nativeOk) => w in g.wrappers && ActiveTxn(g, t) && nativeOk ==> MayOpen(g.native, t, h)
    case OpenDb(w, _, _, _, _, _, create, outcome) =>
      MayTryOpen(g, w, create) && GotToCall(outcome) ==> g.native.openers == {}
    case CloseDb(b) => LiveDbi(g, b) ==> MayCloseDbi(g, b)
    case FinalizeDb(b) => b in g.dbiBindings && g.dbiBindings[b].record in g.records ==> MayCloseDbi(g, b)
    case DropDbIn(b, t, del, nativeOk) =>
      MayDropIn(g, b, t) && del && nativeOk ==> !CursorOnSlot(g.native, HandleOf(g, b))
    case Release(l) => l in g.leases && g.leases[l].record in g.records ==> MayReleaseLease(g, l)
    case _ => true
  }

  predicate EnvClear(g: Graph, call: EnvCall) {
    match call
    case CloseEnv(w) => Closable(g, w) ==> MayAbortAll(g, g.wrappers[w])
    case FinalizeEnv(w) => w in g.wrappers ==> MayAbortAll(g, g.wrappers[w])
    case _ => true
  }

  /**
   The calls that poison closes off.  Left are the finalizers, the closing of a wrapper,
   and the giving back of an operation, the writer slot or a lease.
   */
  predicate Guarded(call: Call) {
    match call
    case OnTxn(c) => !c.FinalizeTxn? && !c.FinalizeCur?
    case OnDbi(c) => !c.FinalizeDb? && !c.Release?
    case OnEnv(c) => c.Attach? || c.BeginOp? || c.Reserve?
  }

  lemma OpenTxnIsListed(g: Graph)
    requires Inv(g)
    ensures forall c :: c in g.cursorBindings ==> (g.cursorBindings[c].phase != CursorClosed <==> c in g.cursors)
  {
    hide TxnsOk, DbisOk, CursorCountsOk, LeaseCountsOk, HandleMapOk, RecordsOk, InvNative, RecordsExist;
    MidOf(g);
  }

  lemma EntitiesExist(g: Graph)
    requires Inv(g)
    ensures forall l :: l in g.leases ==> g.leases[l].record in g.records
    ensures forall b :: b in g.dbiBindings ==> g.dbiBindings[b].record in g.records
    ensures forall c :: c in g.cursorBindings ==> g.cursorBindings[c].dbi in g.dbiBindings
    ensures g.transactions <= g.txnBindings.Keys
  {
    hide TxnsOk, CursorsOk, DbisOk, CursorCountsOk, LeaseCountsOk, HandleMapOk, RecordsOk, InvNative;
    MidOf(g);
  }

  method PerformOnTxn(e: SharedEnvironment, call: TxnCall) returns (accepted: bool)
    requires Inv(e.graph) && TxnPermitted(e.graph, call)
    modifies e
    ensures Inv(e.graph) && Progress(old(e.graph), e.graph)
    ensures TxnClear(old(e.graph), call) ==> Legal(old(e.graph), e.graph)
    ensures old(e.graph).poisoned && Guarded(OnTxn(call)) ==> !accepted
  {
    hide Inv, InvMid, InvHeap, InvLife, Progress, TransactionEnded, OnlyCommittedPending, BeginTransaction,
         RenewTransaction, OpenCursor, CloseCursor, EndCursors, MayEnd, MayCloseCursor, Wrote, Tracked;
    EntitiesExist(e.graph);
    OpenTxnIsListed(e.graph);
    TrackedMeans(e.graph);
    accepted := true;
    match call {
      case Begin(w, t, readOnly, nativeOk) => accepted := BeginTxn(e, w, t, readOnly, nativeOk);
      case CommitTxn(t, nativeOk) => accepted := Commit(e, t, nativeOk);
      case AbortTxn(t) => accepted := Abort(e, t);
      case ResetTxn(t) => accepted := Reset(e, t);
      case RenewTxn(t, nativeOk) => accepted := Renew(e, t, nativeOk);
      case FinalizeTxn(t) => FinalizeTransaction(e, t);
      case WriteDb(t, b, nativeOk) => accepted := WriteInTxn(e, t, b, nativeOk);
      case DeleteAt(c, nativeOk) => accepted := DeleteThroughCursor(e, c, nativeOk);
      case OpenCur(c, t, b, nativeOk) => accepted := OpenCursorIn(e, c, t, b, nativeOk);
      case CloseCur(c) => accepted := CloseCursorWrapper(e, c);
      case FinalizeCur(c) => PublicOperations.FinalizeCursor(e, c);
    }
    if !Tracked(old(e.graph)) { UntrackedIsLegal(old(e.graph), e.graph); }
  }

  lemma TrackedMeans(g: Graph)
    ensures Tracked(g) ==> !g.poisoned && !g.native.fault
  {}

  method PerformOnDbi(e: SharedEnvironment, call: DbiCall) returns (accepted: bool)
    requires Inv(e.graph) && DbiPermitted(e.graph, call)
    modifies e
    ensures Inv(e.graph) && Progress(old(e.graph), e.graph)
    ensures DbiClear(old(e.graph), call) ==> Legal(old(e.graph), e.graph)
    ensures old(e.graph).poisoned && Guarded(OnDbi(call)) ==> !accepted
  {
    hide Inv, InvMid, InvHeap, InvLife, Progress, OpenPendingDbi, OpenCommittedDbi, ReleaseDbi, DropInTransaction,
         DropInternally, RetainRecord, ReleaseLease, Unused, MayCloseDbi, MayReleaseLease, Wrote, MayOpen, CursorOnSlot,
         Tracked, DroppedAs, DropSafe, GotToCall;
    EntitiesExist(e.graph);
    TrackedMeans(e.graph);
    accepted := true;
    match call {
      case OpenDbIn(w, t, b, newRecord, h, nativeOk) =>
        accepted := OpenDbiInTransaction(e, w, t, b, newRecord, h, nativeOk);
      case OpenDb(w, t, token, b, newRecord, h, create, outcome) =>
        accepted := OpenDbi(e, w, t, token, b, newRecord, h, create, outcome);
      case CloseDb(b) => accepted := CloseDbi(e, b);
      case FinalizeDb(b) => FinalizeDbi(e, b);
      case DropDbIn(b, t, del, nativeOk) => accepted := DropInTxn(e, b, t, del, nativeOk);
      case DropDb(b, t, token, del, outcome) => accepted := DropDbi(e, b, t, token, del, outcome);
      case Retain(w, b, l) => accepted := RetainDbiForBatch(e, w, b, l);
      case Release(l) => ReleaseBatchDbiLease(e, l);
    }
    if !Tracked(old(e.graph)) { UntrackedIsLegal(old(e.graph), e.graph); }
  }

  method PerformOnEnv(e: SharedEnvironment, call: EnvCall) returns (accepted: bool)
    requires Inv(e.graph) && EnvPermitted(e.graph, call)
    modifies e
    ensures Inv(e.graph) && Progress(old(e.graph), e.graph)
    ensures EnvClear(old(e.graph), call) ==> Legal(old(e.graph), e.graph)
    ensures old(e.graph).poisoned && Guarded(OnEnv(call)) ==> !accepted
    ensures call == PoisonEnv ==> e.graph.poisoned
  {
    hide Inv, InvMid, InvHeap, InvLife, Progress, BeginOperation, EndOperation, ReserveWriter, ReleaseWriter,
         AttachWrapper, Unused, MayAbortAll, Narrowed, OthersKept, SettledOpen, Legal, Closable;
    accepted := true;
    match call {
      case Attach(w) => accepted := AttachEnvironment(e, w);
      case CloseEnv(w) =>
        accepted := CloseEnvironment(e, w);
        if !accepted { StaysPut(e.graph); }
      case FinalizeEnv(w) =>
        if w !in e.graph.wrappers { StaysPut(e.graph); }
        FinalizeEnvironment(e, w);
      case BeginOp(w, op) => accepted := BeginAsync(e, w, op);
      case EndOp(op) => EndAsync(e, op);
      case Reserve(w, token) => accepted := ReserveInternalWriter(e, w, token);
      case Unreserve(token) => ReleaseInternalWriter(e, token);
      case PoisonEnv => PoisonEnvironment(e);
    }
  }

  method Perform(e: SharedEnvironment, call: Call) returns (accepted: bool)
    requires Inv(e.graph) && Permitted(e.graph, call)
    modifies e
    ensures Inv(e.graph) && Progress(old(e.graph), e.graph)
    ensures Clear(old(e.graph), call) ==> Legal(old(e.graph), e.graph)
    ensures old(e.graph).poisoned && Guarded(call) ==> !accepted
    ensures call == OnEnv(PoisonEnv) ==> e.graph.poisoned
  {
    hide Inv, Progress, TxnPermitted, DbiPermitted, EnvPermitted, TxnClear, DbiClear, EnvClear, Legal;
    match call {
      case OnTxn(c) => accepted := PerformOnTxn(e, c);
      case OnDbi(c) => accepted := PerformOnDbi(e, c);
      case OnEnv(c) => accepted := PerformOnEnv(e, c);
    }
  }

  lemma ProgressTransitive(a: Graph, b: Graph, c: Graph)
    requires Progress(a, b) && Progress(b, c)
    ensures Progress(a, c)
  {}

  /** The `i`-th call of a run reported a hard Worker failure to the environment while it was live. */
  predicate PoisonedAt(calls: seq<Call>, accepted: seq<bool>, i: int) {
    0 <= i < |calls| && i < |accepted| && calls[i] == OnEnv(PoisonEnv) && accepted[i]
  }

  /**
   Any run: calls that are not permitted in the state they find are skipped, and count
   as not accepted.  `clear` says that each of the others was clear in the state it
   found, and then no call LMDB forbids was made.  Once a hard failure is reported no
   guarded call is ever accepted again.
   */
  method Run(e: SharedEnvironment, calls: seq<Call>) returns (clear: bool, accepted: seq<bool>)
    requires Inv(e.graph)
    modifies e
    ensures Inv(e.graph) && Progress(old(e.graph), e.graph)
    ensures clear ==> Legal(old(e.graph), e.graph)
    ensures |accepted| == |calls|
    ensures forall i, j :: PoisonedAt(calls, accepted, i) && i < j < |calls| && Guarded(calls[j]) ==> !accepted[j]
    ensures forall j :: old(e.graph).poisoned && 0 <= j < |calls| && Guarded(calls[j]) ==> !accepted[j]
  {
    hide Inv, Progress, Permitted, Clear, Guarded;
    assert Progress(e.graph, e.graph) by { Reflexive(e.graph); }
    clear, accepted := true, [];
    for k := 0 to |calls|
      invariant Inv(e.graph) && Progress(old(e.graph), e.graph)
      invariant clear ==> Legal(old(e.graph), e.graph)
      invariant |accepted| == k
      invariant old(e.graph).poisoned || (exists i :: PoisonedAt(calls, accepted, i)) ==> e.graph.poisoned
      invariant forall i, j :: PoisonedAt(calls, accepted, i) && i < j < k && Guarded(calls[j]) ==> !accepted[j]
      invariant forall j :: old(e.graph).poisoned && 0 <= j < k && Guarded(calls[j]) ==> !accepted[j]
    {
      ghost var before, was := e.graph, accepted;
      var ok := false;
      if Permitted(e.graph, calls[k]) {
        clear := clear && Clear(e.graph, calls[k]);
        ok := Perform(e, calls[k]);
        ProgressTransitive(old(e.graph), before, e.graph);
        PoisonStays(before, e.graph);
      }
      accepted := accepted + [ok];
      assert forall i :: PoisonedAt(calls, accepted, i) && i < k ==> PoisonedAt(calls, was, i);
    }
  }

  lemma PoisonStays(o: Graph, g: Graph)
    requires Progress(o, g)
    ensures o.poisoned ==> g.poisoned
  {}

  lemma Reflexive(g: Graph)
    ensures Progress(g, g)
  {}

  /** From the first `open` on, no run of clear calls makes a call LMDB forbids. */
  method RunFromOpen(w: Id, calls: seq<Call>) returns (e: SharedEnvironment, clear: bool, accepted: seq<bool>)
    ensures fresh(e) && Inv(e.graph) && (clear ==> !e.graph.native.fault)
    ensures clear && !e.graph.poisoned ==> (e.graph.native.envOpen <==> e.graph.live)
    ensures |accepted| == |calls|
    ensures forall i, j :: PoisonedAt(calls, accepted, i) && i < j < |calls| && Guarded(calls[j]) ==> !accepted[j]
  {
    hide Inv;
    e := new SharedEnvironment(w);
    clear, accepted := Run(e, calls);
    if clear && !e.graph.poisoned { ClosedIffUnused(e.graph); }
  }

  /**
   A reader that is reset and renewed is a reader again: a cursor on any database that
   is settled, or its own, is opened in it.
   */
  method ReaderComesBack(e: SharedEnvironment, t: Id, c: Id, b: Id) returns (accepted: seq<bool>)
    requires Inv(e.graph) && ActiveTxn(e.graph, t) && e.graph.txnBindings[t].readOnly
    requires OnlyCommittedPending(e.graph, t) && c !in e.graph.cursorBindings
    requires b in e.graph.dbis && b in e.graph.dbiBindings && e.graph.dbiBindings[b].pendingTxn in {None, Some(t)}
    modifies e
    ensures accepted == [true, true, true]
    ensures Inv(e.graph) && ActiveTxn(e.graph, t) && e.graph.txnBindings[t].cursors == {c}
  {
    hide Inv, Progress, OnlyCommittedPending, OpenCursor;
    var reset := Reset(e, t);
    var renewed := Renew(e, t, true);
    UsableMeans(e.graph, b, t);
    var pointed := OpenCursorIn(e, c, t, b, true);
    ActiveMeans(e.graph, t);
    accepted := [reset, renewed, pointed];
  }

  /** Writer 1 is open; it has created database 2, put into it and pointed cursor 4 on it. */
  ghost predicate Creating(g: Graph) {
    && Inv(g) && Tracked(g) && g.wrappers.Keys == {0} && g.leases == map[] && g.activeAsyncOperations == 0
    && g.transactions == {1} && 1 in g.txnBindings && !g.txnBindings[1].readOnly && g.activeWriter == PublicWriter(1)
    && g.cursors == {4} && g.txnBindings[1].cursors == {4} && g.dbis == {2} && g.txnBindings[1].pendingDbis == {2}
    && 2 in g.dbiBindings && !g.dbiBindings[2].closed
  }

  method StartCreating() returns (e: SharedEnvironment, accepted: seq<bool>)
    ensures fresh(e) && Creating(e.graph) && accepted == [true, true, true, true]
  {
    hide Inv, Progress, InvHeap, InvNative, InvMid, InvLife, BeginTransaction, OpenPendingDbi, OpenCursor, Wrote;
    e := new SharedEnvironment(0);
    assert Tracked(e.graph);
    var begun := BeginTxn(e, 0, 1, false, true);
    Begun();
    var created := OpenDbiInTransaction(e, 0, 1, 2, 3, 5, true);
    Created(BeginTransaction(OpenedEnvironment(0), 0, 1, false));
    ghost var database := e.graph;
    var put := WriteInTxn(e, 1, 2, true);
    Unwritten(database, e.graph);
    ghost var written := e.graph;
    var pointed := OpenCursorIn(e, 4, 1, 2, true);
    Pointed(written);
    accepted := [begun, created, put, pointed];
  }

  /** Writer 1 is open and has done nothing yet. */
  ghost predicate Fresh(g: Graph) {
    && g.wrappers.Keys == {0} && g.leases == map[] && g.activeAsyncOperations == 0 && g.live && !g.poisoned
    && g.transactions == {1} && g.txnBindings == map[1 := Transaction(true, 0, false, PhaseActive, {}, {})]
    && g.activeWriter == PublicWriter(1) && g.cursors == {} && g.cursorBindings == map[] && g.dbis == {}
    && g.dbiBindings == map[] && g.records == map[] && g.dbiRecords == map[]
    && g.native.openers == {} && g.native.slots == map[]
  }

  lemma Begun()
    ensures 0 in OpenedEnvironment(0).wrappers && Fresh(BeginTransaction(OpenedEnvironment(0), 0, 1, false))
  {
    var g := BeginTransaction(OpenedEnvironment(0), 0, 1, false);
    assert g.wrappers.Keys == {0};
    assert g.txnBindings == map[1 := Transaction(true, 0, false, PhaseActive, {}, {})];
    assert g.transactions == {1};
  }

  /** Writer 1 has opened database 2, and perhaps put into it. */
  ghost predicate Opened(g: Graph) {
    && g.wrappers.Keys == {0} && g.leases == map[] && g.activeAsyncOperations == 0 && g.live && !g.poisoned
    && g.transactions == {1} && g.txnBindings == map[1 := Transaction(true, 0, false, PhaseActive, {}, {2})]
    && g.activeWriter == PublicWriter(1) && g.cursors == {} && g.cursorBindings == map[] && g.dbis == {2}
    && g.dbiBindings == map[2 := DbiBinding(3, Some(1), false)] && g.records.Keys == {3}
  }

  lemma Created(g: Graph)
    requires Fresh(g)
    ensures MayOpen(g.native, 1, 5) && Opened(OpenPendingDbi(g, 2, 5, 3, 1))
  {
    hide DbiOpen;
    var g' := OpenPendingDbi(g, 2, 5, 3, 1);
    assert g'.dbis == {2} && g'.records.Keys == {3};
    assert g'.txnBindings == map[1 := Transaction(true, 0, false, PhaseActive, {}, {2})];
  }

  lemma Unwritten(o: Graph, g: Graph)
    requires Opened(o) && g == o.(native := g.native)
    ensures Opened(g)
  {}

  lemma Pointed(g: Graph)
    requires Opened(g)
    ensures var g' := OpenCursor(g, 4, 1, 2);
      && g'.wrappers == g.wrappers && g'.leases == g.leases && g'.activeAsyncOperations == g.activeAsyncOperations
      && g'.live && !g'.poisoned && g'.transactions == g.transactions && g'.activeWriter == g.activeWriter
      && g'.txnBindings == map[1 := Transaction(true, 0, false, PhaseActive, {4}, {2})]
      && g'.cursors == {4} && g'.dbis == g.dbis && g'.dbiBindings == g.dbiBindings
  {
    hide CursorOpen;
    var g' := OpenCursor(g, 4, 1, 2);
    assert g'.cursors == {4};
    assert g'.txnBindings == map[1 := Transaction(true, 0, false, PhaseActive, {4}, {2})];
  }

  method CreateDatabase() returns (e: SharedEnvironment, accepted: seq<bool>)
    ensures fresh(e) && Inv(e.graph) && Tracked(e.graph) && accepted == [true, true, true, true, true]
    ensures e.graph.wrappers.Keys == {0} && e.graph.transactions == {} && e.graph.leases == map[] && !e.graph.poisoned
    ensures e.graph.activeWriter == NoWriter && e.graph.activeAsyncOperations == 0
    ensures e.graph.dbis == {2} && e.graph.cursors == {}
    ensures LiveDbi(e.graph, 2) && e.graph.dbiBindings[2].pendingTxn == None
  {
    hide Inv, Progress, TransactionEnded, InvHeap, InvNative, InvMid, InvLife, MayEnd;
    e, accepted := StartCreating();
    ghost var before := e.graph;
    MidOf(before);
    WriterMayEnd(before, 1, true);
    var committed := Commit(e, 1, true);
    CommittedBinding(before, e.graph, 1, 2);
    EndedFlags(before, e.graph, 1, true);
    RecordsKnown(e.graph);
    accepted := accepted + [committed];
  }

  /**
   One life from open to close: database 2 is created and filled, closed, and then
   the environment is closed.  Every call is accepted, and LMDB has nothing open in
   the end.
   */
  method OneLife() returns (e: SharedEnvironment, accepted: seq<bool>)
    ensures accepted == [true, true, true, true, true, true, true]
    ensures !e.graph.live && !e.graph.native.envOpen && !e.graph.native.fault && e.graph.native.leftOpen == {}
  {
    hide Inv, Progress, Leased, InvHeap, InvNative, InvMid, InvLife, ReleaseDbi, MayAbortAll, OthersKept, Narrowed,
         SettledOpen, MayCloseDbi;
    e, accepted := CreateDatabase();
    RecordsKnown(e.graph);
    IdleMayClose(e.graph, 2);
    ghost var settled := e.graph;
    var dropped := CloseDbi(e, 2);
    ReleaseDbiFrame(settled, 2, true);
    NoLeases(e.graph.leases);
    NoTransactions(e.graph, 0);
    AllClosed(e.graph);
    var closed := CloseEnvironment(e, 0);
    assert e.graph.wrappers.Keys == {};
    ClosedIffUnused(e.graph);
    accepted := accepted + [dropped, closed];
  }

  lemma CommittedBinding(o: Graph, g: Graph, t: Id, b: Id)
    requires TransactionEnded(o, g, t, true) && b in o.dbiBindings && t in o.txnBindings && !o.txnBindings[t].readOnly
    ensures b in g.dbiBindings && g.dbiBindings[b].closed == o.dbiBindings[b].closed
    ensures b in o.txnBindings[t].pendingDbis ==> g.dbiBindings[b].pendingTxn == None
    ensures g.cursors == o.cursors - o.txnBindings[t].cursors && g.dbis == o.dbis
  {
    hide EndCursors, SettleRecords, WrittenByOthers;
  }

  lemma RecordsKnown(g: Graph)
    requires Inv(g)
    ensures forall b :: b in g.dbiBindings ==> g.dbiBindings[b].record in g.records
    ensures g.wrappers != map[] ==> g.live
  {
    hide Inv;
    EntitiesExist(g);
    ReferencedIsLive(g);
  }

  /** With no transaction open nothing is modified, so every close is permitted. */
  lemma IdleMayClose(g: Graph, b: Id)
    requires Inv(g) && Tracked(g) && g.transactions == {}
    requires b in g.dbiBindings && g.dbiBindings[b].record in g.records
    ensures MayCloseDbi(g, b)
  {
    hide TxnsOk, CursorsOk, DbisOk, CursorCountsOk, LeaseCountsOk, RecordsOk, HandleMapOk, RecordsExist, ShapeOk,
         NativeCursorsOk, SlotsOk, PrivateOk;
    MidOf(g);
  }

  lemma NoTransactions(g: Graph, w: Id)
    requires Inv(g) && g.transactions == {} && w in g.wrappers
    ensures MayAbortAll(g, g.wrappers[w])
  {
    hide CursorsOk, DbisOk, CursorCountsOk, LeaseCountsOk, RecordsOk, HandleMapOk, RecordsExist, ShapeOk, InvNative;
    MidOf(g);
    assert g.wrappers[w] == {};
  }

  lemma AllClosed(g: Graph)
    requires g.dbis == {}
    ensures !SettledOpen(g)
  {}

  lemma NoLeases(leases: map<Id, Lease>)
    requires leases == map[]
    ensures !Leased(leases)
  {}
}
