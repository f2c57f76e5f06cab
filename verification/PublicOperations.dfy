/**
 The operations of the wrapper classes (`Env`, `Txn`, `Dbi`, `Cursor`), the
 batch hooks and the four finalizers.  Each one keeps the graph invariant, says
 exactly when it is accepted, and changes nothing when it is not.  Handles, and
 whether a native call succeeds, come from LMDB and are parameters.
 */
module PublicOperations {
  import opened Common
  import opened NativeLmdb
  import opened Ownership
  import opened OwnershipLemmas
  import opened TransactionLemmas
  import opened DbiLemmas
  import opened DropLemmas
  import opened RetentionLemmas
  import opened EnvironmentLemmas
  import opened SharedEnvironments

  // ------------------------------------------------------------- acceptance

  predicate OpenTxn(g: Graph, t: Id) { t in g.transactions && t in g.txnBindings && !g.poisoned }

  predicate ActiveTxn(g: Graph, t: Id) { OpenTxn(g, t) && g.txnBindings[t].phase == PhaseActive }

  predicate LiveDbi(g: Graph, b: Id) {
    b in g.dbiBindings && !g.dbiBindings[b].closed && g.dbiBindings[b].record in g.records && !g.poisoned
  }

  /** A pending wrapper may be used by its opening transaction only. */
  predicate DbiForTxn(g: Graph, b: Id, t: Id) {
    LiveDbi(g, b) && (g.dbiBindings[b].pendingTxn == None || g.dbiBindings[b].pendingTxn == Some(t))
  }

  predicate NotRetained(g: Graph, b: Id)
    requires LiveDbi(g, b)
  {
    g.records[g.dbiBindings[b].record].batchRefs == 0
  }

  /** Which transactions may be used: those that have not ended, are not reset, and are of no poisoned environment. */
  lemma ActiveMeans(g: Graph, t: Id)
    requires Inv(g)
    ensures ActiveTxn(g, t) <==> t in g.txnBindings && g.txnBindings[t].phase == PhaseActive && !g.poisoned
    ensures OpenTxn(g, t) <==> t in g.txnBindings && g.txnBindings[t].phase != PhaseClosed && !g.poisoned
  {
    hide CursorsOk, DbisOk, CursorCountsOk, LeaseCountsOk, RecordsOk, HandleMapOk, RecordsExist, InvNative;
    MidOf(g);
  }

  /**
   Which databases: a wrapper that is open, for any transaction once its database is
   settled and until then for the one that opened it.
   */
  lemma UsableMeans(g: Graph, b: Id, t: Id)
    requires Inv(g)
    ensures LiveDbi(g, b) <==> b in g.dbis && !g.poisoned
    ensures DbiForTxn(g, b, t) <==>
      b in g.dbis && !g.poisoned && b in g.dbiBindings && g.dbiBindings[b].pendingTxn in {None, Some(t)}
  {
    hide TxnsOk, CursorsOk, CursorCountsOk, LeaseCountsOk, RecordsOk, HandleMapOk, InvNative, WrapperSetsOk,
         PendingSetsOk, PendingTxnsOk;
    MidOf(g);
  }

  /** A database may be dropped while no unreleased batch lease is on it. */
  lemma RetainedMeans(g: Graph, b: Id)
    requires Inv(g) && LiveDbi(g, b)
    ensures NotRetained(g, b) <==>
      forall l :: l in g.leases && g.leases[l].record == g.dbiBindings[b].record ==> g.leases[l].released
  {
    hide TxnsOk, CursorsOk, DbisOk, CursorCountsOk, RecordsOk, HandleMapOk, InvNative;
    MidOf(g);
    var r := g.dbiBindings[b].record;
    if NotRetained(g, b) {
      assert LeasesOn(g.leases, r) == {};
      forall l | l in g.leases && g.leases[l].record == r ensures g.leases[l].released {
        assert l !in LeasesOn(g.leases, r);
      }
    } else {
      var l :| l in LeasesOn(g.leases, r);
    }
  }

  /** The guards of a drop: no unreleased lease is on the database, and the writer slot is the dropper's or free. */
  lemma MayDropMeans(g: Graph, b: Id, t: Id)
    requires Inv(g)
    ensures MayDropIn(g, b, t) <==>
      && b in g.dbis && b in g.dbiBindings && g.dbiBindings[b].pendingTxn in {None, Some(t)} && !g.poisoned
      && t in g.txnBindings && g.txnBindings[t].phase == PhaseActive && !g.txnBindings[t].readOnly
      && (forall l :: l in g.leases && g.leases[l].record == g.dbiBindings[b].record ==> g.leases[l].released)
    ensures MayTryDrop(g, b) <==>
      && b in g.dbis && b in g.dbiBindings && g.dbiBindings[b].pendingTxn == None && !g.poisoned
      && g.activeWriter == NoWriter
      && (forall l :: l in g.leases && g.leases[l].record == g.dbiBindings[b].record ==> g.leases[l].released)
  {
    hide Inv, ActiveTxn, LiveDbi, DbiForTxn, NotRetained;
    UsableMeans(g, b, t);
    LiveMeans(g, b);
    ActiveMeans(g, t);
    if LiveDbi(g, b) { RetainedMeans(g, b); }
  }

  lemma LiveMeans(g: Graph, b: Id)
    requires Inv(g)
    ensures b in g.dbis ==> b in g.dbiBindings
    ensures forall t :: DbiForTxn(g, b, t) ==> LiveDbi(g, b)
  {
    hide InvNative, TxnsOk, CursorsOk, DbisOk, CursorCountsOk, LeaseCountsOk, RecordsOk, HandleMapOk, RecordsExist;
    MidOf(g);
  }

  /** What keeps `Env.close` from closing a wrapper. */
  lemma ClosableMeans(g: Graph, w: Id)
    requires Inv(g)
    ensures Closable(g, w) <==>
      && w in g.wrappers && g.operations == {} && (forall token :: g.activeWriter != InternalWriter(token))
      && (forall l :: l in g.leases ==> g.leases[l].released)
  {
    hide InvNative, TxnsOk, CursorsOk, DbisOk, CursorCountsOk, LeaseCountsOk, RecordsOk, HandleMapOk, RecordsExist,
         ShapeOk;
    MidOf(g);
    if g.activeWriter.InternalWriter? { assert g.activeWriter == InternalWriter(g.activeWriter.token); }
  }

  // --------------------------------------------------- from `InvMid` to `Inv`

  /** No native call was started: at most one already in flight has settled. */
  predicate NoNativeCall(before: Lmdb, after: Lmdb) {
    after == before.(inFlight := after.inFlight) && after.inFlight <= before.inFlight
  }

  /**
   What every step promises besides the invariant: a retired environment never
   changes again, and a poisoned one stays poisoned and starts no native call.
   */
  predicate Progress(o: Graph, g: Graph) {
    && (!o.live ==> g == o)
    && (o.poisoned ==> g.poisoned && NoNativeCall(o.native, g.native))
  }

  /** The step makes no call LMDB forbids. */
  predicate Legal(o: Graph, g: Graph) { !o.native.fault ==> !g.native.fault }

  /** A retired or poisoned environment, and one in disarray, has nothing more to lose. */
  lemma UntrackedIsLegal(o: Graph, g: Graph)
    requires Progress(o, g) && !Tracked(o)
    ensures Legal(o, g)
  {}

  /** A step that keeps the graph keeps the environment alive. */
  lemma Kept(o: Graph, g: Graph)
    requires Inv(o) && o.live && InvMid(g, None, {})
    requires g.live && g.registered == o.registered && g.poisoned == o.poisoned
    requires g.refCount != 0 || (o.refCount == 0 && g.leases == o.leases && g.activeWriter == o.activeWriter
                                 && g.activeAsyncOperations == o.activeAsyncOperations)
    requires o.poisoned ==> NoNativeCall(o.native, g.native)
    ensures Inv(g) && Progress(o, g)
  {
    hide InvHeap, NativeTxnsOk, NativeCursorsOk, SlotsOk, PrivateOk;
  }

  /** A step that may have retired the environment. */
  lemma Settled(o: Graph, g: Graph)
    requires Inv(g) && o.live && g.poisoned == o.poisoned
    requires o.poisoned ==> NoNativeCall(o.native, g.native)
    ensures Progress(o, g)
  {
    hide InvHeap, NativeTxnsOk, NativeCursorsOk, SlotsOk, PrivateOk;
  }

  lemma MidOf(g: Graph)
    requires Inv(g)
    ensures InvMid(g, None, {}) && InvLife(g) && InvHeap(g, {})
    ensures Tracked(g) ==> InvNative(g, None)
  {
    hide InvHeap, InvNative, InvLife;
  }

  /** Who still refers to something keeps the environment alive. */
  lemma ReferencedIsLive(g: Graph)
    requires Inv(g)
    ensures g.transactions != {} || g.wrappers != map[] || g.cursors != {} || g.dbis != {} ==> g.live
    ensures g.wrappers != map[] <==> g.refCount != 0
    ensures g.transactions != {} ==> g.refCount > 0
    ensures Leased(g.leases) ==> g.live
  {
    hide InvNative, CursorsOk, DbisOk, CursorCountsOk, RecordsOk, HandleMapOk, Leased;
    MidOf(g);
    CountsLow(g);
    assert |g.wrappers| == |g.wrappers.Keys|;
    if g.wrappers != map[] { assert g.wrappers.Keys != {}; }
    if Leased(g.leases) && !g.live { LeasedIffRetained(g); }
  }

  lemma OpenDbiIsListed(g: Graph, b: Id)
    requires InvHeap(g, {}) && b in g.dbiBindings
    ensures g.dbiBindings[b].record in g.records
    ensures !g.dbiBindings[b].closed <==> b in g.dbis
  {
    hide TxnsOk, CursorsOk, CursorCountsOk, LeaseCountsOk, ShapeOk, HandleMapOk, PendingTxnsOk, WrapperSetsOk,
         PendingSetsOk, RecordsOk;
  }

  lemma OpenCursorIsListed(g: Graph, c: Id)
    requires InvHeap(g, {}) && c in g.cursorBindings
    ensures g.cursorBindings[c].dbi in g.dbiBindings && g.dbiBindings[g.cursorBindings[c].dbi].record in g.records
    ensures g.cursorBindings[c].phase != CursorClosed <==> c in g.cursors
    ensures g.cursorBindings[c].handle ==> g.cursorBindings[c].txn != None
  {
    hide TxnsOk, DbisOk, CursorCountsOk, LeaseCountsOk, HandleMapOk, RecordsOk;
  }

  // ------------------------------------------------------------ transactions

  method BeginTxn(e: SharedEnvironment, w: Id, t: Id, readOnly: bool, nativeOk: bool) returns (accepted: bool)
    requires Inv(e.graph) && t !in e.graph.txnBindings
    modifies e
    ensures Inv(e.graph) && Progress(old(e.graph), e.graph) && Legal(old(e.graph), e.graph)
    ensures var o := old(e.graph);
      && accepted == (w in o.wrappers && (readOnly || o.activeWriter == NoWriter) && !o.poisoned && nativeOk)
      && e.graph == if accepted then BeginTransaction(o, w, t, readOnly) else o
    ensures accepted ==>
      var o := old(e.graph);
      && e.graph == o.(
           txnBindings := o.txnBindings[t := Transaction(true, w, readOnly, PhaseActive, {}, {})],
           transactions := o.transactions + {t}, wrappers := o.wrappers[w := o.wrappers[w] + {t}],
           activeWriter := if readOnly then o.activeWriter else PublicWriter(t), native := e.graph.native)
      && (Tracked(o) ==> e.graph.native == o.native.(txns := o.native.txns[t := readOnly]))
  {
    hide Inv, InvMid, InvHeap, InvLife, BeginTransaction;
    if w !in e.graph.wrappers || (!readOnly && e.graph.activeWriter != NoWriter) || e.graph.poisoned || !nativeOk {
      return false;
    }
    MidOf(e.graph);
    ReferencedIsLive(e.graph);
    BeginTransactionKeeps(e.graph, w, t, readOnly);
    BegunAs(e.graph, w, t, readOnly);
    Kept(e.graph, BeginTransaction(e.graph, w, t, readOnly));
    e.graph := BeginTransaction(e.graph, w, t, readOnly);
    return true;
  }

  lemma BegunAs(g: Graph, w: Id, t: Id, readOnly: bool)
    requires w in g.wrappers
    ensures var g' := BeginTransaction(g, w, t, readOnly);
      && g' == g.(
           txnBindings := g.txnBindings[t := Transaction(true, w, readOnly, PhaseActive, {}, {})],
           transactions := g.transactions + {t}, wrappers := g.wrappers[w := g.wrappers[w] + {t}],
           activeWriter := if readOnly then g.activeWriter else PublicWriter(t), native := g'.native)
      && (!g.native.fault && !g'.native.fault ==> g'.native == g.native.(txns := g.native.txns[t := readOnly]))
  {
    hide WriterOpen;
  }

  /**
   The end of `t` makes a call LMDB forbids exactly when it closes a database that
   another open transaction has modified: the known gap of closing.
   */
  ghost predicate EndsLegally(o: Graph, g: Graph, t: Id, commit: bool) {
    t in o.txnBindings
    && (Tracked(o) ==> (g.native.fault <==> !MayEnd(o, t, commit)))
    && (o.poisoned ==> Legal(o, g))
  }

  /** `Txn.commit`; a failed native commit ends the transaction all the same. */
  method Commit(e: SharedEnvironment, t: Id, nativeOk: bool) returns (accepted: bool)
    requires Inv(e.graph)
    modifies e
    ensures Inv(e.graph) && Progress(old(e.graph), e.graph) && accepted == OpenTxn(old(e.graph), t)
    ensures if accepted then TransactionEnded(old(e.graph), e.graph, t, nativeOk) else e.graph == old(e.graph)
    ensures accepted ==> EndsLegally(old(e.graph), e.graph, t, nativeOk)
  {
    hide Inv, InvMid, InvHeap, InvLife, TransactionEnded, MayEnd;
    if !OpenTxn(e.graph, t) {
      return false;
    }
    EndTransaction(e, t, nativeOk);
    return true;
  }

  method Abort(e: SharedEnvironment, t: Id) returns (accepted: bool)
    requires Inv(e.graph)
    modifies e
    ensures Inv(e.graph) && Progress(old(e.graph), e.graph) && accepted == OpenTxn(old(e.graph), t)
    ensures if accepted then TransactionEnded(old(e.graph), e.graph, t, false) else e.graph == old(e.graph)
    ensures accepted ==> EndsLegally(old(e.graph), e.graph, t, false)
  {
    hide Inv, InvMid, InvHeap, InvLife, TransactionEnded, MayEnd;
    if !OpenTxn(e.graph, t) {
      return false;
    }
    EndTransaction(e, t, false);
    return true;
  }

  method EndTransaction(e: SharedEnvironment, t: Id, commit: bool)
    requires Inv(e.graph) && t in e.graph.transactions && t in e.graph.txnBindings && (commit ==> !e.graph.poisoned)
    modifies e
    ensures Inv(e.graph) && Progress(old(e.graph), e.graph) && TransactionEnded(old(e.graph), e.graph, t, commit)
    ensures EndsLegally(old(e.graph), e.graph, t, commit)
  {
    hide Inv, InvMid, InvHeap, InvLife, TransactionEnded, MayEnd;
    MidOf(e.graph);
    ReferencedIsLive(e.graph);
    e.EndTransactionBinding(t, commit);
    EndedFlags(old(e.graph), e.graph, t, commit);
    Kept(old(e.graph), e.graph);
  }

  lemma EndedFlags(o: Graph, g: Graph, t: Id, commit: bool)
    requires TransactionEnded(o, g, t, commit)
    ensures g.live == o.live && g.registered == o.registered && g.poisoned == o.poisoned && g.refCount == o.refCount
    ensures g.leases == o.leases && g.activeAsyncOperations == o.activeAsyncOperations && g.operations == o.operations
    ensures g.transactions == o.transactions - {t} && (o.poisoned ==> g.native == o.native)
    ensures g.activeWriter == if o.activeWriter == PublicWriter(t) then NoWriter else o.activeWriter
    ensures t in o.txnBindings
    ensures var w := o.txnBindings[t].wrapper;
      g.wrappers == if w in o.wrappers then o.wrappers[w := o.wrappers[w] - {t}] else o.wrappers
  {
    hide EndCursors, SettleBindings, SettleRecords, PendingRecords, WrittenByOthers;
  }

  /**
   `Txn.reset`.  The known gap: with a wrapper waiting for this transaction on a handle
   that is not committed yet the invariant is lost (`ResetTransactionKeepsIff`).
   */
  method Reset(e: SharedEnvironment, t: Id) returns (accepted: bool)
    requires Inv(e.graph)
    modifies e
    ensures accepted == (ActiveTxn(old(e.graph), t) && old(e.graph).txnBindings[t].readOnly)
    ensures if !accepted then e.graph == old(e.graph) else
      var o, txn := old(e.graph), old(e.graph).txnBindings[t];
      e.graph == o.(
        txnBindings := o.txnBindings[t := txn.(cursors := {}, phase := PhaseReset)],
        cursorBindings := EndCursors(o.cursorBindings, txn.cursors, CursorDetached),
        native := e.graph.native)
    ensures Progress(old(e.graph), e.graph) && Legal(old(e.graph), e.graph)
    ensures !accepted || OnlyCommittedPending(old(e.graph), t) ==> Inv(e.graph)
    ensures Tracked(old(e.graph)) && accepted ==> (Inv(e.graph) <==> OnlyCommittedPending(old(e.graph), t))
  {
    hide Inv, InvMid, InvHeap, InvLife, EndCursors, OnlyCommittedPending, ForgetCursor;
    if !ActiveTxn(e.graph, t) || !e.graph.txnBindings[t].readOnly {
      return false;
    }
    MidOf(e.graph);
    ReferencedIsLive(e.graph);
    e.PrepareTransactionCursorsForEnd(t);
    SamePending(old(e.graph), e.graph, t);
    ResetEffect(e.graph, t);
    e.graph := ResetTransaction(e.graph, t);
    if InvMid(e.graph, None, {}) { Kept(old(e.graph), e.graph); } else { NotKept(e.graph); }
    return true;
  }

  lemma NotKept(g: Graph)
    requires !InvMid(g, None, {})
    ensures !Inv(g)
  {
    hide InvMid, InvLife;
  }

  /** Reset is always legal; in step with LMDB it keeps the invariant exactly outside the gap. */
  lemma ResetEffect(g: Graph, t: Id)
    requires InvMid(g, None, {}) && g.live && !g.poisoned && t in g.transactions && t in g.txnBindings
    requires g.txnBindings[t].readOnly && g.txnBindings[t].cursors == {}
    ensures var g' := ResetTransaction(g, t);
      && (OnlyCommittedPending(g, t) ==> InvMid(g', None, {}))
      && (Tracked(g) ==> (InvMid(g', None, {}) <==> OnlyCommittedPending(g, t)) && !g'.native.fault)
  {
    hide OnlyCommittedPending, InvHeap, InvNative, TxnReset;
    if Tracked(g) {
      ResetTransactionKeepsIff(g, t);
      NativeTxnOpen(g, None, t);
      ResetIsLegal(g.native, t);
    } else {
      ResetTransactionHeap(g, t);
      FaultSticks(g.native);
    }
  }

  lemma ResetIsLegal(n: Lmdb, t: Id)
    requires t in n.txns && n.txns[t] && !n.fault
    ensures !TxnReset(n, t).fault
  {}

  lemma SamePending(o: Graph, g: Graph, t: Id)
    requires t in o.txnBindings && t in g.txnBindings && g.txnBindings[t].pendingDbis == o.txnBindings[t].pendingDbis
    requires g.dbiBindings == o.dbiBindings && g.records == o.records
    ensures OnlyCommittedPending(g, t) == OnlyCommittedPending(o, t)
  {}

  method Renew(e: SharedEnvironment, t: Id, nativeOk: bool) returns (accepted: bool)
    requires Inv(e.graph)
    modifies e
    ensures Inv(e.graph) && Progress(old(e.graph), e.graph) && Legal(old(e.graph), e.graph)
    ensures accepted == (OpenTxn(old(e.graph), t) && old(e.graph).txnBindings[t].phase == PhaseReset && nativeOk)
    ensures var o := old(e.graph);
      if accepted
      then
        && e.graph == o.(txnBindings := o.txnBindings[t := o.txnBindings[t].(phase := PhaseActive)])
        && ActiveTxn(e.graph, t)
      else e.graph == o
  {
    hide Inv, InvMid, InvHeap, InvLife;
    if !OpenTxn(e.graph, t) || e.graph.txnBindings[t].phase != PhaseReset || !nativeOk {
      return false;
    }
    MidOf(e.graph);
    ReferencedIsLive(e.graph);
    RenewTransactionKeeps(e.graph, t);
    Kept(e.graph, RenewTransaction(e.graph, t));
    e.graph := RenewTransaction(e.graph, t);
    return true;
  }

  // --------------------------------------------------------------- databases

  /**
   The `Dbi` constructor inside caller transaction `t`; LMDB returns handle `h`.  The
   open is legal exactly when no other open transaction has opened a database, and `h`
   is a handle LMDB may give to `t`.
   */
  method OpenDbiInTransaction(e: SharedEnvironment, w: Id, t: Id, b: Id, newRecord: Id, h: nat, nativeOk: bool)
    returns (accepted: bool)
    requires Inv(e.graph) && b !in e.graph.dbiBindings && newRecord !in e.graph.records
    modifies e
    ensures Inv(e.graph) && Progress(old(e.graph), e.graph)
    ensures accepted == (w in old(e.graph).wrappers && ActiveTxn(old(e.graph), t) && nativeOk)
    ensures accepted ==>
      (h in old(e.graph).dbiRecords ==> old(e.graph).dbiRecords[h] in old(e.graph).records)
      && e.graph == OpenPendingDbi(old(e.graph), b, h, newRecord, t)
    ensures !accepted ==> e.graph == old(e.graph)
    ensures Tracked(old(e.graph)) ==> (e.graph.native.fault <==> accepted && !MayOpen(old(e.graph).native, t, h))
  {
    hide Inv, InvMid, InvHeap, InvLife, MayOpen;
    if w !in e.graph.wrappers || !ActiveTxn(e.graph, t) || !nativeOk {
      return false;
    }
    MidOf(e.graph);
    ReferencedIsLive(e.graph);
    OpenPendingDbiKeeps(e.graph, b, h, newRecord, t);
    Kept(e.graph, OpenPendingDbi(e.graph, b, h, newRecord, t));
    e.graph := OpenPendingDbi(e.graph, b, h, newRecord, t);
    return true;
  }

  /** How far the internal transaction of an open or a drop gets. */
  datatype Outcome = BeginFails | CallFails | CommitFails | Succeeds

  lemma BeginThenAbort(n: Lmdb, t: Id, readOnly: bool)
    requires n.envOpen && t !in n.txns && n.openers <= n.txns.Keys && (readOnly || !WriterOpen(n))
    requires forall k :: k in n.slots ==> n.slots[k] != Private(t)
    requires forall c :: c in n.cursors ==> n.cursors[c].txn in n.txns
    requires WrittenOk(n.written, n.txns)
    ensures TxnEnd(TxnBegin(n, t, readOnly), t, false) == n
  {
    NothingWritten(n.written, n.txns, t);
    hide WriterOpen, WrittenOk;
    AddedThenRemoved(n.txns, t, readOnly);
    NothingFiltered(n.cursors, t, n.txns);
    assert n.openers - {t} == n.openers;
    assert EndedSlots(n.slots, t, false) == n.slots;
  }

  /** A transaction the graph does not know owns nothing natively. */
  lemma ForeignTxn(g: Graph, t: Id)
    requires InvHeap(g, {}) && InvNative(g, None) && t !in g.transactions
    ensures g.native.envOpen && t !in g.native.txns && (!g.activeWriter.PublicWriter? ==> !WriterOpen(g.native))
    ensures g.native.openers <= g.native.txns.Keys
    ensures forall k :: k in g.native.slots ==> g.native.slots[k] != Private(t)
    ensures forall c :: c in g.native.cursors ==> g.native.cursors[c].txn in g.native.txns
    ensures WrittenOk(g.native.written, g.native.txns)
  {
    hide DbisOk, LeaseCountsOk, RecordsOk, CursorCountsOk, PrivateOk, WriterOpen, WrittenOk;
    NotOpen(g, t);
  }

  lemma BeganAndAborted(g: Graph, t: Id, readOnly: bool)
    requires InvHeap(g, {}) && InvNative(g, None) && t !in g.transactions
    requires !readOnly ==> !g.activeWriter.PublicWriter?
    ensures g.(native := TxnEnd(TxnBegin(g.native, t, readOnly), t, false)) == g
  {
    hide InvHeap, InvNative, TxnEnd, TxnBegin, WriterOpen, WrittenOk;
    ForeignTxn(g, t);
    BeginThenAbort(g.native, t, readOnly);
    assert g.(native := g.native) == g;
  }

  /** The two halves do not depend on each other for the steps of a transaction that is not in the graph. */
  lemma NativeOnly(g: Graph, n: Lmdb)
    requires InvMid(g, None, {}) && g.native.fault && n.fault
    ensures InvMid(g.(native := n), None, {})
  {
    hide InvHeap, InvNative;
    NativeIgnored(g, n);
  }

  /** A begin and an abort change nothing, unless LMDB is in disarray already. */
  lemma BegunInVain(g: Graph, t: Id, readOnly: bool)
    requires InvMid(g, None, {}) && g.live && !g.poisoned && t !in g.transactions
    requires !readOnly ==> !g.activeWriter.PublicWriter?
    ensures var g' := g.(native := TxnEnd(TxnBegin(g.native, t, readOnly), t, false));
      InvMid(g', None, {}) && (Tracked(g) ==> g' == g)
  {
    hide InvMid, TxnEnd, TxnBegin;
    HeapOf(g, None, {});
    if Tracked(g) {
      hide InvHeap, InvNative;
      BeganAndAborted(g, t, readOnly);
    } else {
      FaultSticks(g.native);
      FaultSticks(TxnBegin(g.native, t, readOnly));
      NativeOnly(g, TxnEnd(TxnBegin(g.native, t, readOnly), t, false));
    }
  }

  predicate GotToCall(outcome: Outcome) { outcome == CommitFails || outcome == Succeeds }

  /** Begins `t`, opens the database in it and commits, or gives up on the way. */
  method OpenInternally(e: SharedEnvironment, t: Id, b: Id, newRecord: Id, h: nat, create: bool, outcome: Outcome)
    requires InvMid(e.graph, None, {}) && e.graph.live && !e.graph.poisoned
    requires b !in e.graph.dbiBindings && newRecord !in e.graph.records && t !in e.graph.transactions
    requires create ==> !e.graph.activeWriter.PublicWriter?
    modifies e
    ensures InvMid(e.graph, None, {})
    ensures h in old(e.graph).dbiRecords ==> old(e.graph).dbiRecords[h] in old(e.graph).records
    ensures e.graph == if outcome == Succeeds then OpenCommittedDbi(old(e.graph), b, h, newRecord, t, create, true)
                       else old(e.graph).(native := e.graph.native)
    ensures Tracked(old(e.graph)) ==>
      && (e.graph.native.fault <==> GotToCall(outcome) && old(e.graph).native.openers != {})
      && (!e.graph.native.fault && outcome != Succeeds ==> e.graph == old(e.graph))
  {
    hide InvMid, InvHeap, InvNative, OpenCommittedDbi, TxnEnd, TxnBegin, DbiOpen;
    HeapOf(e.graph, None, {});
    OpenCommittedDbiKeeps(e.graph, b, h, newRecord, t, create, outcome == Succeeds);
    SameNative(e.graph);
    match outcome {
      case BeginFails =>
      case CallFails =>
        BegunInVain(e.graph, t, !create);
        e.graph := e.graph.(native := TxnEnd(TxnBegin(e.graph.native, t, !create), t, false));
      case CommitFails =>
        FailedOpen(e.graph, b, h, newRecord, t, create);
        e.graph := OpenCommittedDbi(e.graph, b, h, newRecord, t, create, false);
      case Succeeds =>
        e.graph := OpenCommittedDbi(e.graph, b, h, newRecord, t, create, true);
    }
  }

  lemma SameNative(g: Graph)
    ensures g.(native := g.native) == g
  {}

  /**
   The `Dbi` constructor with a transaction `t` of its own.  The open is legal exactly
   when no open transaction has opened a database, which LMDB asks for.
   */
  method OpenDbi(e: SharedEnvironment, w: Id, t: Id, token: Id, b: Id, newRecord: Id, h: nat, create: bool,
                 outcome: Outcome)
    returns (accepted: bool)
    requires Inv(e.graph) && b !in e.graph.dbiBindings && newRecord !in e.graph.records && t !in e.graph.transactions
    modifies e
    ensures Inv(e.graph) && Progress(old(e.graph), e.graph)
    ensures accepted == (w in old(e.graph).wrappers && !old(e.graph).poisoned
                         && (create ==> old(e.graph).activeWriter == NoWriter) && outcome == Succeeds)
    ensures if MayTryOpen(old(e.graph), w, create)
      then OpenedAs(old(e.graph), e.graph, b, h, newRecord, t, create, outcome) else e.graph == old(e.graph)
  {
    hide Inv, InvMid, InvHeap, InvLife, InvNative, OpenCommittedDbi, GotToCall, Progress, OpenedAs, ReserveWriter,
         ReleaseWriter;
    if !MayTryOpen(e.graph, w, create) {
      StaysPut(e.graph);
      return false;
    }
    MidOf(e.graph);
    ReferencedIsLive(e.graph);
    ghost var o := e.graph;
    ReservedFields(o, token);
    WriterSlotKeeps(o, token);
    if create {
      e.graph := ReserveWriter(e.graph, token);
    }
    ghost var g := e.graph;
    OpenInternally(e, t, b, newRecord, h, create, outcome);
    WriterSlotKeeps(e.graph, token);
    OpenedFrom(o, g, e.graph, token, b, h, newRecord, t, create, outcome);
    if create {
      e.graph := ReleaseWriter(e.graph, token);
    }
    OpenedAsFlags(o, e.graph, b, h, newRecord, t, create, outcome);
    Kept(o, e.graph);
    return outcome == Succeeds;
  }

  lemma ReservedFields(g: Graph, token: Id)
    ensures ReserveWriter(g, token) == g.(activeWriter := InternalWriter(token))
  {}

  lemma OpenedAsFlags(o: Graph, g: Graph, b: Id, h: nat, newRecord: Id, t: Id, create: bool, outcome: Outcome)
    requires OpenedAs(o, g, b, h, newRecord, t, create, outcome)
    ensures g.live == o.live && g.registered == o.registered && g.poisoned == o.poisoned && g.refCount == o.refCount
  {
    hide OpenCommittedDbi, GotToCall;
  }

  lemma StaysPut(g: Graph)
    ensures Progress(g, g) && Legal(g, g)
  {}

  /** What the internal open makes of graph `o`, whether it reserves the writer slot meanwhile or not. */
  ghost predicate OpenedAs(o: Graph, g: Graph, b: Id, h: nat, newRecord: Id, t: Id, create: bool, outcome: Outcome) {
    && (h in o.dbiRecords ==> o.dbiRecords[h] in o.records)
    && g == (if outcome == Succeeds then OpenCommittedDbi(o, b, h, newRecord, t, create, true)
             else o.(native := g.native))
    && (Tracked(o) ==>
          && (g.native.fault <==> GotToCall(outcome) && o.native.openers != {})
          && (!g.native.fault && outcome != Succeeds ==> g == o))
    && g.live == o.live && g.registered == o.registered && g.poisoned == o.poisoned && g.refCount == o.refCount
  }

  lemma OpenedFrom(o: Graph, r: Graph, g: Graph, token: Id, b: Id, h: nat, newRecord: Id, t: Id, create: bool,
                   outcome: Outcome)
    requires r == if create then ReserveWriter(o, token) else o
    requires create ==> o.activeWriter == NoWriter
    requires h in o.dbiRecords ==> o.dbiRecords[h] in o.records
    requires g == if outcome == Succeeds then OpenCommittedDbi(r, b, h, newRecord, t, create, true)
                  else r.(native := g.native)
    requires Tracked(r) ==>
      && (g.native.fault <==> GotToCall(outcome) && r.native.openers != {})
      && (!g.native.fault && outcome != Succeeds ==> g == r)
    ensures OpenedAs(o, if create then ReleaseWriter(g, token) else g, b, h, newRecord, t, create, outcome)
  {
    hide OpenCommittedDbi, GotToCall;
    OpenedUnderReservation(o, r.activeWriter, b, h, newRecord, t, create);
    if outcome != Succeeds { SameNative(o); }
  }

  predicate MayTryOpen(g: Graph, w: Id, create: bool) {
    w in g.wrappers && !g.poisoned && (create ==> g.activeWriter == NoWriter)
  }

  /** A failed commit leaves neither a handle nor a record. */
  lemma FailedOpen(g: Graph, b: Id, h: nat, newRecord: Id, t: Id, create: bool)
    requires InvMid(g, None, {}) && t !in g.transactions && (create ==> !g.activeWriter.PublicWriter?)
    requires h in g.dbiRecords ==> g.dbiRecords[h] in g.records
    ensures var g' := OpenCommittedDbi(g, b, h, newRecord, t, create, false);
      g' == g.(native := g'.native) && (Tracked(g) && g.native.openers == {} ==> g' == g)
  {
    hide InvHeap, InvNative, TxnEnd, TxnBegin, DbiOpen, WrittenOk;
    if Tracked(g) && g.native.openers == {} {
      QuietNative(g, None);
      ForeignTxn(g, t);
      InternalOpen(g.native, t, h, !create, false);
      assert g.(native := g.native) == g;
    }
  }

  lemma RegisterIgnoresWriter(g: Graph, writer: Writer, b: Id, h: nat, newRecord: Id)
    requires h in g.dbiRecords ==> g.dbiRecords[h] in g.records
    ensures RegisterDbi(g.(activeWriter := writer), b, h, newRecord, None)
         == RegisterDbi(g, b, h, newRecord, None).(activeWriter := writer)
    ensures var g' := RegisterDbi(g, b, h, newRecord, None);
      && g'.live == g.live && g'.registered == g.registered && g'.poisoned == g.poisoned && g'.refCount == g.refCount
      && g'.activeWriter == g.activeWriter
  {}

  /** The reservation is only there to keep other writers out. */
  lemma OpenedUnderReservation(o: Graph, writer: Writer, b: Id, h: nat, newRecord: Id, t: Id, create: bool)
    requires h in o.dbiRecords ==> o.dbiRecords[h] in o.records
    ensures OpenCommittedDbi(o.(activeWriter := writer), b, h, newRecord, t, create, true)
         == OpenCommittedDbi(o, b, h, newRecord, t, create, true).(activeWriter := writer)
    ensures var g' := OpenCommittedDbi(o, b, h, newRecord, t, create, true);
      && g'.live == o.live && g'.registered == o.registered && g'.poisoned == o.poisoned && g'.refCount == o.refCount
      && g'.activeWriter == o.activeWriter
  {
    hide TxnEnd, TxnBegin, DbiOpen, RegisterDbi;
    var n := TxnEnd(DbiOpen(TxnBegin(o.native, t, !create), t, h), t, true);
    RegisterIgnoresWriter(o.(native := n), writer, b, h, newRecord);
  }

  /**
   `Dbi.close`, which also closes the handle when nothing else refers to it.  The
   known gap: the code does not ask whether an open transaction has modified the
   database, so that LMDB forbids the close exactly outside `MayCloseDbi`.
   */
  method CloseDbi(e: SharedEnvironment, b: Id) returns (accepted: bool)
    requires Inv(e.graph)
    modifies e
    ensures Inv(e.graph) && Progress(old(e.graph), e.graph) && accepted == LiveDbi(old(e.graph), b)
    ensures e.graph == if accepted then ReleaseDbi(old(e.graph), b, true) else old(e.graph)
    ensures Tracked(old(e.graph)) ==> (e.graph.native.fault <==> accepted && !MayCloseDbi(old(e.graph), b))
  {
    hide Inv, InvMid, InvHeap, InvLife, ReleaseDbi, MayCloseDbi;
    if !LiveDbi(e.graph, b) {
      return false;
    }
    FinalizeDbi(e, b);
    return true;
  }

  /** The finalizer of a database wrapper: the same release, accepted in every state. */
  method FinalizeDbi(e: SharedEnvironment, b: Id)
    requires Inv(e.graph) && b in e.graph.dbiBindings && e.graph.dbiBindings[b].record in e.graph.records
    modifies e
    ensures Inv(e.graph) && Progress(old(e.graph), e.graph) && e.graph == ReleaseDbi(old(e.graph), b, true)
    ensures Tracked(old(e.graph)) ==> (e.graph.native.fault <==> !MayCloseDbi(old(e.graph), b))
    ensures old(e.graph).poisoned ==> Legal(old(e.graph), e.graph)
  {
    hide Inv, InvMid, InvHeap, InvLife, ReleaseDbi, MayCloseDbi;
    MidOf(e.graph);
    ReferencedIsLive(e.graph);
    OpenDbiIsListed(e.graph, b);
    ReleaseDbiKeeps(e.graph, b, true);
    if e.graph.dbiBindings[b].closed {
      ReleasedTwice(e.graph, b);
      e.ReleaseDbiBinding(b, true);
    } else {
      ReleaseDbiFrame(e.graph, b, true);
      e.ReleaseDbiBinding(b, true);
      StillRetained(old(e.graph));
      Kept(old(e.graph), e.graph);
    }
  }

  lemma ReleasedTwice(g: Graph, b: Id)
    requires b in g.dbiBindings && g.dbiBindings[b].record in g.records && g.dbiBindings[b].closed
    ensures ReleaseDbi(g, b, true) == g
  {}

  /** A reference count is zero or it is not: the two cases of `Kept` for a step that leaves it alone. */
  lemma StillRetained(o: Graph)
    requires Inv(o)
    ensures o.refCount >= 0
  {
    hide InvHeap;
    MidOf(o);
    CountsLow(o);
  }

  /**
   `Dbi.drop` inside caller transaction `t`.  The known gap: a deleting drop is
   forbidden while a cursor is open on the handle, and loses the invariant when it
   leaves cursors on a committed record (`DropInTransactionKeepsIff`).  LMDB refuses a
   drop in a read-only transaction.
   */
  method DropInTxn(e: SharedEnvironment, b: Id, t: Id, del: bool, nativeOk: bool) returns (accepted: bool)
    requires Inv(e.graph)
    modifies e
    ensures accepted == (MayDropIn(old(e.graph), b, t) && nativeOk)
    ensures if !accepted then e.graph == old(e.graph)
      else if del then e.graph == DropInTransaction(old(e.graph), old(e.graph).dbiBindings[b].record, t)
      else Writes(old(e.graph), e.graph, t, HandleOf(old(e.graph), b))
    ensures Progress(old(e.graph), e.graph)
    ensures accepted && del ==>
      var o, r := old(e.graph), old(e.graph).dbiBindings[b].record;
      && ((o.records[r].committed ==> o.records[r].cursorRefs == 0) ==> Inv(e.graph))
      && (Tracked(o) ==>
            && (e.graph.native.fault <==> CursorOnSlot(o.native, HandleOf(o, b)))
            && (Inv(e.graph) && !e.graph.native.fault <==> Droppable(o, r)))
    ensures !accepted || !del ==> Inv(e.graph) && Legal(old(e.graph), e.graph)
  {
    hide Inv, InvMid, InvHeap, InvLife, DropInTransaction, Drop, Droppable, CursorOnSlot, Wrote, Progress;
    if !MayDropIn(e.graph, b, t) || !nativeOk {
      StaysPut(e.graph);
      return false;
    }
    var r := e.graph.dbiBindings[b].record;
    MidOf(e.graph);
    ReferencedIsLive(e.graph);
    OpenDbiIsMapped(e.graph, b, r);
    PendingWitness(e.graph, b, t);
    if del {
      DropEffect(e.graph, r, t);
      DropFrame(e.graph, r, t);
      e.graph := DropInTransaction(e.graph, r, t);
      if InvMid(e.graph, None, {}) { Kept(old(e.graph), e.graph); } else { NotKept(e.graph); }
      StillLive(old(e.graph), e.graph);
    } else {
      WriteEffect(e.graph, t, b, r);
      e.graph := e.graph.(native := Drop(e.graph.native, t, e.graph.records[r].handle, false));
      Kept(old(e.graph), e.graph);
    }
    return true;
  }

  predicate MayDropIn(g: Graph, b: Id, t: Id) {
    DbiForTxn(g, b, t) && NotRetained(g, b) && ActiveTxn(g, t) && !g.txnBindings[t].readOnly
  }

  /** A live environment that is not poisoned owes `Progress` nothing. */
  lemma StillLive(o: Graph, g: Graph)
    requires o.live && !o.poisoned
    ensures Progress(o, g)
  {}

  /** The deleting drop of an open wrapper's record, in step with LMDB or not. */
  lemma DropEffect(g: Graph, r: Id, t: Id)
    requires InvMid(g, None, {}) && g.live && !g.poisoned && r in g.records && Mapped(g, r)
    requires g.records[r].batchRefs == 0 && t in g.transactions && t in g.txnBindings && !g.txnBindings[t].readOnly
    requires !g.records[r].committed ==>
      exists b :: b in g.records[r].pending && b in g.dbiBindings && g.dbiBindings[b].pendingTxn == Some(t)
    ensures var g' := DropInTransaction(g, r, t);
      && ((g.records[r].committed ==> g.records[r].cursorRefs == 0) ==> InvMid(g', None, {}))
      && (Tracked(g) ==>
            && (g'.native.fault <==> CursorOnSlot(g.native, g.records[r].handle))
            && (InvMid(g', None, {}) && !g'.native.fault <==> Droppable(g, r)))
  {
    hide InvHeap, InvNative, Drop, CursorOnSlot, InvalidateRecord;
    var n := Drop(g.native, t, g.records[r].handle, true);
    InvalidateRecordHeapIff(g, r);
    InvalidateFlags(g, n, r);
    NativeIgnored(InvalidateRecord(g, r), n);
    if Tracked(g) {
      DropInTransactionKeepsIff(g, r, t);
      DropLegal(g, r, t);
    } else {
      FaultSticks(g.native);
    }
  }

  lemma PendingWitness(g: Graph, b: Id, t: Id)
    requires InvHeap(g, {}) && DbiForTxn(g, b, t)
    ensures !g.records[g.dbiBindings[b].record].committed ==>
      b in g.records[g.dbiBindings[b].record].pending && b in g.dbiBindings && g.dbiBindings[b].pendingTxn == Some(t)
  {
    hide TxnsOk, CursorsOk, CursorCountsOk, LeaseCountsOk, ShapeOk, HandleMapOk, PendingTxnsOk, OpenDbisOk;
    assert b in g.records[g.dbiBindings[b].record].wrappers;
  }

  lemma DropFrame(g: Graph, r: Id, t: Id)
    requires r in g.records
    ensures var g' := DropInTransaction(g, r, t);
      g'.live == g.live && g'.registered == g.registered && g'.poisoned == g.poisoned && g'.refCount == g.refCount
  {}

  function HandleOf(g: Graph, b: Id): nat
    requires b in g.dbiBindings && g.dbiBindings[b].record in g.records
  {
    g.records[g.dbiBindings[b].record].handle
  }

  /** The graph once `t` has modified the database behind `h`. */
  function Wrote(g: Graph, t: Id, h: nat): Graph {
    g.(native := g.native.(written := g.native.written + {(t, h)}))
  }

  /** Emptying a database modifies it like a put. */
  lemma Emptied(g: Graph, t: Id, r: Id)
    requires r in g.records && t in g.native.txns && !g.native.txns[t] && Usable(g.native, t, g.records[r].handle)
    ensures var h := g.records[r].handle;
      && g.(native := Drop(g.native, t, h, false)) == Wrote(g, t, h)
      && g.(native := Write(g.native, t, h)) == Wrote(g, t, h)
  {}

  lemma WroteKeeps(g: Graph, t: Id, h: nat)
    requires InvMid(g, None, {}) && (Tracked(g) ==> t in g.native.txns && !g.native.txns[t])
    ensures InvMid(Wrote(g, t, h), None, {}) && Legal(g, Wrote(g, t, h))
    ensures var g' := Wrote(g, t, h);
      g'.live == g.live && g'.registered == g.registered && g'.poisoned == g.poisoned && g'.refCount == g.refCount
  {
    hide InvHeap, NativeTxnsOk, NativeCursorsOk, SlotsOk, PrivateOk;
    NativeIgnored(g, Wrote(g, t, h).native);
  }

  /** Only LMDB sees a write, and unless it was in disarray before it takes note of it. */
  ghost predicate Writes(o: Graph, g: Graph, t: Id, h: nat) {
    g == o.(native := g.native) && (Tracked(o) ==> g == Wrote(o, t, h))
  }

  /** A write through an open wrapper is legal. */
  lemma WriteEffect(g: Graph, t: Id, b: Id, r: Id)
    requires InvMid(g, None, {}) && g.live && DbiForTxn(g, b, t) && g.dbiBindings[b].record == r
    requires ActiveTxn(g, t) && !g.txnBindings[t].readOnly
    ensures WrittenLegally(g, g.(native := Drop(g.native, t, g.records[r].handle, false)), t, HandleOf(g, b))
    ensures WrittenLegally(g, g.(native := Write(g.native, t, g.records[r].handle)), t, HandleOf(g, b))
  {
    hide InvHeap, InvNative, Wrote, Drop, Write;
    if Tracked(g) {
      WrapperUsable(g, t, b, r);
      NativeTxnOpen(g, None, t);
      Emptied(g, t, r);
      WroteKeeps(g, t, HandleOf(g, b));
    } else {
      FaultSticks(g.native);
      NativeOnly(g, Drop(g.native, t, g.records[r].handle, false));
      NativeOnly(g, Write(g.native, t, g.records[r].handle));
    }
  }

  ghost predicate WrittenLegally(o: Graph, g: Graph, t: Id, h: nat) {
    Writes(o, g, t, h) && InvMid(g, None, {}) && Legal(o, g)
  }

  /** `put` and `del` of a transaction; LMDB refuses them in a read-only one. */
  method WriteInTxn(e: SharedEnvironment, t: Id, b: Id, nativeOk: bool) returns (accepted: bool)
    requires Inv(e.graph)
    modifies e
    ensures Inv(e.graph) && Progress(old(e.graph), e.graph) && Legal(old(e.graph), e.graph)
    ensures accepted == (ActiveTxn(old(e.graph), t) && DbiForTxn(old(e.graph), b, t)
                         && !old(e.graph).txnBindings[t].readOnly && nativeOk)
    ensures if accepted then Writes(old(e.graph), e.graph, t, HandleOf(old(e.graph), b)) else e.graph == old(e.graph)
    ensures accepted && Tracked(old(e.graph)) ==> (t, HandleOf(old(e.graph), b)) in e.graph.native.written
  {
    hide Inv, InvMid, InvHeap, InvLife, Write;
    if !ActiveTxn(e.graph, t) || !DbiForTxn(e.graph, b, t) || e.graph.txnBindings[t].readOnly || !nativeOk {
      return false;
    }
    var r := e.graph.dbiBindings[b].record;
    MidOf(e.graph);
    ReferencedIsLive(e.graph);
    WriteEffect(e.graph, t, b, r);
    e.graph := e.graph.(native := Write(e.graph.native, t, e.graph.records[r].handle));
    Kept(old(e.graph), e.graph);
    return true;
  }

  /**
   `Dbi.drop` with a write transaction `t` of its own.  The known gap: a deleting drop
   is forbidden while a cursor is open on the handle, and loses the invariant when it
   leaves cursors or its commit fails (`DropInternallyKeepsIff`).
   */
  method DropDbi(e: SharedEnvironment, b: Id, t: Id, token: Id, del: bool, outcome: Outcome) returns (accepted: bool)
    requires Inv(e.graph) && t !in e.graph.transactions
    modifies e
    ensures Progress(old(e.graph), e.graph)
    ensures accepted == (MayTryDrop(old(e.graph), b) && outcome == Succeeds)
    ensures if MayTryDrop(old(e.graph), b)
      then DroppedAs(old(e.graph), e.graph, old(e.graph).dbiBindings[b].record, t, del, outcome)
      else e.graph == old(e.graph)
    ensures DropSafe(old(e.graph), b, del, outcome) ==> Inv(e.graph) && Legal(old(e.graph), e.graph)
  {
    hide Inv, InvMid, InvHeap, InvLife, Progress, DroppedAs, DropInternally;
    if !MayTryDrop(e.graph, b) {
      StaysPut(e.graph);
      return false;
    }
    var r := e.graph.dbiBindings[b].record;
    ghost var o := e.graph;
    MidOf(o);
    ReferencedIsLive(o);
    OpenDbiIsListed(o, b);
    OpenDbiIsMapped(o, b, r);
    WriterSlotKeeps(o, token);
    e.graph := ReserveWriter(e.graph, token);
    ghost var g := e.graph;
    match outcome {
      case BeginFails =>
      case CallFails =>
        e.graph := e.graph.(native := TxnEnd(TxnBegin(e.graph.native, t, false), t, false));
      case CommitFails =>
        e.graph := DropInternally(e.graph, r, t, del, false);
      case Succeeds =>
        e.graph := DropInternally(e.graph, r, t, del, true);
    }
    DropInternallyEffect(g, e.graph, r, t, del, outcome);
    DroppedFrom(o, g, e.graph, token, r, t, del, outcome);
    if InvMid(e.graph, None, {}) { WriterSlotKeeps(e.graph, token); }
    e.graph := ReleaseWriter(e.graph, token);
    StillRetained(o);
    DroppedFlags(o, e.graph, r, t, del, outcome);
    if InvMid(e.graph, None, {}) { Kept(o, e.graph); } else { StillLive(o, e.graph); }
    return outcome == Succeeds;
  }

  predicate MayTryDrop(g: Graph, b: Id) {
    LiveDbi(g, b) && NotRetained(g, b) && g.dbiBindings[b].pendingTxn == None && g.activeWriter == NoWriter
  }

  /** LMDB is not asked to delete, or does delete, commits, and finds no cursor. */
  predicate DropSafe(g: Graph, b: Id, del: bool, outcome: Outcome) {
    MayTryDrop(g, b) && del && GotToCall(outcome) ==>
      outcome == Succeeds && g.records[g.dbiBindings[b].record].cursorRefs == 0
  }

  /** What the drop with its own transaction makes of graph `o`. */
  ghost predicate DroppedAs(o: Graph, g: Graph, r: Id, t: Id, del: bool, outcome: Outcome) {
    && r in o.records
    && g == (if del && GotToCall(outcome) then DropInternally(o, r, t, true, outcome == Succeeds)
             else o.(native := g.native))
    && (Tracked(o) ==>
          && (g.native.fault <==> del && GotToCall(outcome) && CursorOnSlot(o.native, o.records[r].handle))
          && (!(del && GotToCall(outcome)) ==> g == o))
  }

  /** One way through the internal transaction, from graph `g` with the writer slot reserved. */
  lemma DropInternallyEffect(g: Graph, g': Graph, r: Id, t: Id, del: bool, outcome: Outcome)
    requires InvMid(g, None, {}) && g.live && !g.poisoned && !g.activeWriter.PublicWriter? && t !in g.transactions
    requires r in g.records && Mapped(g, r) && g.records[r].committed && g.records[r].batchRefs == 0
    requires g' == match outcome
                   case BeginFails => g
                   case CallFails => g.(native := TxnEnd(TxnBegin(g.native, t, false), t, false))
                   case CommitFails => DropInternally(g, r, t, del, false)
                   case Succeeds => DropInternally(g, r, t, del, true)
    ensures DroppedAs(g, g', r, t, del, outcome)
    ensures (del && GotToCall(outcome) ==> outcome == Succeeds && g.records[r].cursorRefs == 0) ==>
      InvMid(g', None, {}) && Legal(g, g')
  {
    hide InvMid, InvHeap, InvNative, DropInternally, TxnBegin, TxnEnd, CursorOnSlot;
    HeapOf(g, None, {});
    SameNative(g);
    match outcome
    case BeginFails =>
    case CallFails => BegunInVain(g, t, false);
    case CommitFails => DropCallEffect(g, r, t, del, false);
    case Succeeds => DropCallEffect(g, r, t, del, true);
  }

  lemma DropCallEffect(g: Graph, r: Id, t: Id, del: bool, commit: bool)
    requires InvMid(g, None, {}) && g.live && !g.poisoned && !g.activeWriter.PublicWriter? && t !in g.transactions
    requires r in g.records && Mapped(g, r) && g.records[r].committed && g.records[r].batchRefs == 0
    ensures var g' := DropInternally(g, r, t, del, commit);
      && (!del ==> g' == g.(native := g'.native))
      && (Tracked(g) ==>
            (g'.native.fault <==> del && CursorOnSlot(g.native, g.records[r].handle)) && (!del ==> g' == g))
      && ((del ==> commit && g.records[r].cursorRefs == 0) ==> InvMid(g', None, {}) && Legal(g, g'))
  {
    hide InvHeap, InvNative, TxnBegin, TxnEnd, Drop, CursorOnSlot, InvalidateRecord;
    var n := TxnEnd(Drop(TxnBegin(g.native, t, false), t, g.records[r].handle, del), t, commit);
    InvalidateFlags(g, n, r);
    if Tracked(g) {
      DropInternallyKeepsIff(g, r, t, del, commit);
      DropFault(g, r, t, del, commit);
      if !del { EmptiedInternally(g, r, t, commit); }
    } else {
      FaultSticks(g.native);
      FaultSticks(TxnBegin(g.native, t, false));
      FaultSticks(Drop(TxnBegin(g.native, t, false), t, g.records[r].handle, del));
      InvalidateRecordHeapIff(g, r);
      NativeIgnored(g, n);
      NativeIgnored(InvalidateRecord(g, r), n);
    }
  }

  /** Once begun, the drop is forbidden exactly for a cursor on the handle. */
  lemma DropFault(g: Graph, r: Id, t: Id, del: bool, commit: bool)
    requires InvHeap(g, {}) && InvNative(g, None) && !g.activeWriter.PublicWriter? && t !in g.transactions
    requires r in g.records && Mapped(g, r) && g.records[r].committed
    ensures var h := g.records[r].handle;
      TxnEnd(Drop(TxnBegin(g.native, t, false), t, h, del), t, commit).fault <==> del && CursorOnSlot(g.native, h)
  {
    hide InvHeap, TxnEnd, TxnBegin, Drop, WriterOpen, CursorOnSlot, WrittenOk;
    InvNativeTracks(g, None);
    hide InvNative;
    InternalDropLegal(g, r, t);
    if del && CursorOnSlot(g.native, g.records[r].handle) {
      CursorOnDropFaults(g.native, t, g.records[r].handle, commit);
    } else {
      InternalDrop(g.native, t, g.records[r].handle, del, commit);
    }
  }

  lemma EmptiedInternally(g: Graph, r: Id, t: Id, commit: bool)
    requires InvHeap(g, {}) && InvNative(g, None) && !g.activeWriter.PublicWriter? && t !in g.transactions
    requires r in g.records && Mapped(g, r) && g.records[r].committed
    ensures DropInternally(g, r, t, false, commit) == g
  {
    hide InvHeap, InvNative, TxnEnd, TxnBegin, Drop, InvalidateRecord, WrittenOk, WriterOpen;
    InternalDropLegal(g, r, t);
    InternalDrop(g.native, t, g.records[r].handle, false, commit);
    SameNative(g);
  }

  lemma DroppedFrom(o: Graph, r: Graph, g: Graph, token: Id, record: Id, t: Id, del: bool, outcome: Outcome)
    requires r == ReserveWriter(o, token) && o.activeWriter == NoWriter && record in o.records
    requires DroppedAs(r, g, record, t, del, outcome)
    ensures DroppedAs(o, ReleaseWriter(g, token), record, t, del, outcome)
    ensures ReleaseWriter(g, token).native == g.native
  {
    hide GotToCall, CursorOnSlot, DropInternally;
    DroppedUnderReservation(o, token, record, t, outcome == Succeeds);
    SameNative(o);
    ReservationEnds(o, g, token);
    assert Tracked(r) == Tracked(o);
    if del && GotToCall(outcome) {
      assert ReleaseWriter(g, token) == DropInternally(o, record, t, true, outcome == Succeeds);
    }
  }

  /** A reservation that saw native calls only leaves no trace. */
  lemma ReservationEnds(o: Graph, g: Graph, token: Id)
    requires o.activeWriter == NoWriter
    ensures g == ReserveWriter(o, token).(native := g.native) ==> ReleaseWriter(g, token) == o.(native := g.native)
    ensures ReleaseWriter(g, token).native == g.native
  {}

  lemma DroppedFlags(o: Graph, g: Graph, r: Id, t: Id, del: bool, outcome: Outcome)
    requires DroppedAs(o, g, r, t, del, outcome)
    ensures g.live == o.live && g.registered == o.registered && g.poisoned == o.poisoned && g.refCount == o.refCount
    ensures g.leases == o.leases && g.activeAsyncOperations == o.activeAsyncOperations
      && g.activeWriter == o.activeWriter
  {
    hide TxnEnd, TxnBegin, Drop, GotToCall, CursorOnSlot;
  }

  lemma DroppedUnderReservation(o: Graph, token: Id, r: Id, t: Id, commit: bool)
    requires r in o.records && o.activeWriter == NoWriter
    ensures ReleaseWriter(DropInternally(ReserveWriter(o, token), r, t, true, commit), token)
      == DropInternally(o, r, t, true, commit)
    ensures DropInternally(ReserveWriter(o, token), r, t, true, commit).activeWriter == InternalWriter(token)
    ensures DropInternally(ReserveWriter(o, token), r, t, true, commit).native
      == DropInternally(o, r, t, true, commit).native
  {
    hide TxnEnd, TxnBegin, Drop;
  }

  // ----------------------------------------------------------------- cursors

  method OpenCursorIn(e: SharedEnvironment, c: Id, t: Id, b: Id, nativeOk: bool) returns (accepted: bool)
    requires Inv(e.graph) && c !in e.graph.cursorBindings
    modifies e
    ensures Inv(e.graph) && Progress(old(e.graph), e.graph) && Legal(old(e.graph), e.graph)
    ensures accepted == (ActiveTxn(old(e.graph), t) && DbiForTxn(old(e.graph), b, t) && nativeOk)
    ensures e.graph == if accepted then OpenCursor(old(e.graph), c, t, b) else old(e.graph)
    ensures accepted ==>
      var o, r := old(e.graph), old(e.graph).dbiBindings[b].record;
      && e.graph == o.(
           cursorBindings := o.cursorBindings[
             c := CursorBinding(true, Some(t), b, o.txnBindings[t].readOnly, CursorActive)],
           cursors := o.cursors + {c},
           txnBindings := o.txnBindings[t := o.txnBindings[t].(cursors := o.txnBindings[t].cursors + {c})],
           records := o.records[r := o.records[r].(cursorRefs := o.records[r].cursorRefs + 1)],
           native := e.graph.native)
  {
    hide Inv, InvMid, InvHeap, InvLife;
    if !ActiveTxn(e.graph, t) || !DbiForTxn(e.graph, b, t) || !nativeOk {
      return false;
    }
    MidOf(e.graph);
    ReferencedIsLive(e.graph);
    OpenCursorKeeps(e.graph, c, t, b, e.graph.dbiBindings[b].record);
    Kept(e.graph, OpenCursor(e.graph, c, t, b));
    e.graph := OpenCursor(e.graph, c, t, b);
    return true;
  }

  /**
   `Cursor.close`.  The known gap: if the cursor is the last reference to its database,
   LMDB forbids the close of the handle exactly outside `MayCloseCursor`.
   */
  method CloseCursorWrapper(e: SharedEnvironment, c: Id) returns (accepted: bool)
    requires Inv(e.graph) && c in e.graph.cursorBindings
    modifies e
    ensures Inv(e.graph) && Progress(old(e.graph), e.graph)
    ensures accepted == (old(e.graph).cursorBindings[c].phase != CursorClosed && !old(e.graph).poisoned)
    ensures old(e.graph).cursorBindings[c].dbi in old(e.graph).dbiBindings
    ensures old(e.graph).dbiBindings[old(e.graph).cursorBindings[c].dbi].record in old(e.graph).records
    ensures e.graph == if accepted then CloseCursor(old(e.graph), c, true, true) else old(e.graph)
    ensures Tracked(old(e.graph)) ==> (e.graph.native.fault <==> accepted && !MayCloseCursor(old(e.graph), c))
  {
    hide Inv, InvMid, InvHeap, InvLife, CloseCursor, MayCloseCursor;
    MidOf(e.graph);
    OpenCursorIsListed(e.graph, c);
    if e.graph.cursorBindings[c].phase == CursorClosed || e.graph.poisoned {
      return false;
    }
    FinalizeCursor(e, c);
    return true;
  }

  /** The finalizer of a cursor wrapper. */
  method FinalizeCursor(e: SharedEnvironment, c: Id)
    requires Inv(e.graph) && c in e.graph.cursorBindings && e.graph.cursorBindings[c].dbi in e.graph.dbiBindings
    requires e.graph.dbiBindings[e.graph.cursorBindings[c].dbi].record in e.graph.records
    modifies e
    ensures Inv(e.graph) && Progress(old(e.graph), e.graph) && e.graph == CloseCursor(old(e.graph), c, true, true)
    ensures Tracked(old(e.graph)) ==>
      (e.graph.native.fault <==>
         old(e.graph).cursorBindings[c].phase != CursorClosed && !MayCloseCursor(old(e.graph), c))
    ensures old(e.graph).poisoned ==> Legal(old(e.graph), e.graph)
  {
    hide Inv, InvMid, InvHeap, InvLife, CloseCursor, ForgetCursor, Unlinked, MayCloseCursor;
    MidOf(e.graph);
    ReferencedIsLive(e.graph);
    OpenCursorIsListed(e.graph, c);
    if e.graph.cursorBindings[c].phase == CursorClosed {
      ClosedTwice(e.graph, c);
      e.CloseCursorBinding(c, true, true);
    } else {
      CloseCursorKeeps(e.graph, None, {}, c, true, true);
      CloseCursorFrame(e.graph, c, true, true);
      e.CloseCursorBinding(c, true, true);
      StillRetained(old(e.graph));
      Kept(old(e.graph), e.graph);
    }
  }

  /** `Cursor.del`, in a writer only. */
  method DeleteThroughCursor(e: SharedEnvironment, c: Id, nativeOk: bool) returns (accepted: bool)
    requires Inv(e.graph) && c in e.graph.cursorBindings
    modifies e
    ensures Inv(e.graph) && Progress(old(e.graph), e.graph) && Legal(old(e.graph), e.graph)
    ensures var o, cursor := old(e.graph), old(e.graph).cursorBindings[c];
      && accepted == (cursor.phase == CursorActive && !o.poisoned && !cursor.readOnly && nativeOk)
      && (accepted ==>
            && cursor.txn.Some? && cursor.dbi in o.dbiBindings && o.dbiBindings[cursor.dbi].record in o.records
            && Writes(o, e.graph, cursor.txn.value, HandleOf(o, cursor.dbi))
            && (Tracked(o) ==> (cursor.txn.value, HandleOf(o, cursor.dbi)) in e.graph.native.written))
      && (!accepted ==> e.graph == o)
  {
    hide Inv, InvMid, InvHeap, InvLife, Write;
    var cursor := e.graph.cursorBindings[c];
    MidOf(e.graph);
    OpenCursorIsListed(e.graph, c);
    if cursor.phase != CursorActive || e.graph.poisoned || cursor.readOnly || !nativeOk {
      return false;
    }
    ReferencedIsLive(e.graph);
    ActiveHasTxn(e.graph, c);
    CursorWriteEffect(e.graph, c);
    var t, r := cursor.txn.value, e.graph.dbiBindings[cursor.dbi].record;
    e.graph := e.graph.(native := Write(e.graph.native, t, e.graph.records[r].handle));
    Kept(old(e.graph), e.graph);
    return true;
  }

  lemma ActiveHasTxn(g: Graph, c: Id)
    requires InvHeap(g, {}) && c in g.cursorBindings && g.cursorBindings[c].phase == CursorActive
    ensures g.cursorBindings[c].txn.Some? && g.transactions != {}
    ensures g.cursorBindings[c].dbi in g.dbiBindings && g.dbiBindings[g.cursorBindings[c].dbi].record in g.records
  {
    hide DbisOk, CursorCountsOk, LeaseCountsOk, RecordsOk;
    var t := g.cursorBindings[c].txn.value;
    assert c in g.txnBindings[t].cursors && t in g.transactions;
  }

  lemma CursorWriteEffect(g: Graph, c: Id)
    requires InvMid(g, None, {}) && g.live && !g.poisoned
    requires c in g.cursorBindings && g.cursorBindings[c].phase == CursorActive && !g.cursorBindings[c].readOnly
    requires g.cursorBindings[c].txn.Some?
    requires g.cursorBindings[c].dbi in g.dbiBindings && g.dbiBindings[g.cursorBindings[c].dbi].record in g.records
    ensures var t, h := g.cursorBindings[c].txn.value, HandleOf(g, g.cursorBindings[c].dbi);
      WrittenLegally(g, g.(native := Write(g.native, t, h)), t, h)
  {
    hide InvHeap, InvNative, Wrote, Write;
    var t, h := g.cursorBindings[c].txn.value, HandleOf(g, g.cursorBindings[c].dbi);
    if Tracked(g) {
      WritableCursor(g, c);
      Emptied(g, t, g.dbiBindings[g.cursorBindings[c].dbi].record);
      WroteKeeps(g, t, h);
    } else {
      FaultSticks(g.native);
      NativeOnly(g, Write(g.native, t, h));
    }
  }

  /** An open writer's cursor sits on a handle the writer may use. */
  lemma WritableCursor(g: Graph, c: Id)
    requires InvHeap(g, {}) && InvNative(g, None) && c in g.cursorBindings && g.cursorBindings[c].phase == CursorActive
    requires !g.cursorBindings[c].readOnly
    ensures var cursor := g.cursorBindings[c];
      && cursor.txn.Some? && cursor.txn.value in g.native.txns && !g.native.txns[cursor.txn.value]
      && cursor.dbi in g.dbiBindings && g.dbiBindings[cursor.dbi].record in g.records
      && Usable(g.native, cursor.txn.value, g.records[g.dbiBindings[cursor.dbi].record].handle)
      && g.transactions != {}
  {
    hide DbisOk, CursorCountsOk, LeaseCountsOk, RecordsOk;
    var t := g.cursorBindings[c].txn.value;
    assert c in g.txnBindings[t].cursors && t in g.transactions && t in g.native.txns;
    assert c in g.native.cursors && g.native.cursors[c].txn == t;
  }

  lemma ClosedTwice(g: Graph, c: Id)
    requires c in g.cursorBindings && g.cursorBindings[c].dbi in g.dbiBindings
    requires g.dbiBindings[g.cursorBindings[c].dbi].record in g.records && g.cursorBindings[c].phase == CursorClosed
    ensures CloseCursor(g, c, true, true) == g
  {}

  // ------------------------------------------- batch leases, async operations

  /** `retainDbiForBatch`. */
  method RetainDbiForBatch(e: SharedEnvironment, w: Id, b: Id, l: Id) returns (accepted: bool)
    requires Inv(e.graph) && l !in e.graph.leases
    modifies e
    ensures Inv(e.graph) && Progress(old(e.graph), e.graph) && Legal(old(e.graph), e.graph)
    ensures accepted == (w in old(e.graph).wrappers && LiveDbi(old(e.graph), b)
                         && old(e.graph).dbiBindings[b].pendingTxn == None)
    ensures e.graph == if accepted then RetainRecord(old(e.graph), l, old(e.graph).dbiBindings[b].record)
      else old(e.graph)
    ensures accepted ==>
      var o, r := old(e.graph), old(e.graph).dbiBindings[b].record;
      e.graph == o.(leases := o.leases[l := Lease(r, false)],
                    records := o.records[r := o.records[r].(batchRefs := o.records[r].batchRefs + 1)])
  {
    hide Inv, InvMid, InvHeap, InvLife;
    if w !in e.graph.wrappers || !LiveDbi(e.graph, b) || e.graph.dbiBindings[b].pendingTxn != None {
      return false;
    }
    var r := e.graph.dbiBindings[b].record;
    MidOf(e.graph);
    ReferencedIsLive(e.graph);
    OpenDbiIsMapped(e.graph, b, r);
    RetainRecordKeeps(e.graph, l, r);
    Kept(e.graph, RetainRecord(e.graph, l, r));
    e.graph := RetainRecord(e.graph, l, r);
    return true;
  }

  /**
   `releaseBatchDbiLease`, the deferred native close, and `finishBatchDbiLeaseRelease`.
   LMDB forbids the close exactly outside `MayReleaseLease`.
   */
  method ReleaseBatchDbiLease(e: SharedEnvironment, l: Id)
    requires Inv(e.graph) && l in e.graph.leases && e.graph.leases[l].record in e.graph.records
    modifies e
    ensures Inv(e.graph) && Progress(old(e.graph), e.graph) && e.graph.poisoned == old(e.graph).poisoned
    ensures !Unused(ReleaseLease(old(e.graph), l)) ==> e.graph == ReleaseLease(old(e.graph), l)
    ensures Unused(ReleaseLease(old(e.graph), l)) ==> !e.graph.live
    ensures e.graph.leases == ReleaseLease(old(e.graph), l).leases
    ensures Tracked(old(e.graph)) ==> (e.graph.native.fault <==> !MayReleaseLease(old(e.graph), l))
    ensures old(e.graph).poisoned ==> Legal(old(e.graph), e.graph)
  {
    hide Inv, InvMid, InvHeap, InvLife, FinalizeRecord, Unused, MayReleaseLease, DatabasesClosed;
    ghost var o := e.graph;
    MidOf(o);
    ReferencedIsLive(o);
    ReleaseLeaseKeeps(o, l);
    ReleaseLeaseFrame(o, l);
    e.graph := ReleaseLease(e.graph, l);
    if o.leases[l].released { NotUnused(o); }
    e.CloseSharedEnvironmentIfUnused();
    if !o.leases[l].released { Settled(o, e.graph); }
  }

  lemma ReleaseLeaseFrame(g: Graph, l: Id)
    requires InvLife(g) && l in g.leases && g.leases[l].record in g.records && (Leased(g.leases) ==> g.live)
    ensures InvLife(ReleaseLease(g, l)) && ReleaseLease(g, l).poisoned == g.poisoned
      && ReleaseLease(g, l).live == g.live
    ensures g.poisoned ==> ReleaseLease(g, l).native == g.native
  {
    hide FinalizeRecord;
    if !g.leases[l].released {
      FinalizeRecordFrame(UnlinkLease(g, l), g.leases[l].record, g.records[g.leases[l].record].committed
                          && !g.poisoned);
    }
  }

  /** The start of a nonblocking sync or copy. */
  method BeginAsync(e: SharedEnvironment, w: Id, op: Id) returns (accepted: bool)
    requires Inv(e.graph) && op !in e.graph.operations
    modifies e
    ensures Inv(e.graph) && Progress(old(e.graph), e.graph) && Legal(old(e.graph), e.graph)
    ensures accepted == (w in old(e.graph).wrappers && !old(e.graph).poisoned)
    ensures var o := old(e.graph);
      e.graph == if !accepted then o
                 else o.(operations := o.operations + {op}, activeAsyncOperations := o.activeAsyncOperations + 1,
                         native := o.native.(inFlight := o.native.inFlight + {op}))
  {
    hide Inv, InvMid, InvHeap, InvLife;
    if w !in e.graph.wrappers || e.graph.poisoned {
      return false;
    }
    MidOf(e.graph);
    ReferencedIsLive(e.graph);
    OperationKeeps(e.graph, op);
    Kept(e.graph, BeginOperation(e.graph, op));
    e.graph := BeginOperation(e.graph, op);
    return true;
  }

  /** A sync or copy settles; releasing twice does nothing. */
  method EndAsync(e: SharedEnvironment, op: Id)
    requires Inv(e.graph)
    modifies e
    ensures Inv(e.graph) && Progress(old(e.graph), e.graph) && e.graph.poisoned == old(e.graph).poisoned
    ensures !Unused(EndOperation(old(e.graph), op)) ==> e.graph == EndOperation(old(e.graph), op)
    ensures Unused(EndOperation(old(e.graph), op)) ==> !e.graph.live
    ensures op !in e.graph.operations && (op !in old(e.graph).operations ==> e.graph == old(e.graph))
    ensures op in old(e.graph).operations ==>
      var o := old(e.graph);
      && (e.graph.live <==>
            o.wrappers != map[] || o.operations != {op} || o.activeWriter != NoWriter || Leased(o.leases))
      && (e.graph.live ==>
            e.graph == o.(operations := o.operations - {op}, activeAsyncOperations := o.activeAsyncOperations - 1,
                          native := o.native.(inFlight := o.native.inFlight - {op})))
    ensures old(e.graph).poisoned ==> e.graph.native == EndOperation(old(e.graph), op).native
    ensures Legal(old(e.graph), e.graph)
  {
    hide Inv, InvMid, InvHeap, InvLife, Unused;
    MidOf(e.graph);
    OperationKeeps(e.graph, op);
    EndOperationLife(e.graph, op);
    if op in e.graph.operations {
      HeapOf(e.graph, None, {});
      HeapOf(EndOperation(e.graph, op), None, {});
      UnusedMeans(EndOperation(e.graph, op));
      assert e.graph.operations - {op} == {} <==> e.graph.operations == {op};
      e.graph := EndOperation(e.graph, op);
      e.CloseSharedEnvironmentIfUnused();
      if !e.graph.live { DeadHoldsNoSlot(e.graph); }
      Settled(old(e.graph), e.graph);
    } else {
      NotUnused(e.graph);
    }
  }

  /** What keeps an environment, in terms of what there is and not of the counts. */
  lemma UnusedMeans(g: Graph)
    requires InvHeap(g, {})
    ensures Unused(g) <==>
      g.live && g.wrappers == map[] && g.operations == {} && g.activeWriter == NoWriter && !Leased(g.leases)
  {
    hide CursorsOk, DbisOk, CursorCountsOk, LeaseCountsOk, RecordsOk, HandleMapOk, RecordsExist, ShapeOk, Leased;
    assert |g.wrappers| == |g.wrappers.Keys|;
    if g.wrappers != map[] { assert g.wrappers.Keys != {}; }
  }

  lemma EndOperationLife(g: Graph, op: Id)
    requires InvLife(g)
    ensures InvLife(EndOperation(g, op)) && (op in g.operations ==> g.live)
    ensures EndOperation(g, op).poisoned == g.poisoned
    ensures op !in g.operations ==> EndOperation(g, op) == g
  {}

  lemma NotUnused(g: Graph)
    requires Inv(g)
    ensures !Unused(g)
  {
    hide InvMid, InvLife;
  }

  // ------------------------------------------------------------- writer slot

  method ReserveInternalWriter(e: SharedEnvironment, w: Id, token: Id) returns (accepted: bool)
    requires Inv(e.graph)
    modifies e
    ensures Inv(e.graph) && Progress(old(e.graph), e.graph) && Legal(old(e.graph), e.graph)
    ensures accepted == (w in old(e.graph).wrappers && !old(e.graph).poisoned && old(e.graph).activeWriter == NoWriter)
    ensures e.graph == if accepted then old(e.graph).(activeWriter := InternalWriter(token)) else old(e.graph)
  {
    hide Inv, InvMid, InvHeap, InvLife;
    if w !in e.graph.wrappers || e.graph.poisoned || e.graph.activeWriter != NoWriter {
      return false;
    }
    MidOf(e.graph);
    ReferencedIsLive(e.graph);
    WriterSlotKeeps(e.graph, token);
    Kept(e.graph, ReserveWriter(e.graph, token));
    e.graph := ReserveWriter(e.graph, token);
    return true;
  }

  method ReleaseInternalWriter(e: SharedEnvironment, token: Id)
    requires Inv(e.graph)
    modifies e
    ensures Inv(e.graph) && Progress(old(e.graph), e.graph) && e.graph.poisoned == old(e.graph).poisoned
    ensures !Unused(ReleaseWriter(old(e.graph), token)) ==> e.graph == ReleaseWriter(old(e.graph), token)
    ensures Unused(ReleaseWriter(old(e.graph), token)) ==> !e.graph.live
    ensures old(e.graph).activeWriter != InternalWriter(token) ==> e.graph == old(e.graph)
    ensures old(e.graph).activeWriter == InternalWriter(token) ==>
      var o := old(e.graph);
      && e.graph.activeWriter == NoWriter
      && (e.graph.live <==> o.wrappers != map[] || o.operations != {} || Leased(o.leases))
      && (e.graph.live ==> e.graph == o.(activeWriter := NoWriter))
    ensures Legal(old(e.graph), e.graph)
  {
    hide Inv, InvMid, InvHeap, InvLife, Unused;
    MidOf(e.graph);
    WriterSlotKeeps(e.graph, token);
    if e.graph.activeWriter == InternalWriter(token) {
      ReleaseWriterLife(e.graph, token);
      HeapOf(ReleaseWriter(e.graph, token), None, {});
      UnusedMeans(ReleaseWriter(e.graph, token));
      e.graph := ReleaseWriter(e.graph, token);
      e.CloseSharedEnvironmentIfUnused();
      if !e.graph.live { DeadHoldsNoSlot(e.graph); }
      Settled(old(e.graph), e.graph);
    } else {
      NotUnused(e.graph);
    }
  }

  lemma DeadHoldsNoSlot(g: Graph)
    requires Inv(g) && !g.live
    ensures g.activeWriter == NoWriter && g.operations == {}
  {
    hide InvMid;
  }

  lemma ReleaseWriterLife(g: Graph, token: Id)
    requires InvLife(g)
    ensures InvLife(ReleaseWriter(g, token)) && ReleaseWriter(g, token).poisoned == g.poisoned
    ensures ReleaseWriter(g, token).native == g.native && (g.activeWriter == InternalWriter(token) ==> g.live)
  {}

  // ------------------------------------------------------------ environments

  /** `Env.open` of another wrapper on a path whose environment is registered. */
  method AttachEnvironment(e: SharedEnvironment, w: Id) returns (accepted: bool)
    requires Inv(e.graph) && w !in e.graph.wrappers
    modifies e
    ensures Inv(e.graph) && Progress(old(e.graph), e.graph) && Legal(old(e.graph), e.graph)
    ensures accepted == (old(e.graph).registered && !old(e.graph).poisoned)
    ensures var o := old(e.graph);
      e.graph == if accepted then o.(wrappers := o.wrappers[w := {}], refCount := o.refCount + 1) else o
  {
    hide Inv, InvMid, InvHeap;
    if !e.graph.registered || e.graph.poisoned {
      return false;
    }
    MidOf(e.graph);
    AttachWrapperKeeps(e.graph, w);
    CountsLow(e.graph);
    Kept(e.graph, AttachWrapper(e.graph, w));
    e.graph := AttachWrapper(e.graph, w);
    return true;
  }

  lemma OwnedTxn(g: Graph, w: Id, t: Id)
    requires InvHeap(g, {}) && w in g.wrappers && t in g.wrappers[w]
    ensures t in g.transactions && t in g.txnBindings && g.txnBindings[t].wrapper == w
  {
    hide CursorsOk, DbisOk, CursorCountsOk, LeaseCountsOk, RecordsOk, HandleMapOk, RecordsExist;
  }

  /** Whatever does not belong to the transactions `ts` is as it was. */
  ghost predicate OthersKept(o: Graph, g: Graph, ts: set<Id>) {
    && (forall t :: t in o.txnBindings && t !in ts ==> t in g.txnBindings && g.txnBindings[t] == o.txnBindings[t])
    && (forall b :: b in o.dbiBindings && !(o.dbiBindings[b].pendingTxn.Some?
                                            && o.dbiBindings[b].pendingTxn.value in ts) ==>
          b in g.dbiBindings && g.dbiBindings[b] == o.dbiBindings[b])
    && (forall c :: c in o.cursorBindings && !(o.cursorBindings[c].txn.Some? && o.cursorBindings[c].txn.value in ts) ==>
          c in g.cursorBindings && g.cursorBindings[c] == o.cursorBindings[c])
  }

  /** No cursor or database wrapper opened, and those that waited for `ts` are closed. */
  ghost predicate Narrowed(o: Graph, g: Graph, ts: set<Id>) {
    && g.cursors <= o.cursors && g.dbis <= o.dbis
    && forall b :: b in g.dbis ==> !PendingIn(o.dbiBindings, b, ts)
  }

  lemma NarrowedMore(o: Graph, g: Graph, h: Graph, ts: set<Id>, t: Id)
    requires InvHeap(g, {}) && Narrowed(o, g, ts) && OthersKept(o, g, ts) && t !in ts && t in g.txnBindings
    requires TransactionEnded(g, h, t, false)
    ensures Narrowed(o, h, ts + {t})
  {
    hide InvHeap, EndCursors, SettleBindings, SettleRecords, WrittenByOthers;
    PendingAre(g, t);
    forall b | b in h.dbis ensures !PendingIn(o.dbiBindings, b, ts + {t}) {
      assert b in g.dbis && b !in g.txnBindings[t].pendingDbis;
    }
  }

  lemma PendingAre(g: Graph, t: Id)
    requires InvHeap(g, {}) && t in g.txnBindings
    ensures forall b :: b in g.txnBindings[t].pendingDbis <==>
      b in g.dbiBindings && g.dbiBindings[b].pendingTxn == Some(t)
  {
    hide TxnsOk, CursorsOk, CursorCountsOk, LeaseCountsOk, RecordsOk, HandleMapOk, RecordsExist, ShapeOk, OpenDbisOk,
         WrapperSetsOk, PendingSetsOk;
  }

  /** Ending a transaction touches nothing of the others. */
  lemma EndedKeepsOthers(g: Graph, h: Graph, t: Id)
    requires InvHeap(g, {}) && TransactionEnded(g, h, t, false)
    ensures OthersKept(g, h, {t})
  {
    OwnThings(g, t);
    EndedBindings(g, h, t);
    hide InvHeap, TransactionEnded;
  }

  lemma EndedBindings(g: Graph, h: Graph, t: Id)
    requires TransactionEnded(g, h, t, false)
    ensures t in g.txnBindings && h.txnBindings.Keys == g.txnBindings.Keys
    ensures forall u :: u in g.txnBindings && u != t ==> h.txnBindings[u] == g.txnBindings[u]
    ensures forall b :: b in g.dbiBindings && b !in g.txnBindings[t].pendingDbis ==>
      b in h.dbiBindings && h.dbiBindings[b] == g.dbiBindings[b]
    ensures forall c :: c in g.cursorBindings && c !in g.txnBindings[t].cursors ==>
      c in h.cursorBindings && h.cursorBindings[c] == g.cursorBindings[c]
  {}

  lemma OthersCompose(o: Graph, g: Graph, h: Graph, ts: set<Id>, t: Id)
    requires OthersKept(o, g, ts) && OthersKept(g, h, {t})
    ensures OthersKept(o, h, ts + {t})
  {}

  lemma OwnThings(g: Graph, t: Id)
    requires InvHeap(g, {}) && t in g.txnBindings
    ensures forall b :: b in g.txnBindings[t].pendingDbis && b in g.dbiBindings ==>
      g.dbiBindings[b].pendingTxn == Some(t)
    ensures forall c :: c in g.txnBindings[t].cursors && c in g.cursorBindings ==> g.cursorBindings[c].txn == Some(t)
  {
    hide TxnsOk, CursorCountsOk, LeaseCountsOk, RecordsOk, HandleMapOk, RecordsExist, ShapeOk, OpenDbisOk,
         WrapperSetsOk, PendingSetsOk;
  }

  /** A wrapper whose pending transaction is one of `ts`. */
  predicate PendingIn(bindings: DbiBindings, b: Id, ts: set<Id>) {
    b in bindings && bindings[b].pendingTxn.Some? && bindings[b].pendingTxn.value in ts
  }

  /** Record `r` without the wrappers that wait for the transactions `ts`. */
  function Deserted(g: Graph, ts: set<Id>, r: Id): DbiRecord
    requires r in g.records
  {
    var record := g.records[r];
    record.(wrappers := (set b | b in record.wrappers && !PendingIn(g.dbiBindings, b, ts)),
            pending := (set b | b in record.pending && !PendingIn(g.dbiBindings, b, ts)))
  }

  /** In whichever order `ts` are aborted, none closes a handle that another open transaction has modified. */
  predicate MayAbortAll(g: Graph, ts: set<Id>) {
    forall t, r :: t in ts && t in g.txnBindings && r in PendingRecords(g, t) && r in g.records ==>
      MayRelease(g.native.(written := WrittenByOthers(g.native.written, t)), Deserted(g, ts, r))
  }

  /** The wrappers pending on `t` are among those pending on `ts`. */
  lemma PendingOnOne(g: Graph, ts: set<Id>, t: Id, b: Id)
    requires InvHeap(g, {}) && t in ts && t in g.txnBindings && b in g.txnBindings[t].pendingDbis
    ensures PendingIn(g.dbiBindings, b, ts)
  {
    hide TxnsOk, CursorsOk, CursorCountsOk, LeaseCountsOk, RecordsOk, HandleMapOk, RecordsExist, ShapeOk, OpenDbisOk,
         WrapperSetsOk, PendingSetsOk;
  }

  /** What the end of `t` alone leaves unreferenced, the end of all of `ts` does. */
  lemma DesertedIsLess(g: Graph, ts: set<Id>, t: Id, r: Id)
    requires InvHeap(g, {}) && t in ts && t in g.txnBindings && r in g.records && r in PendingRecords(g, t)
    ensures Unreferenced(SettledRecord(g, t, r, false)) ==> Unreferenced(Deserted(g, ts, r))
    ensures SettledRecord(g, t, r, false).committed == Deserted(g, ts, r).committed == g.records[r].committed
    ensures SettledRecord(g, t, r, false).handle == Deserted(g, ts, r).handle == g.records[r].handle
  {
    hide InvHeap, PendingRecords, PendingIn;
    if Unreferenced(SettledRecord(g, t, r, false)) {
      forall b | b in g.records[r].wrappers || b in g.records[r].pending ensures PendingIn(g.dbiBindings, b, ts) {
        assert b in g.records[r].wrappers - g.txnBindings[t].pendingDbis
            || b in g.records[r].pending - g.txnBindings[t].pendingDbis || b in g.txnBindings[t].pendingDbis;
        PendingOnOne(g, ts, t, b);
      }
    }
  }

  lemma MayAbortOne(g: Graph, ts: set<Id>, t: Id)
    requires InvHeap(g, {}) && MayAbortAll(g, ts) && t in ts && t in g.txnBindings
    ensures MayEnd(g, t, false)
  {
    hide InvHeap, Modified, PendingRecords, SettledRecord, Deserted, Unreferenced;
    forall r | r in PendingRecords(g, t) && r in g.records
      ensures MayRelease(g.native.(written := WrittenByOthers(g.native.written, t)), SettledRecord(g, t, r, false))
    {
      DesertedIsLess(g, ts, t, r);
      assert MayRelease(g.native.(written := WrittenByOthers(g.native.written, t)), Deserted(g, ts, r));
    }
  }

  /** Aborts every transaction of one wrapper; on a poisoned environment only forgets them. */
  method AbortOwnedTransactions(e: SharedEnvironment, w: Id)
    requires Inv(e.graph) && w in e.graph.wrappers
    modifies e
    ensures Inv(e.graph) && Progress(old(e.graph), e.graph)
    ensures MayAbortAll(old(e.graph), old(e.graph).wrappers[w]) ==> Legal(old(e.graph), e.graph)
    ensures var o := old(e.graph);
      && e.graph.live == o.live && e.graph.registered == o.registered && e.graph.poisoned == o.poisoned
      && e.graph.refCount == o.refCount && e.graph.leases == o.leases && e.graph.operations == o.operations
      && e.graph.activeAsyncOperations == o.activeAsyncOperations
      && e.graph.transactions == o.transactions - o.wrappers[w] && e.graph.wrappers == o.wrappers[w := {}]
      && OthersKept(o, e.graph, o.wrappers[w]) && Narrowed(o, e.graph, o.wrappers[w])
      && (e.graph.activeWriter == o.activeWriter || (o.activeWriter.PublicWriter? && e.graph.activeWriter == NoWriter))
      && (o.poisoned ==> e.graph.native == o.native)
  {
    hide Inv, InvMid, InvHeap, InvLife, TransactionEnded, OthersKept, MayAbortAll, MayEnd, Narrowed;
    ghost var o := e.graph;
    var todo := e.graph.wrappers[w];
    assert o.wrappers[w := todo] == o.wrappers;
    assert o.transactions - (o.wrappers[w] - todo) == o.transactions;
    assert o.wrappers[w] - todo == {};
    NothingTouched(o);
    ReferencedIsLive(o);
    while todo != {}
      invariant Inv(e.graph) && todo <= o.wrappers[w]
      invariant e.graph.wrappers == o.wrappers[w := todo]
      invariant e.graph.transactions == o.transactions - (o.wrappers[w] - todo)
      invariant OthersKept(o, e.graph, o.wrappers[w] - todo) && Narrowed(o, e.graph, o.wrappers[w] - todo)
      invariant e.graph.live == o.live && e.graph.registered == o.registered && e.graph.poisoned == o.poisoned
      invariant e.graph.refCount == o.refCount && e.graph.leases == o.leases && e.graph.operations == o.operations
      invariant e.graph.activeAsyncOperations == o.activeAsyncOperations
      invariant e.graph.activeWriter == o.activeWriter
        || (o.activeWriter.PublicWriter? && e.graph.activeWriter == NoWriter)
      invariant o.poisoned ==> e.graph.native == o.native
      invariant Tracked(o) && MayAbortAll(o, o.wrappers[w]) ==> MayAbortAll(e.graph, todo) && !e.graph.native.fault
      decreases todo
    {
      var t :| t in todo;
      ghost var g := e.graph;
      MidOf(g);
      OwnedTxn(g, w, t);
      ghost var clear := Tracked(o) && MayAbortAll(o, o.wrappers[w]);
      if clear { MayAbortOne(g, todo, t); }
      EndTransaction(e, t, false);
      if clear { MayAbortRest(g, e.graph, todo, t); }
      EndedFlags(g, e.graph, t, false);
      EndedKeepsOthers(g, e.graph, t);
      NarrowedMore(o, g, e.graph, o.wrappers[w] - todo, t);
      OthersCompose(o, g, e.graph, o.wrappers[w] - todo, t);
      assert o.wrappers[w] - (todo - {t}) == o.wrappers[w] - todo + {t};
      assert o.transactions - (o.wrappers[w] - todo) - {t} == o.transactions - (o.wrappers[w] - (todo - {t}));
      todo := todo - {t};
    }
    assert o.wrappers[w] - {} == o.wrappers[w];
    ReferencedIsLive(o);
    Settled(o, e.graph);
  }

  /** Whether `b`, a wrapper of record `r`, survives the end of `t` and then waits for one of the others. */
  lemma SamePendingIn(o: Graph, bindings: DbiBindings, ts: set<Id>, t: Id, r: Id, b: Id)
    requires PendingOfAll(o, t) && ListsOwn(o.dbiBindings, o.records) && t in ts && r in o.records
    requires b in o.records[r].wrappers || b in o.records[r].pending
    requires bindings == SettleBindings(o.dbiBindings, o.txnBindings[t].pendingDbis, false)
    ensures b in o.txnBindings[t].pendingDbis ==> PendingIn(o.dbiBindings, b, ts) && r in PendingRecords(o, t)
    ensures b !in o.txnBindings[t].pendingDbis ==>
      (PendingIn(bindings, b, ts - {t}) <==> PendingIn(o.dbiBindings, b, ts))
  {}

  ghost predicate PendingOfAll(g: Graph, t: Id) {
    t in g.txnBindings
    && forall b :: b in g.txnBindings[t].pendingDbis <==> b in g.dbiBindings && g.dbiBindings[b].pendingTxn == Some(t)
  }

  /** Aborting a reader takes its wrappers off the records the others have pending, as `Deserted` already did. */
  lemma SameDeserted(o: Graph, g: Graph, ts: set<Id>, t: Id, r: Id)
    requires t in o.txnBindings && PendingOfAll(o, t) && ListsOwn(o.dbiBindings, o.records) && t in ts && r in o.records
    requires g.dbiBindings == SettleBindings(o.dbiBindings, o.txnBindings[t].pendingDbis, false)
    requires g.records == SettleRecords(o.records, PendingRecords(o, t), o.txnBindings[t].pendingDbis, false)
    ensures r in g.records && Deserted(g, ts - {t}, r) == Deserted(o, ts, r)
  {
    hide ListsOwn, PendingOfAll, PendingRecords, PendingIn, SettleBindings;
    var record := o.records[r];
    forall b | b in record.wrappers || b in record.pending
      ensures b in o.txnBindings[t].pendingDbis ==> PendingIn(o.dbiBindings, b, ts) && r in PendingRecords(o, t)
      ensures b !in o.txnBindings[t].pendingDbis ==>
        (PendingIn(g.dbiBindings, b, ts - {t}) <==> PendingIn(o.dbiBindings, b, ts))
    {
      SamePendingIn(o, g.dbiBindings, ts, t, r, b);
    }
    assert Deserted(g, ts - {t}, r).wrappers == Deserted(o, ts, r).wrappers;
    assert Deserted(g, ts - {t}, r).pending == Deserted(o, ts, r).pending;
  }

  lemma FewerWritten(n: Lmdb, m: Lmdb, u: Id, record: DbiRecord)
    requires m.written <= n.written
    requires MayRelease(n.(written := WrittenByOthers(n.written, u)), record)
    ensures MayRelease(m.(written := WrittenByOthers(m.written, u)), record)
  {}

  lemma MayAbortAfterReader(o: Graph, g: Graph, ts: set<Id>, t: Id)
    requires t in o.txnBindings && PendingOfAll(o, t) && ListsOwn(o.dbiBindings, o.records) && MayAbortAll(o, ts)
      && t in ts
    requires forall u :: u in g.txnBindings && u != t ==> u in o.txnBindings && g.txnBindings[u] == o.txnBindings[u]
    requires g.dbiBindings == SettleBindings(o.dbiBindings, o.txnBindings[t].pendingDbis, false)
    requires g.records == SettleRecords(o.records, PendingRecords(o, t), o.txnBindings[t].pendingDbis, false)
    requires g.native.written == WrittenByOthers(o.native.written, t)
    ensures MayAbortAll(g, ts - {t})
  {
    hide PendingOfAll, ListsOwn, Deserted, WrittenByOthers, MayRelease, PendingRecords, SettleBindings;
    FewerPairs(o.native.written, t);
    forall u, r | u in ts - {t} && u in g.txnBindings && r in PendingRecords(g, u) && r in g.records
      ensures MayRelease(g.native.(written := WrittenByOthers(g.native.written, u)), Deserted(g, ts - {t}, r))
    {
      SettledPending(o, g, t, u);
      SameDeserted(o, g, ts, t, r);
      FewerWritten(o.native, g.native, u, Deserted(o, ts, r));
    }
  }

  lemma MayAbortRest(o: Graph, g: Graph, ts: set<Id>, t: Id)
    requires Inv(o) && Tracked(o) && MayAbortAll(o, ts) && t in ts && t in o.transactions
      && t in o.txnBindings
    requires TransactionEnded(o, g, t, false)
    ensures MayAbortAll(g, ts - {t})
  {
    MidOf(o);
    EndedBindings(o, g, t);
    SetsListOwn(o);
    PendingOf(o, t);
    hide ListsOwn, Inv, InvHeap, InvNative, MayAbortAll, EndCursors, SettleBindings, SettleRecords, PendingRecords,
         WrittenByOthers;
    if o.txnBindings[t].readOnly {
      MayAbortAfterReader(o, g, ts, t);
    } else {
      WriterMayEnd(o, t, false);
      NothingModified(g, ts - {t});
    }
  }

  lemma FewerPairs(written: set<(Id, nat)>, t: Id)
    ensures WrittenByOthers(written, t) <= written
  {}

  lemma NothingModified(g: Graph, ts: set<Id>)
    requires g.native.written == {}
    ensures MayAbortAll(g, ts)
  {}

  lemma SettledPending(o: Graph, g: Graph, t: Id, u: Id)
    requires t in o.txnBindings && u in o.txnBindings && u in g.txnBindings && g.txnBindings[u] == o.txnBindings[u]
    requires g.dbiBindings == SettleBindings(o.dbiBindings, o.txnBindings[t].pendingDbis, false)
    ensures PendingRecords(g, u) == PendingRecords(o, u)
  {}

  lemma NothingTouched(g: Graph)
    ensures OthersKept(g, g, {}) && Narrowed(g, g, {})
  {}

  lemma DetachedKeepsOthers(o: Graph, g: Graph, ts: set<Id>, w: Id)
    requires OthersKept(o, g, ts)
    ensures OthersKept(o, DetachWrapper(g, w), ts)
  {}

  /** `Env.close` refuses while a nonblocking operation, an internal writer or a batch is about. */
  predicate Closable(g: Graph, w: Id) {
    w in g.wrappers && g.activeAsyncOperations == 0 && !g.activeWriter.InternalWriter? && !Leased(g.leases)
  }

  /**
   `Env.close`.  Closing the last wrapper retires the environment without
   looking again for operations, writers or leases: none can be left.
   */
  method CloseEnvironment(e: SharedEnvironment, w: Id) returns (accepted: bool)
    requires Inv(e.graph)
    modifies e
    ensures Inv(e.graph) && Progress(old(e.graph), e.graph) && e.graph.poisoned == old(e.graph).poisoned
    ensures accepted == Closable(old(e.graph), w)
    ensures !accepted ==> e.graph == old(e.graph)
    ensures accepted ==>
      && (w in old(e.graph).wrappers && e.graph.transactions == old(e.graph).transactions - old(e.graph).wrappers[w])
      && e.graph.wrappers == old(e.graph).wrappers - {w}
      && (e.graph.live <==> e.graph.wrappers != map[])
      && (e.graph.live ==> OthersKept(old(e.graph), e.graph, old(e.graph).wrappers[w]))
    ensures accepted && MayAbortAll(old(e.graph), old(e.graph).wrappers[w]) ==> Legal(old(e.graph), e.graph)
    ensures accepted && !e.graph.live && Tracked(old(e.graph))
            && MayAbortAll(old(e.graph), old(e.graph).wrappers[w]) ==>
      && (SettledOpen(old(e.graph)) ==> e.graph.native.leftOpen != {})
      && (!SettledOpen(old(e.graph)) && old(e.graph).cursors == {} ==> e.graph.native.leftOpen == {})
  {
    hide Inv, InvMid, InvHeap, InvLife, Leased, OthersKept, MayAbortAll, DatabasesClosed, SettledOpen;
    if w !in e.graph.wrappers {
      return false;
    }
    MidOf(e.graph);
    ReferencedIsLive(e.graph);
    var leased := e.HasBatchDbiLeases();
    if e.graph.activeAsyncOperations != 0 || e.graph.activeWriter.InternalWriter? || leased {
      return false;
    }
    ghost var o := e.graph;
    AbortOwnedTransactions(e, w);
    MidOf(e.graph);
    DetachWrapperKeeps(e.graph, w);
    DetachedKeepsOthers(o, e.graph, o.wrappers[w], w);
    e.graph := DetachWrapper(e.graph, w);
    HeapOf(e.graph, None, {});
    LastDetached(o, e.graph, w);
    if e.graph.refCount == 0 && e.graph.live {
      NothingOpen(e.graph);
      assert e.graph.transactions == o.transactions - o.wrappers[w];
      StillOpen(o, e.graph, o.wrappers[w]);
      e.RetireEnvironment();
      DeadIsEmpty(e.graph);
      assert o.transactions - o.wrappers[w] == {};
      Settled(o, e.graph);
    } else {
      Kept(o, e.graph);
    }
    return true;
  }

  /** Some settled database wrapper is open. */
  ghost predicate SettledOpen(g: Graph) {
    exists b :: b in g.dbis && b in g.dbiBindings && g.dbiBindings[b].pendingTxn == None
  }

  lemma StillOpen(o: Graph, g: Graph, ts: set<Id>)
    requires InvHeap(o, {}) && InvHeap(g, {}) && OthersKept(o, g, ts) && Narrowed(o, g, ts) && g.transactions == {}
    requires o.transactions - ts == {}
    ensures SettledOpen(o) ==> !DatabasesClosed(g)
    ensures !SettledOpen(o) && o.cursors == {} ==> DatabasesClosed(g)
  {
    hide InvHeap;
    if SettledOpen(o) {
      var b :| b in o.dbis && b in o.dbiBindings && o.dbiBindings[b].pendingTxn == None;
      OpenDbiIsListed(o, b);
      OpenDbiIsListed(g, b);
    } else {
      forall b | b in o.dbis ensures PendingIn(o.dbiBindings, b, ts) {
        OpenPendingHasTxn(o, b);
        assert o.dbiBindings[b].pendingTxn.value !in o.transactions - ts;
      }
    }
  }

  lemma OpenPendingHasTxn(g: Graph, b: Id)
    requires InvHeap(g, {}) && b in g.dbis
    ensures b in g.dbiBindings
    ensures g.dbiBindings[b].pendingTxn.Some? ==> g.dbiBindings[b].pendingTxn.value in g.transactions
  {
    hide CursorsOk, CursorCountsOk, LeaseCountsOk, RecordsOk, HandleMapOk, RecordsExist, OpenDbisOk, WrapperSetsOk,
         PendingSetsOk;
  }

  lemma DeadIsEmpty(g: Graph)
    requires Inv(g) && !g.live
    ensures g.wrappers == map[] && g.transactions == {}
  {
    hide InvMid;
  }

  lemma LastDetached(o: Graph, g: Graph, w: Id)
    requires InvLife(o) && o.live && InvHeap(g, {}) && w in o.wrappers && g.live && g.poisoned == o.poisoned
      && g.registered == o.registered
    requires g.wrappers == o.wrappers[w := {}] - {w}
    ensures InvLife(g) && g.wrappers == o.wrappers - {w}
    ensures g.refCount == 0 <==> g.wrappers == map[]
    ensures g.refCount == 0 ==> !g.activeWriter.PublicWriter?
  {
    hide CursorsOk, DbisOk, CursorCountsOk, LeaseCountsOk, RecordsOk, HandleMapOk, RecordsExist, ShapeOk;
    CountsLow(g);
    assert |g.wrappers| == |g.wrappers.Keys|;
    if g.wrappers != map[] { assert g.wrappers.Keys != {}; }
  }

  /** The finalizer of an environment wrapper refuses nothing: what is pending keeps the environment alive. */
  method FinalizeEnvironment(e: SharedEnvironment, w: Id)
    requires Inv(e.graph)
    modifies e
    ensures Inv(e.graph) && Progress(old(e.graph), e.graph) && e.graph.poisoned == old(e.graph).poisoned
    ensures w !in old(e.graph).wrappers ==> e.graph == old(e.graph)
    ensures w in old(e.graph).wrappers && MayAbortAll(old(e.graph), old(e.graph).wrappers[w]) ==>
      Legal(old(e.graph), e.graph)
    ensures w in old(e.graph).wrappers ==>
      && e.graph.transactions == old(e.graph).transactions - old(e.graph).wrappers[w]
      && e.graph.wrappers == old(e.graph).wrappers - {w}
      && (e.graph.live ==> OthersKept(old(e.graph), e.graph, old(e.graph).wrappers[w]))
      && (e.graph.live <==> e.graph.wrappers != map[] || old(e.graph).activeAsyncOperations != 0
                            || old(e.graph).activeWriter.InternalWriter? || Leased(old(e.graph).leases))
  {
    hide Inv, InvMid, InvHeap, InvLife, OthersKept, MayAbortAll, Leased, DatabasesClosed;
    if w !in e.graph.wrappers {
      return;
    }
    ghost var o := e.graph;
    MidOf(o);
    ReferencedIsLive(o);
    AbortOwnedTransactions(e, w);
    MidOf(e.graph);
    DetachWrapperKeeps(e.graph, w);
    DetachedKeepsOthers(o, e.graph, o.wrappers[w], w);
    e.graph := DetachWrapper(e.graph, w);
    HeapOf(e.graph, None, {});
    LastDetached(o, e.graph, w);
    ghost var g := e.graph;
    if Unused(g) { UnusedIsEmpty(g); }
    e.CloseSharedEnvironmentIfUnused();
    if Unused(g) { DeadIsEmpty(e.graph); }
    Settled(o, e.graph);
  }

  lemma UnusedIsEmpty(g: Graph)
    requires InvMid(g, None, {}) && Unused(g)
    ensures g.wrappers == map[] && g.transactions == {}
  {
    hide InvMid, InvHeap, InvNative;
    HeapOf(g, None, {});
    NothingOpen(g);
  }

  /** The finalizer of a transaction wrapper. */
  method FinalizeTransaction(e: SharedEnvironment, t: Id)
    requires Inv(e.graph)
    modifies e
    ensures Inv(e.graph) && Progress(old(e.graph), e.graph)
    ensures if t in old(e.graph).transactions && t in old(e.graph).txnBindings
      then TransactionEnded(old(e.graph), e.graph, t, false) && EndsLegally(old(e.graph), e.graph, t, false)
      else e.graph == old(e.graph)
  {
    hide Inv, InvMid, InvHeap, InvLife, TransactionEnded, MayEnd;
    if t in e.graph.transactions && t in e.graph.txnBindings {
      EndTransaction(e, t, false);
    }
  }

  /** A hard Worker failure. */
  method PoisonEnvironment(e: SharedEnvironment)
    requires Inv(e.graph)
    modifies e
    ensures e.graph == old(e.graph).(poisoned := true) && Legal(old(e.graph), e.graph)
    ensures old(e.graph).live ==> Inv(e.graph) && Progress(old(e.graph), e.graph)
  {
    hide InvHeap, InvNative;
    SameHeap(e.graph, Poison(e.graph));
    e.graph := Poison(e.graph);
  }
}
