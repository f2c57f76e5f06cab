/**
 Opening cursors, batch leases, wrappers, async operations, the writer slot and
 the final close, against the graph invariant.
 */
module RetentionLemmas {
  import opened Common
  import opened NativeLmdb
  import opened Ownership
  import opened OwnershipLemmas
  import opened TransactionLemmas
  import opened DbiLemmas

  // -------------------------------------------------------------- OpenCursor

  function Counted(records: DbiRecords, r: Id): DbiRecords
    requires r in records
  {
    records[r := records[r].(cursorRefs := records[r].cursorRefs + 1)]
  }

  function Owning(txns: Transactions, t: Id, c: Id): Transactions
    requires t in txns
  {
    txns[t := txns[t].(cursors := txns[t].cursors + {c})]
  }

  lemma OpenCursorSame(g: Graph, t: Id, c: Id, r: Id)
    requires t in g.txnBindings && r in g.records
    ensures SameButCursors(g.txnBindings, Owning(g.txnBindings, t, c))
      && SameButCounts(g.records, Counted(g.records, r))
    ensures forall q :: q in g.records ==> Counted(g.records, r)[q].batchRefs == g.records[q].batchRefs
  {}

  lemma OpenCursorTables(bindings: CursorBindings, cursors: set<Id>, txns: Transactions, c: Id, t: Id, b: Id)
    requires CursorsOk(bindings, cursors, txns) && c !in bindings && t in txns && txns[t].phase == PhaseActive
    ensures CursorsOk(bindings[c := CursorBinding(true, Some(t), b, txns[t].readOnly, CursorActive)], cursors + {c},
                      Owning(txns, t, c))
  {}

  lemma OpenCursorShape(g: Graph, c: Id, t: Id, b: Id)
    requires InvShape(g) && t in g.txnBindings && b in g.dbiBindings
    ensures ShapeOk(Owning(g.txnBindings, t, c), g.transactions,
                    g.cursorBindings[c := CursorBinding(true, Some(t), b, g.txnBindings[t].readOnly, CursorActive)],
                    g.cursors + {c}, g.dbiBindings, g.dbis)
  {}

  lemma OpenCursorOn(g: Graph, c: Id, cursor: CursorBinding, q: Id)
    requires InvShape(g) && cursor.dbi in g.dbiBindings && c !in g.cursorBindings
    ensures CursorsOn(g.cursors + {c}, g.cursorBindings[c := cursor], g.dbiBindings, q)
         == CursorsOn(g.cursors, g.cursorBindings, g.dbiBindings, q)
            + if q == g.dbiBindings[cursor.dbi].record then {c} else {}
    ensures c !in CursorsOn(g.cursors, g.cursorBindings, g.dbiBindings, q)
  {}

  lemma OpenCursorCounts(g: Graph, c: Id, cursor: CursorBinding, r: Id)
    requires InvShape(g) && InvCursorCounts(g) && cursor.dbi in g.dbiBindings && c !in g.cursorBindings
    requires r == g.dbiBindings[cursor.dbi].record && r in g.records
    ensures CursorCountsOk(Counted(g.records, r), g.cursors + {c}, g.cursorBindings[c := cursor], g.dbiBindings)
  {
    hide CursorsOn, ShapeOk;
    forall q | q in g.records
      ensures Counted(g.records, r)[q].cursorRefs
           == |CursorsOn(g.cursors + {c}, g.cursorBindings[c := cursor], g.dbiBindings, q)|
    {
      OpenCursorOn(g, c, cursor, q);
      var before := CursorsOn(g.cursors, g.cursorBindings, g.dbiBindings, q);
      assert before + {} == before;
    }
  }

  lemma CountedRecords(records: DbiRecords, dbiRecords: map<nat, Id>, r: Id)
    requires r in records && RecordsOk(records, dbiRecords, {}) && InMap(dbiRecords, records[r].handle, r)
    requires records[r].cursorRefs >= 0
    ensures RecordsOk(Counted(records, r), dbiRecords, {})
  {}

  lemma OpenCursorNative(g: Graph, c: Id, t: Id, b: Id, r: Id)
    requires InvShape(g) && InvNativeCursors(g, None) && InvPrivate(g) && c !in g.cursorBindings
    requires b in g.dbiBindings && g.dbiBindings[b].record == r && r in g.records && t in g.txnBindings
    requires (g.records[r].committed && Mapped(g, r)) ||
             (t in g.native.openers && g.records[r].handle in g.native.slots
              && g.native.slots[g.records[r].handle] == Private(t))
    ensures var cursors := g.native.cursors[c := NativeCursor(t, g.records[r].handle)];
      var bindings := g.cursorBindings[c := CursorBinding(true, Some(t), b, g.txnBindings[t].readOnly, CursorActive)];
      && NativeCursorsOk(cursors, bindings, g.dbiBindings, g.records, None)
      && PrivateOk(cursors, g.native.openers, g.native.slots, g.dbiRecords, bindings, g.dbiBindings, g.records)
  {}

  /** An open wrapper's handle is usable by `t`, and private to it when not committed. */
  lemma WrapperUsable(g: Graph, t: Id, b: Id, r: Id)
    requires InvHeap(g, {}) && InvNative(g, None) && b in g.dbiBindings && g.dbiBindings[b].record == r
      && r in g.records
    requires !g.dbiBindings[b].closed && (g.dbiBindings[b].pendingTxn == None || g.dbiBindings[b].pendingTxn == Some(t))
    ensures Mapped(g, r) && Usable(g.native, t, g.records[r].handle)
    ensures g.records[r].committed ||
            (t in g.native.openers && g.native.slots[g.records[r].handle] == Private(t))
  {
    hide TxnsOk, CursorsOk, CursorCountsOk, LeaseCountsOk, ShapeOk, PendingTxnsOk, OpenDbisOk, NativeTxnsOk,
         NativeCursorsOk,
         PrivateOk, WrapperSetsOk, RecordsOk;
    OpenDbiIsMapped(g, b, r);
    if !g.records[r].committed { assert b in g.records[r].pending; }
  }

  lemma OpenCursorHeap(g: Graph, c: Id, t: Id, b: Id, r: Id)
    requires InvHeap(g, {}) && t in g.txnBindings && g.txnBindings[t].phase == PhaseActive && c !in g.cursorBindings
    requires b in g.dbiBindings && g.dbiBindings[b].record == r && r in g.records && Mapped(g, r)
    ensures InvHeap(OpenCursor(g, c, t, b), {})
  {
    hide TxnsOk, OpenDbisOk, WrapperSetsOk, PendingSetsOk, PendingTxnsOk, LeaseCountsOk, CursorsOk, ShapeOk,
         RecordsExist, HandleMapOk, RecordsOk, CursorCountsOk, SameButCursors, SameButCounts, CursorOpen;
    var g' := OpenCursor(g, c, t, b);
    OpenCursorSame(g, t, c, r);
    SameButCursorsTxns(g.wrappers, g.refCount, g.txnBindings, g'.txnBindings, g.transactions, g.activeWriter);
    SameButCursorsDbis(g.dbiBindings, g.dbis, g.records, g.txnBindings, g'.txnBindings);
    SameButCountsHeap(g.(txnBindings := g'.txnBindings), g'.records);
    OpenCursorTables(g.cursorBindings, g.cursors, g.txnBindings, c, t, b);
    OpenCursorShape(g, c, t, b);
    OpenCursorCounts(g, c, g'.cursorBindings[c], r);
    CountsNonnegative(g, r);
    CountedRecords(g.records, g.dbiRecords, r);
    UncountLeases(g, g'.records);
  }

  lemma CountsNonnegative(g: Graph, r: Id)
    requires InvCursorCounts(g) && InvLeaseCounts(g) && r in g.records
    ensures g.records[r].cursorRefs >= 0 && g.records[r].batchRefs >= 0
  {}

  /** Opening a cursor through an open wrapper in an active transaction is legal. */
  lemma OpenCursorKeeps(g: Graph, c: Id, t: Id, b: Id, r: Id)
    requires InvMid(g, None, {}) && g.live && !g.poisoned && c !in g.cursorBindings
    requires t in g.transactions && t in g.txnBindings && g.txnBindings[t].phase == PhaseActive
    requires b in g.dbiBindings && g.dbiBindings[b].record == r && r in g.records && !g.dbiBindings[b].closed
    requires g.dbiBindings[b].pendingTxn == None || g.dbiBindings[b].pendingTxn == Some(t)
    ensures InvMid(OpenCursor(g, c, t, b), None, {})
    ensures Tracked(g) ==> !OpenCursor(g, c, t, b).native.fault
  {
    hide InvHeap, InvNative, CursorOpen;
    MappedWrapper(g, b, r);
    OpenCursorHeap(g, c, t, b, r);
    if Tracked(g) {
      OpenCursorInStep(g, c, t, b, r);
      InvNativeTracks(OpenCursor(g, c, t, b), None);
    } else {
      FaultSticks(g.native);
    }
  }

  lemma MappedWrapper(g: Graph, b: Id, r: Id)
    requires InvHeap(g, {}) && b in g.dbiBindings && g.dbiBindings[b].record == r && r in g.records
    requires !g.dbiBindings[b].closed
    ensures Mapped(g, r)
  {
    hide InvHeap, InMap;
    OpenDbiIsMapped(g, b, r);
  }

  lemma OpenCursorFields(g: Graph, c: Id, t: Id, b: Id, r: Id)
    requires t in g.txnBindings && b in g.dbiBindings && g.dbiBindings[b].record == r && r in g.records
    ensures OpenCursor(g, c, t, b) == g.(
      cursorBindings := g.cursorBindings[c := CursorBinding(true, Some(t), b, g.txnBindings[t].readOnly, CursorActive)],
      cursors := g.cursors + {c}, txnBindings := Owning(g.txnBindings, t, c), records := Counted(g.records, r),
      native := CursorOpen(g.native, c, t, g.records[r].handle))
  {
    hide CursorOpen;
  }

  /** The tables LMDB's side is compared with, once the cursor is open. */
  lemma OpenCursorTablesNative(g: Graph, c: Id, t: Id, b: Id, r: Id)
    requires InvHeap(g, {}) && InvNative(g, None) && c !in g.cursorBindings && t in g.txnBindings
    requires b in g.dbiBindings && g.dbiBindings[b].record == r && r in g.records && !g.dbiBindings[b].closed
    requires g.dbiBindings[b].pendingTxn == None || g.dbiBindings[b].pendingTxn == Some(t)
    ensures var cursors := g.native.cursors[c := NativeCursor(t, g.records[r].handle)];
      var bindings := g.cursorBindings[c := CursorBinding(true, Some(t), b, g.txnBindings[t].readOnly, CursorActive)];
      var records := Counted(g.records, r);
      && NativeTxnsOk(g.native.txns, g.native.openers, Owning(g.txnBindings, t, c), g.transactions, None)
      && NativeCursorsOk(cursors, bindings, g.dbiBindings, records, None)
      && SlotsOk(g.native.slots, g.native.openers, g.dbiRecords, records, g.dbiBindings)
      && PrivateOk(cursors, g.native.openers, g.native.slots, g.dbiRecords, bindings, g.dbiBindings, records)
  {
    hide TxnsOk, OpenDbisOk, WrapperSetsOk, PendingSetsOk, PendingTxnsOk, LeaseCountsOk, CursorsOk, ShapeOk,
         RecordsExist, HandleMapOk, RecordsOk, CursorCountsOk, NativeTxnsOk, NativeCursorsOk, SlotsOk, PrivateOk,
         SameButCursors, SameButCounts, WrittenOk, Owning, Counted;
    var cursors := g.native.cursors[c := NativeCursor(t, g.records[r].handle)];
    var bindings := g.cursorBindings[c := CursorBinding(true, Some(t), b, g.txnBindings[t].readOnly, CursorActive)];
    WrapperPlace(g, t, b, r);
    OpenCursorSame(g, t, c, r);
    SameButCursorsNative(g.native.txns, g.native.openers, g.txnBindings, Owning(g.txnBindings, t, c), g.transactions,
                         None);
    OpenCursorNative(g, c, t, b, r);
    SameButCountsNative(g.(cursorBindings := bindings, native := g.native.(cursors := cursors)), Counted(g.records, r),
                        None);
    SameButCountsSlots(g, Counted(g.records, r));
  }

  lemma OpenCursorInStep(g: Graph, c: Id, t: Id, b: Id, r: Id)
    requires InvHeap(g, {}) && InvNative(g, None) && c !in g.cursorBindings
    requires t in g.transactions && t in g.txnBindings && g.txnBindings[t].phase == PhaseActive
    requires b in g.dbiBindings && g.dbiBindings[b].record == r && r in g.records && !g.dbiBindings[b].closed
    requires g.dbiBindings[b].pendingTxn == None || g.dbiBindings[b].pendingTxn == Some(t)
    ensures InvNative(OpenCursor(g, c, t, b), None)
  {
    hide InvHeap, NativeTxnsOk, NativeCursorsOk, SlotsOk, PrivateOk, WrittenOk, Usable, CursorOpen, OpenCursor, Owning,
         Counted, Mapped;
    WrapperUsable(g, t, b, r);
    NativeTxnOpen(g, None, t);
    NoSuchCursor(g, c);
    CursorOpenLegal(g.native, c, t, g.records[r].handle);
    OpenCursorFields(g, c, t, b, r);
    OpenCursorTablesNative(g, c, t, b, r);
  }

  lemma CursorOpenLegal(n: Lmdb, c: Id, t: Id, h: nat)
    requires t in n.txns && c !in n.cursors && Usable(n, t, h)
    ensures CursorOpen(n, c, t, h) == n.(cursors := n.cursors[c := NativeCursor(t, h)])
  {}

  /** What `OpenCursorNative` asks of the wrapper's record. */
  lemma WrapperPlace(g: Graph, t: Id, b: Id, r: Id)
    requires InvHeap(g, {}) && InvNative(g, None) && b in g.dbiBindings && g.dbiBindings[b].record == r
    requires r in g.records && !g.dbiBindings[b].closed
    requires g.dbiBindings[b].pendingTxn == None || g.dbiBindings[b].pendingTxn == Some(t)
    ensures (g.records[r].committed && Mapped(g, r)) ||
            (t in g.native.openers && g.records[r].handle in g.native.slots
             && g.native.slots[g.records[r].handle] == Private(t))
  {
    hide InvHeap, InvNative, Mapped;
    WrapperUsable(g, t, b, r);
  }

  lemma NoSuchCursor(g: Graph, c: Id)
    requires InvNativeCursors(g, None) && c !in g.cursorBindings
    ensures c !in g.native.cursors
  {}

  // ------------------------------------------------------------------ leases

  function Retained(records: DbiRecords, r: Id, n: int): DbiRecords
    requires r in records
  {
    records[r := records[r].(batchRefs := n)]
  }

  lemma RetainedSame(g: Graph, r: Id, n: int)
    requires r in g.records
    ensures SameButCounts(g.records, Retained(g.records, r, n))
    ensures forall q :: q in g.records ==> Retained(g.records, r, n)[q].cursorRefs == g.records[q].cursorRefs
  {}

  lemma RetainCursors(g: Graph, b: DbiRecords)
    requires InvCursorCounts(g) && SameButCounts(g.records, b)
    requires forall q :: q in b && q in g.records ==> b[q].cursorRefs == g.records[q].cursorRefs
    ensures CursorCountsOk(b, g.cursors, g.cursorBindings, g.dbiBindings)
  {}

  /** One more unreleased lease, on record `r`. */
  lemma OneMoreLease(leases: map<Id, Lease>, l: Id, r: Id, q: Id)
    requires l !in leases
    ensures LeasesOn(leases[l := Lease(r, false)], q) == LeasesOn(leases, q) + if q == r then {l} else {}
    ensures |LeasesOn(leases[l := Lease(r, false)], q)| == |LeasesOn(leases, q)| + if q == r then 1 else 0
  {
    assert LeasesOn(leases[l := Lease(r, false)], q) == LeasesOn(leases, q) + if q == r then {l} else {};
    assert l !in LeasesOn(leases, q);
  }

  lemma RetainCounts(g: Graph, l: Id, r: Id)
    requires InvLeaseCounts(g) && r in g.records && l !in g.leases
    ensures LeaseCountsOk(Retained(g.records, r, g.records[r].batchRefs + 1), g.leases[l := Lease(r, false)])
  {
    hide LeasesOn;
    forall q | q in g.records
      ensures |LeasesOn(g.leases[l := Lease(r, false)], q)| == |LeasesOn(g.leases, q)| + if q == r then 1 else 0
    {
      OneMoreLease(g.leases, l, r, q);
    }
  }

  lemma RetainRecords(records: DbiRecords, dbiRecords: map<nat, Id>, r: Id)
    requires r in records && RecordsOk(records, dbiRecords, {})
    requires InMap(dbiRecords, records[r].handle, r) && records[r].committed && records[r].batchRefs >= 0
    ensures RecordsOk(Retained(records, r, records[r].batchRefs + 1), dbiRecords, {})
  {}

  lemma RetainExist(g: Graph, l: Id, lease: Lease, r: Id, n: int)
    requires InvExist(g) && r in g.records && lease.record == r
    ensures RecordsExist(g.dbiBindings, g.leases[l := lease], Retained(g.records, r, n))
  {}

  lemma RetainRecordKeeps(g: Graph, l: Id, r: Id)
    requires InvMid(g, None, {}) && l !in g.leases && r in g.records && Mapped(g, r) && g.records[r].committed
    ensures InvMid(RetainRecord(g, l, r), None, {})
  {
    hide InvHeap, InvNative;
    RetainRecordHeap(g, l, r);
    if Tracked(g) {
      RecountedNative(g, l, Lease(r, false), r, g.records[r].batchRefs + 1);
    }
  }

  lemma RetainRecordHeap(g: Graph, l: Id, r: Id)
    requires InvHeap(g, {}) && l !in g.leases && r in g.records && Mapped(g, r) && g.records[r].committed
    ensures InvHeap(RetainRecord(g, l, r), {})
  {
    hide TxnsOk, OpenDbisOk, WrapperSetsOk, PendingSetsOk, PendingTxnsOk, LeaseCountsOk, CursorsOk, ShapeOk,
         RecordsExist, HandleMapOk, RecordsOk, CursorCountsOk, SameButCounts;
    var records := Retained(g.records, r, g.records[r].batchRefs + 1);
    RetainedSame(g, r, g.records[r].batchRefs + 1);
    SameButCountsHeap(g, records);
    RetainCursors(g, records);
    RetainCounts(g, l, r);
    CountsNonnegative(g, r);
    RetainRecords(g.records, g.dbiRecords, r);
    RetainExist(g, l, Lease(r, false), r, g.records[r].batchRefs + 1);
  }

  /** LMDB does not see how often a record is leased. */
  lemma RecountedNative(g: Graph, l: Id, lease: Lease, r: Id, n: int)
    requires InvNative(g, None) && r in g.records
    ensures InvNative(g.(leases := g.leases[l := lease], records := Retained(g.records, r, n)), None)
  {
    hide NativeTxnsOk, NativeCursorsOk, SlotsOk, PrivateOk, SameButCounts, Retained;
    RetainedSame(g, r, n);
    SameButCountsNative(g, Retained(g.records, r, n), None);
    SameButCountsSlots(g, Retained(g.records, r, n));
  }

  lemma ReleaseCounts(g: Graph, l: Id)
    requires InvLeaseCounts(g) && l in g.leases && !g.leases[l].released && g.leases[l].record in g.records
    ensures var r := g.leases[l].record;
      && g.records[r].batchRefs > 0
      && LeaseCountsOk(Retained(g.records, r, g.records[r].batchRefs - 1), g.leases[l := Lease(r, true)])
  {
    var r := g.leases[l].record;
    assert l in LeasesOn(g.leases, r);
    forall q | q in g.records
      ensures LeasesOn(g.leases[l := Lease(r, true)], q) == LeasesOn(g.leases, q) - {l} {}
    forall q | q in g.records && q != r ensures l !in LeasesOn(g.leases, q) {}
  }

  lemma ReleaseRecords(records: DbiRecords, dbiRecords: map<nat, Id>, r: Id)
    requires r in records && RecordsOk(records, dbiRecords, {}) && records[r].batchRefs > 0
    ensures RecordsOk(Retained(records, r, records[r].batchRefs - 1), dbiRecords, {r})
    ensures InMap(dbiRecords, records[r].handle, r) && records[r].committed
  {}

  lemma UnlinkLeaseKeeps(g: Graph, l: Id, r: Id)
    requires InvMid(g, None, {}) && l in g.leases && !g.leases[l].released && g.leases[l].record == r && r in g.records
    ensures InvMid(UnlinkLease(g, l), None, {r}) && Mapped(g, r) && g.records[r].committed
  {
    hide InvHeap, InvNative;
    UnlinkLeaseHeap(g, l, r);
    if Tracked(g) {
      RecountedNative(g, l, Lease(r, true), r, g.records[r].batchRefs - 1);
    }
  }

  lemma UnlinkLeaseHeap(g: Graph, l: Id, r: Id)
    requires InvHeap(g, {}) && l in g.leases && !g.leases[l].released && g.leases[l].record == r && r in g.records
    ensures InvHeap(UnlinkLease(g, l), {r}) && Mapped(g, r) && g.records[r].committed && g.records[r].batchRefs > 0
  {
    hide TxnsOk, OpenDbisOk, WrapperSetsOk, PendingSetsOk, PendingTxnsOk, LeaseCountsOk, CursorsOk, ShapeOk,
         RecordsExist, HandleMapOk, RecordsOk, CursorCountsOk, SameButCounts;
    var records := Retained(g.records, r, g.records[r].batchRefs - 1);
    ReleaseCounts(g, l);
    RetainedSame(g, r, g.records[r].batchRefs - 1);
    SameButCountsHeap(g, records);
    RetainCursors(g, records);
    ReleaseRecords(g.records, g.dbiRecords, r);
    RetainExist(g, l, Lease(r, true), r, g.records[r].batchRefs - 1);
  }

  /** Releasing lease `l` closes no handle whose database an open transaction has modified. */
  predicate MayReleaseLease(g: Graph, l: Id)
    requires l in g.leases && g.leases[l].record in g.records
  {
    var record := g.records[g.leases[l].record];
    !g.leases[l].released ==> MayRelease(g.native, record.(batchRefs := record.batchRefs - 1))
  }

  lemma UnlinkedLeaseRecord(g: Graph, l: Id, r: Id)
    requires l in g.leases && g.leases[l].record == r && r in g.records && g.records[r].batchRefs > 0
    ensures var g' := UnlinkLease(g, l);
      && r in g'.records && g'.records[r] == g.records[r].(batchRefs := g.records[r].batchRefs - 1)
      && g'.native == g.native && g'.live == g.live && g'.poisoned == g.poisoned && Mapped(g', r) == Mapped(g, r)
  {}

  /** Releasing a lease makes a forbidden call exactly outside `MayReleaseLease`. */
  lemma ReleaseLeaseKeeps(g: Graph, l: Id)
    requires InvMid(g, None, {}) && l in g.leases && g.leases[l].record in g.records
    ensures InvMid(ReleaseLease(g, l), None, {})
    ensures Tracked(g) ==> (ReleaseLease(g, l).native.fault <==> !MayReleaseLease(g, l))
  {
    hide TxnsOk, DbisOk, LeaseCountsOk, CursorsOk, ShapeOk, UnlinkLease, MayRelease,
         RecordsExist, HandleMapOk, RecordsOk, CursorCountsOk, InvNative, FinalizeRecord;
    if !g.leases[l].released {
      var r := g.leases[l].record;
      UnlinkLeaseKeeps(g, l, r);
      ReleaseCounts(g, l);
      UnlinkedLeaseRecord(g, l, r);
      FinalizeRecordKeeps(UnlinkLease(g, l), None, {r}, r, g.records[r].committed && !g.poisoned);
      assert {r} - {r} == {};
    }
  }

  // --------------------------------- wrappers, operations, writer slot, poison

  lemma AttachWrapperKeeps(g: Graph, w: Id)
    requires InvMid(g, None, {}) && w !in g.wrappers
    ensures InvMid(AttachWrapper(g, w), None, {})
  {
    hide ShapeOk, OpenDbisOk, WrapperSetsOk, PendingSetsOk, PendingTxnsOk, LeaseCountsOk, CursorsOk,
         RecordsExist, HandleMapOk, RecordsOk, CursorCountsOk, NativeTxnsOk, NativeCursorsOk, SlotsOk, PrivateOk;
    assert |g.wrappers[w := {}]| == |g.wrappers| + 1;
  }

  lemma DetachWrapperKeeps(g: Graph, w: Id)
    requires InvMid(g, None, {}) && w in g.wrappers && g.wrappers[w] == {}
    ensures InvMid(DetachWrapper(g, w), None, {})
  {
    hide ShapeOk, OpenDbisOk, WrapperSetsOk, PendingSetsOk, PendingTxnsOk, LeaseCountsOk, CursorsOk,
         RecordsExist, HandleMapOk, RecordsOk, CursorCountsOk, NativeTxnsOk, NativeCursorsOk, SlotsOk, PrivateOk;
    var wrappers := g.wrappers - {w};
    assert wrappers[w := {}] == g.wrappers;
    assert |g.wrappers| == |wrappers| + 1;
  }

  lemma OperationKeeps(g: Graph, op: Id)
    requires InvMid(g, None, {})
    ensures op !in g.operations ==> InvMid(BeginOperation(g, op), None, {})
    ensures InvMid(EndOperation(g, op), None, {})
  {
    hide TxnsOk, ShapeOk, OpenDbisOk, WrapperSetsOk, PendingSetsOk, PendingTxnsOk, LeaseCountsOk, CursorsOk,
         RecordsExist, HandleMapOk, RecordsOk, CursorCountsOk, NativeTxnsOk, NativeCursorsOk, SlotsOk, PrivateOk;
  }

  lemma WriterSlotKeeps(g: Graph, token: Id)
    requires InvMid(g, None, {})
    ensures g.activeWriter == NoWriter ==> InvMid(ReserveWriter(g, token), None, {})
    ensures InvMid(ReleaseWriter(g, token), None, {})
  {
    hide ShapeOk, OpenDbisOk, WrapperSetsOk, PendingSetsOk, PendingTxnsOk, LeaseCountsOk, CursorsOk,
         RecordsExist, HandleMapOk, RecordsOk, CursorCountsOk, NativeTxnsOk, NativeCursorsOk, SlotsOk, PrivateOk;
  }
}
