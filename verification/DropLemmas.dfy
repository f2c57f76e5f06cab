/**
 Deleting drops.  A drop is legal and keeps the invariant exactly when no cursor is left on
 a committed record and, for the drop that owns its transaction, its commit
 succeeds; otherwise a later close names a handle that LMDB has already closed.
 */
module DropLemmas {
  import opened Common
  import opened NativeLmdb
  import opened Ownership
  import opened OwnershipLemmas
  import opened TransactionLemmas
  import opened DbiLemmas

  // --------------------------------------------------------- InvalidateRecord

  lemma InvalidateRecordSame(g: Graph, r: Id)
    requires r in g.records
    ensures var g' := InvalidateRecord(g, r);
      && SameButPending(g.txnBindings, g'.txnBindings) && SameRecordOf(g.dbiBindings, g'.dbiBindings)
      && SameRefs(g.records, g'.records) && g'.dbis <= g.dbis
  {}

  lemma InvalidateRecordOpen(g: Graph, r: Id)
    requires r in g.records && OpenDbisOk(g.dbiBindings, g.dbis)
    ensures OpenDbisOk(InvalidateRecord(g, r).dbiBindings, InvalidateRecord(g, r).dbis)
  {}

  lemma InvalidateRecordWrappers(g: Graph, r: Id)
    requires r in g.records && WrapperSetsOk(g.dbiBindings, g.records) && PendingSetsOk(g.dbiBindings, g.records)
    ensures WrapperSetsOk(InvalidateRecord(g, r).dbiBindings, InvalidateRecord(g, r).records)
  {}

  lemma InvalidateRecordPending(g: Graph, r: Id)
    requires r in g.records && WrapperSetsOk(g.dbiBindings, g.records) && PendingSetsOk(g.dbiBindings, g.records)
    ensures PendingSetsOk(InvalidateRecord(g, r).dbiBindings, InvalidateRecord(g, r).records)
  {}

  lemma InvalidateRecordTxns(g: Graph, r: Id)
    requires r in g.records && PendingTxnsOk(g.dbiBindings, g.txnBindings)
    ensures PendingTxnsOk(InvalidateRecord(g, r).dbiBindings, InvalidateRecord(g, r).txnBindings)
  {}

  lemma InvalidateRecordMap(g: Graph, r: Id)
    requires r in g.records && InvMap(g)
    ensures HandleMapOk(InvalidateRecord(g, r).dbiRecords, g.records)
  {}

  lemma SameRefsMap(dbiRecords: map<nat, Id>, a: DbiRecords, b: DbiRecords)
    requires SameRefs(a, b) && HandleMapOk(dbiRecords, a)
    ensures HandleMapOk(dbiRecords, b)
  {}

  lemma InvalidateRecordRecords(g: Graph, r: Id)
    requires r in g.records && InvMap(g) && InvRecords(g, {}) && Mapped(g, r) && g.records[r].batchRefs == 0
    ensures InvRecords(InvalidateRecord(g, r), {}) <==> (g.records[r].committed ==> g.records[r].cursorRefs == 0)
  {
    var g' := InvalidateRecord(g, r);
    if g.records[r].committed && g.records[r].cursorRefs != 0 {
      assert !InMap(g'.dbiRecords, g'.records[r].handle, r) && g'.records[r].committed && g'.records[r].cursorRefs != 0;
    }
  }

  lemma InvalidateRecordHeapIff(g: Graph, r: Id)
    requires InvHeap(g, {}) && r in g.records && Mapped(g, r) && g.records[r].batchRefs == 0
    ensures InvHeap(InvalidateRecord(g, r), {}) <==> (g.records[r].committed ==> g.records[r].cursorRefs == 0)
  {
    hide TxnsOk, OpenDbisOk, WrapperSetsOk, PendingSetsOk, PendingTxnsOk, LeaseCountsOk, CursorsOk, ShapeOk,
         RecordsExist, HandleMapOk, RecordsOk, CursorCountsOk, SameButPending, SameRecordOf, SameRefs;
    var g' := InvalidateRecord(g, r);
    InvalidateRecordSame(g, r);
    SameButPendingTables(g, g'.txnBindings);
    SameButPendingCursors(g, g'.txnBindings);
    SameRecordOfShape(g, g'.txnBindings, g'.dbiBindings, g'.dbis, g'.records);
    SameRecordOfCounts(g, g'.dbiBindings, g'.records);
    InvalidateRecordOpen(g, r);
    InvalidateRecordWrappers(g, r);
    InvalidateRecordPending(g, r);
    InvalidateRecordTxns(g, r);
    InvalidateRecordMap(g, r);
    SameRefsMap(g'.dbiRecords, g.records, g'.records);
    InvalidateRecordRecords(g, r);
  }

  // -------------------------------------------------------- the native side

  lemma DroppedSlots(g: Graph, r: Id)
    requires InvMap(g) && InvSlots(g) && r in g.records && Mapped(g, r)
    requires PendingSetsOk(g.dbiBindings, g.records) && WrapperSetsOk(g.dbiBindings, g.records)
    ensures var g' := InvalidateRecord(g, r);
      SlotsOk(g.native.slots - {g.records[r].handle}, g.native.openers, g'.dbiRecords, g'.records, g'.dbiBindings)
  {
    var g', h := InvalidateRecord(g, r), g.records[r].handle;
    forall k | k in g'.dbiRecords ensures k != h && g'.dbiRecords[k] == g.dbiRecords[k] && g.dbiRecords[k] != r {}
    forall b, q | q in g.records && q != r && b in g.records[q].pending && b in g.dbiBindings
      ensures g'.dbiBindings[b] == g.dbiBindings[b] {}
  }

  lemma DroppedPrivate(g: Graph, r: Id)
    requires InvShape(g) && InvExist(g) && InvMap(g) && InvPrivate(g) && r in g.records && Mapped(g, r)
    requires InvNativeCursors(g, None) && !CursorOnSlot(g.native, g.records[r].handle)
    requires forall c :: c in g.native.cursors ==>
      !OnRecord(g.cursorBindings, g.dbiBindings, c, r) || !g.records[r].committed
    ensures var g' := InvalidateRecord(g, r);
      PrivateOk(g.native.cursors, g.native.openers, g.native.slots - {g.records[r].handle}, g'.dbiRecords,
                g'.cursorBindings, g'.dbiBindings, g'.records)
  {
    var g', h := InvalidateRecord(g, r), g.records[r].handle;
    hide ShapeOk;
    forall q | q in g.records && q != r
      ensures g'.records[q] == g.records[q]
      ensures InMap(g.dbiRecords, g.records[q].handle, q) ==> InMap(g'.dbiRecords, g.records[q].handle, q) {}
  }

  lemma DroppedCursors(g: Graph, r: Id)
    requires InvNativeCursors(g, None) && r in g.records
    ensures var g' := InvalidateRecord(g, r);
      NativeCursorsOk(g.native.cursors, g'.cursorBindings, g'.dbiBindings, g'.records, None)
  {}

  lemma NativeCursorsAreCounted(g: Graph, r: Id)
    requires InvHeap(g, {}) && InvNativeCursors(g, None) && r in g.records
    ensures forall c :: c in g.native.cursors && OnRecord(g.cursorBindings, g.dbiBindings, c, r) ==>
      g.records[r].cursorRefs > 0
  {
    hide TxnsOk, DbisOk, LeaseCountsOk, CursorCountsOk, RecordsOk, HandleMapOk;
    forall c | c in g.native.cursors && OnRecord(g.cursorBindings, g.dbiBindings, c, r)
      ensures g.records[r].cursorRefs > 0 { CountedCursor(g, c); }
  }

  /** No native cursor is open on a record without cursor references. */
  lemma NoCursorOnRecord(g: Graph, r: Id)
    requires InvHeap(g, {}) && InvNativeCursors(g, None) && r in g.records && g.records[r].cursorRefs == 0
    ensures forall c :: c in g.native.cursors ==> !OnRecord(g.cursorBindings, g.dbiBindings, c, r)
  {
    hide InvHeap, InvNativeCursors, OnRecord;
    NativeCursorsAreCounted(g, r);
  }

  /** Pairs taken out of `written` leave writers only. */
  lemma DroppedWritten(n: Lmdb, h: nat)
    requires WrittenOk(n.written, n.txns)
    ensures WrittenOk(Dropped(n, h).written, Dropped(n, h).txns)
    ensures Dropped(n, h) == n.(slots := n.slots - {h}, written := Dropped(n, h).written)
  {}

  lemma DroppedTables(g: Graph, r: Id)
    requires InvHeap(g, {}) && InvNative(g, None) && r in g.records && Mapped(g, r) && Droppable(g, r)
    ensures var g', slots := InvalidateRecord(g, r), g.native.slots - {g.records[r].handle};
      && NativeTxnsOk(g.native.txns, g.native.openers, g'.txnBindings, g.transactions, None)
      && NativeCursorsOk(g.native.cursors, g'.cursorBindings, g'.dbiBindings, g'.records, None)
      && SlotsOk(slots, g.native.openers, g'.dbiRecords, g'.records, g'.dbiBindings)
      && PrivateOk(g.native.cursors, g.native.openers, slots, g'.dbiRecords, g'.cursorBindings, g'.dbiBindings,
                   g'.records)
  {
    hide TxnsOk, OpenDbisOk, WrapperSetsOk, PendingSetsOk, PendingTxnsOk, LeaseCountsOk, CursorsOk, ShapeOk,
         RecordsExist, HandleMapOk, RecordsOk, CursorCountsOk, NativeTxnsOk, NativeCursorsOk, SlotsOk, PrivateOk,
         SameButPending, SameRecordOf, SameRefs, OnRecord, InvalidateRecord, WrittenOk, CursorOnSlot;
    InvalidateRecordSame(g, r);
    SameButPendingNative(g.native.txns, g.native.openers, g.txnBindings, InvalidateRecord(g, r).txnBindings,
                         g.transactions, None);
    DroppedCursors(g, r);
    DroppedSlots(g, r);
    if g.records[r].cursorRefs == 0 { NoCursorOnRecord(g, r); }
    DroppedPrivate(g, r);
  }

  /** What a native deleting drop of an owned handle does to a consistent graph. */
  lemma InvalidateDroppedNative(g: Graph, r: Id)
    requires InvHeap(g, {}) && InvNative(g, None) && r in g.records && Mapped(g, r) && Droppable(g, r)
    ensures InvNative(InvalidateRecord(g, r).(native := Dropped(g.native, g.records[r].handle)), None)
  {
    hide InvHeap, NativeTxnsOk, NativeCursorsOk, SlotsOk, PrivateOk, WrittenOk, InvalidateRecord, Dropped, Droppable;
    DroppedTables(g, r);
    DroppedWritten(g.native, g.records[r].handle);
    InvalidatedFrame(g, r);
  }

  /** What invalidation leaves alone. */
  lemma InvalidatedFrame(g: Graph, r: Id)
    requires r in g.records
    ensures var g' := InvalidateRecord(g, r);
      g' == g.(dbiBindings := g'.dbiBindings, dbis := g'.dbis, txnBindings := g'.txnBindings, records := g'.records,
               dbiRecords := g'.dbiRecords)
  {}

  /** The one open writer is the only one to have modified anything. */
  lemma OnlyOwnWrites(g: Graph, t: Id, h: nat)
    requires InvShape(g) && InvTxns(g) && InvNativeTxns(g, None) && WrittenOk(g.native.written, g.native.txns)
    requires t in g.transactions && t in g.txnBindings && !g.txnBindings[t].readOnly
    ensures !ModifiedByOther(g.native, t, h)
  {
    WriterIsRegistered(g);
  }

  /** The dropped handle is one LMDB lets `t` use, unless a cursor sits on it. */
  lemma DropLegal(g: Graph, r: Id, t: Id)
    requires InvHeap(g, {}) && InvNative(g, None) && r in g.records && Mapped(g, r)
    requires t in g.transactions && t in g.txnBindings && !g.txnBindings[t].readOnly
    requires !g.records[r].committed ==>
      exists b :: b in g.records[r].pending && b in g.dbiBindings && g.dbiBindings[b].pendingTxn == Some(t)
    ensures var h := g.records[r].handle;
      Drop(g.native, t, h, true) == if CursorOnSlot(g.native, h) then Fault(g.native) else Dropped(g.native, h)
  {
    hide DbisOk, LeaseCountsOk, CursorsOk, CursorCountsOk, RecordsOk, RecordsExist, NativeCursorsOk, PrivateOk,
         CursorOnSlot, ModifiedByOther, Dropped;
    OnlyOwnWrites(g, t, g.records[r].handle);
  }

  /** No cursor of an open transaction is on the handle, and none at all on a committed record. */
  predicate Droppable(g: Graph, r: Id)
    requires r in g.records
  {
    !CursorOnSlot(g.native, g.records[r].handle) && (g.records[r].committed ==> g.records[r].cursorRefs == 0)
  }

  /**
   A deleting drop inside caller transaction `t` is legal and keeps the invariant
   exactly when no cursor is in its way.
   */
  lemma DropInTransactionKeepsIff(g: Graph, r: Id, t: Id)
    requires InvMid(g, None, {}) && Tracked(g) && r in g.records && Mapped(g, r)
      && g.records[r].batchRefs == 0
    requires t in g.transactions && t in g.txnBindings && !g.txnBindings[t].readOnly
    requires !g.records[r].committed ==>
      exists b :: b in g.records[r].pending && b in g.dbiBindings && g.dbiBindings[b].pendingTxn == Some(t)
    ensures InvMid(DropInTransaction(g, r, t), None, {}) && !DropInTransaction(g, r, t).native.fault
      <==> Droppable(g, r)
  {
    hide InvHeap, InvNativeTxns, InvNativeCursors, InvSlots, InvPrivate, WrittenOk, Drop, Dropped, CursorOnSlot,
        InvalidateRecord;
    DropLegal(g, r, t);
    InvalidateRecordHeapIff(g, r);
    var h := g.records[r].handle;
    InvalidateFlags(g, Drop(g.native, t, h, true), r);
    NativeIgnored(InvalidateRecord(g, r), Drop(g.native, t, h, true));
    if Droppable(g, r) { InvalidateDroppedNative(g, r); }
  }

  lemma NativeIgnored(g: Graph, n: Lmdb)
    ensures InvHeap(g.(native := n), {}) == InvHeap(g, {})
  {
    hide ShapeOk, RecordsExist, HandleMapOk, TxnsOk, CursorsOk, DbisOk, CursorCountsOk, LeaseCountsOk, RecordsOk;
  }

  // ------------------------------------------------ the drop with its own txn

  lemma InternalDrop(n: Lmdb, t: Id, h: nat, del: bool, commit: bool)
    requires n.envOpen && t !in n.txns && n.openers <= n.txns.Keys && !WriterOpen(n) && WrittenOk(n.written, n.txns)
    requires h in n.slots && n.slots[h] == Shared && (del ==> !CursorOnSlot(n, h))
    requires forall k :: k in n.slots ==> n.slots[k] != Private(t)
    requires forall c :: c in n.cursors ==> n.cursors[c].txn in n.txns
    ensures TxnEnd(Drop(TxnBegin(n, t, false), t, h, del), t, commit)
         == if del then n.(slots := n.slots - {h}) else n
  {
    NoWrites(n);
    hide WriterOpen;
    var slots := if del then n.slots - {h} else n.slots;
    AddedThenRemoved(n.txns, t, false);
    NothingFiltered(n.cursors, t, n.txns);
    assert n.openers - {t} == n.openers;
    assert EndedSlots(slots, t, commit) == slots;
    assert CursorOnSlot(TxnBegin(n, t, false), h) == CursorOnSlot(n, h);
    var dropped := Drop(TxnBegin(n, t, false), t, h, del);
    assert (set p | p in dropped.written && p.0 != t) == {};
  }

  /** Without an open writer nothing is modified. */
  lemma NoWrites(n: Lmdb)
    requires WrittenOk(n.written, n.txns) && !WriterOpen(n)
    ensures n.written == {}
  {
    assert forall p :: p in n.written ==> p.0 in n.txns && !n.txns[p.0];
  }

  lemma InternalDropLegal(g: Graph, r: Id, t: Id)
    requires InvHeap(g, {}) && InvNative(g, None) && !g.activeWriter.PublicWriter? && t !in g.transactions
    requires r in g.records && Mapped(g, r) && g.records[r].committed
    ensures var n, h := g.native, g.records[r].handle;
      && n.envOpen && t !in n.txns && n.openers <= n.txns.Keys && !WriterOpen(n) && WrittenOk(n.written, n.txns)
      && h in n.slots && n.slots[h] == Shared
      && (forall k :: k in n.slots ==> n.slots[k] != Private(t))
      && (forall c :: c in n.cursors ==> n.cursors[c].txn in n.txns)
  {
    hide DbisOk, LeaseCountsOk, RecordsOk, CursorCountsOk, PrivateOk, WriterOpen, WrittenOk;
    NotOpen(g, t);
  }

  /** A cursor on the handle of a committed record is one of that record. */
  lemma CursorOnCommitted(g: Graph, r: Id)
    requires InvHeap(g, {}) && InvNative(g, None) && r in g.records && Mapped(g, r) && g.records[r].committed
    ensures g.records[r].cursorRefs == 0 ==> !CursorOnSlot(g.native, g.records[r].handle)
  {
    hide TxnsOk, DbisOk, LeaseCountsOk, CursorCountsOk, RecordsOk, NativeTxnsOk, WrittenOk, CursorsOk;
    var h := g.records[r].handle;
    if g.records[r].cursorRefs == 0 {
      NoCursorOnRecord(g, r);
      forall c | c in g.native.cursors ensures g.native.cursors[c].slot != h {
        var q := g.dbiBindings[g.cursorBindings[c].dbi].record;
        assert q != r && g.native.cursors[c].slot == g.records[q].handle;
      }
    }
  }

  lemma LostSlotBreaks(g: Graph, r: Id, n: Lmdb)
    requires InvHeap(g, {}) && r in g.records && Mapped(g, r) && g.records[r].committed && Tracked(g)
    requires g.records[r].handle !in n.slots || n.fault
    ensures n.fault || !InvMid(g.(native := n), None, {})
  {
    hide TxnsOk, DbisOk, LeaseCountsOk, CursorsOk, ShapeOk, RecordsOk, CursorCountsOk, NativeTxnsOk, NativeCursorsOk,
        PrivateOk,
         WrittenOk;
    var h := g.records[r].handle;
    assert h !in n.slots ==> !SlotsOk(n.slots, n.openers, g.dbiRecords, g.records, g.dbiBindings);
  }

  /** Once begun, the drop of a handle with a cursor on it faults, whatever follows. */
  lemma CursorOnDropFaults(n: Lmdb, t: Id, h: nat, commit: bool)
    requires n.envOpen && t !in n.txns && !WriterOpen(n) && CursorOnSlot(n, h)
    ensures TxnEnd(Drop(TxnBegin(n, t, false), t, h, true), t, commit).fault
  {
    hide WriterOpen;
    assert CursorOnSlot(TxnBegin(n, t, false), h);
  }

  /**
   A drop that owns its transaction is legal and keeps the invariant exactly when it only
   empties the database, or deletes it with no cursor left and commits.
   */
  lemma DropInternallyKeepsIff(g: Graph, r: Id, t: Id, del: bool, commit: bool)
    requires InvMid(g, None, {}) && Tracked(g) && !g.activeWriter.PublicWriter? && t !in g.transactions
    requires r in g.records && Mapped(g, r) && g.records[r].committed && g.records[r].batchRefs == 0
    ensures var g' := DropInternally(g, r, t, del, commit);
      InvMid(g', None, {}) && !g'.native.fault <==> (del ==> commit && g.records[r].cursorRefs == 0)
  {
    hide InvHeap, InvNativeTxns, InvNativeCursors, InvSlots, InvPrivate, WrittenOk, TxnEnd, TxnBegin, Drop, WriterOpen,
         InvalidateRecord, CursorOnSlot;
    var h := g.records[r].handle;
    var n := TxnEnd(Drop(TxnBegin(g.native, t, false), t, h, del), t, commit);
    InternalDropLegal(g, r, t);
    CursorOnCommitted(g, r);
    if del && CursorOnSlot(g.native, h) {
      CursorOnDropFaults(g.native, t, h, commit);
    } else {
      InternalDrop(g.native, t, h, del, commit);
    }
    if del && commit {
      InvalidateFlags(g, n, r);
      NativeIgnored(InvalidateRecord(g, r), n);
      InvalidateRecordHeapIff(g, r);
      if g.records[r].cursorRefs == 0 {
        InvalidateDroppedNative(g, r);
        QuietDropped(g.native, h);
      }
    } else if del {
      LostSlotBreaks(g, r, n);
    }
  }

  lemma QuietDropped(n: Lmdb, h: nat)
    requires WrittenOk(n.written, n.txns) && !WriterOpen(n)
    ensures Dropped(n, h) == n.(slots := n.slots - {h})
  {
    NoWrites(n);
  }

  /** Invalidation does not look at the native machine. */
  lemma InvalidateFlags(g: Graph, n: Lmdb, r: Id)
    requires r in g.records
    ensures InvalidateRecord(g.(native := n), r) == InvalidateRecord(g, r).(native := n)
    ensures InvalidateRecord(g, r).live == g.live && InvalidateRecord(g, r).poisoned == g.poisoned
  {}

  /**
   The run behind the condition: once a committed record left the handle map
   with one cursor on it, closing that cursor asks LMDB to close the record's
   handle number again, whichever database the number now belongs to.
   */
  lemma LastCursorClosesAgain(g: Graph, c: Id, r: Id, closeNative: bool)
    requires OnRecord(g.cursorBindings, g.dbiBindings, c, r) && r in g.records && !g.poisoned
    requires g.cursorBindings[c].phase != CursorClosed && !g.cursorBindings[c].handle
    requires g.records[r].committed && g.records[r].wrappers == {} && g.records[r].pending == {}
    requires g.records[r].cursorRefs == 1 && g.records[r].batchRefs == 0
    ensures CloseCursor(g, c, closeNative, true).native == DbiClose(g.native, g.records[r].handle)
    ensures g.records[r].handle !in g.native.slots ==> CloseCursor(g, c, closeNative, true).native.fault
  {
    hide CursorOnSlot;
  }
}
