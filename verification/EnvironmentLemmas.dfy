/** What one iteration of each loop over the graph does, and what ending a transaction adds up to. */
module EnvironmentLemmas {
  import opened Common
  import opened NativeLmdb
  import opened Ownership
  import opened OwnershipLemmas
  import opened TransactionLemmas
  import opened DbiLemmas
  import opened DropLemmas
  import opened RetentionLemmas

  // ------------------------------------------------- facts the loops rely on

  /** What the invariant says of a cursor in a transaction's cursor set. */
  lemma ActiveCursor(g: Graph, todo: set<Id>, t: Id, c: Id)
    requires InvHeap(g, todo) && t in g.txnBindings && c in g.txnBindings[t].cursors
    ensures c in g.cursors && c in g.cursorBindings && g.cursorBindings[c].handle && g.cursorBindings[c].txn == Some(t)
    ensures g.cursorBindings[c].readOnly == g.txnBindings[t].readOnly && g.cursorBindings[c].phase == CursorActive
    ensures g.cursorBindings[c].dbi in g.dbiBindings && g.dbiBindings[g.cursorBindings[c].dbi].record in g.records
  {
    hide TxnsOk, DbisOk, LeaseCountsOk, RecordsOk, CursorCountsOk;
  }

  /** Where `FinalizeRecord` may leave its mark. */
  lemma FinalizeRecordFrame(g: Graph, r: Id, closeNative: bool)
    requires r in g.records
    ensures var g' := FinalizeRecord(g, r, closeNative);
      && g' == g.(dbiRecords := g'.dbiRecords, native := g'.native)
      && (g.poisoned || !closeNative ==> g'.native == g.native)
      && (forall q :: q in g.records && q != r && Mapped(g, q) ==> Mapped(g', q))
  {
    hide DbiClose;
  }

  lemma FinalizeRecordWritten(g: Graph, r: Id, closeNative: bool)
    requires r in g.records
    ensures FinalizeRecord(g, r, closeNative).native.written == g.native.written
  {}

  lemma UnlinkCursorFrame(g: Graph, c: Id, closeNative: bool)
    requires c in g.cursorBindings && g.cursorBindings[c].dbi in g.dbiBindings
    requires g.dbiBindings[g.cursorBindings[c].dbi].record in g.records
    ensures var g' := UnlinkCursor(g, c, closeNative);
      && g' == g.(txnBindings := ForgetCursor(g.txnBindings, g.cursorBindings[c].txn, c),
                  cursorBindings := Unlinked(g.cursorBindings, c, CursorClosed), cursors := g.cursors - {c},
                  records := g'.records, native := g'.native)
      && (g.poisoned || !closeNative ==> g'.native == g.native)
      && g'.records.Keys == g.records.Keys
  {
    hide CursorClose, ForgetCursor;
  }

  lemma CloseCursorFrame(g: Graph, c: Id, closeNative: bool, closeDbiNative: bool)
    requires c in g.cursorBindings && g.cursorBindings[c].dbi in g.dbiBindings
    requires g.dbiBindings[g.cursorBindings[c].dbi].record in g.records && g.cursorBindings[c].phase != CursorClosed
    ensures var g' := CloseCursor(g, c, closeNative, closeDbiNative);
      && g' == g.(txnBindings := ForgetCursor(g.txnBindings, g.cursorBindings[c].txn, c),
                  cursorBindings := Unlinked(g.cursorBindings, c, CursorClosed), cursors := g.cursors - {c},
                  records := g'.records, dbiRecords := g'.dbiRecords, native := g'.native)
      && (g.poisoned || (!closeNative && !closeDbiNative) ==> g'.native == g.native)
      && g'.records.Keys == g.records.Keys
  {
    hide UnlinkCursor, FinalizeRecord, ForgetCursor, Unlinked;
    UnlinkCursorFrame(g, c, closeNative);
    FinalizeRecordFrame(UnlinkCursor(g, c, closeNative), g.dbiBindings[g.cursorBindings[c].dbi].record, closeDbiNative);
  }

  lemma CloseCursorSticks(g: Graph, c: Id, closeNative: bool, closeDbiNative: bool)
    requires c in g.cursorBindings && g.cursorBindings[c].dbi in g.dbiBindings
    requires g.dbiBindings[g.cursorBindings[c].dbi].record in g.records
    ensures g.native.fault ==> CloseCursor(g, c, closeNative, closeDbiNative).native.fault
  {
    hide UnlinkCursor, FinalizeRecord;
    if g.cursorBindings[c].phase != CursorClosed {
      UnlinkCursorFlags(g, c, closeNative);
      UnlinkedRecord(g, c, closeNative);
      FinalizeSticks(UnlinkCursor(g, c, closeNative), g.dbiBindings[g.cursorBindings[c].dbi].record, closeDbiNative);
    }
  }

  lemma FinalizeSticks(g: Graph, r: Id, closeNative: bool)
    requires r in g.records
    ensures g.native.fault ==> FinalizeRecord(g, r, closeNative).native.fault
  {}

  /** Only what is modified decides whether a record may be finalised. */
  lemma SameRelease(n: Lmdb, m: Lmdb, record: DbiRecord)
    requires m.written == n.written
    ensures MayRelease(m, record) == MayRelease(n, record)
  {}

  lemma CursorCloseWritten(n: Lmdb, c: Id)
    ensures CursorClose(n, c).written == n.written
  {}

  lemma CloseCursorWritten(g: Graph, c: Id, closeNative: bool, closeDbiNative: bool)
    requires c in g.cursorBindings && g.cursorBindings[c].dbi in g.dbiBindings
    requires g.dbiBindings[g.cursorBindings[c].dbi].record in g.records
    ensures CloseCursor(g, c, closeNative, closeDbiNative).native.written == g.native.written
  {
    hide UnlinkCursor, FinalizeRecord, MayCloseCursor, MayRelease;
    if g.cursorBindings[c].phase != CursorClosed {
      UnlinkedRecord(g, c, closeNative);
      FinalizeRecordWritten(UnlinkCursor(g, c, closeNative), g.dbiBindings[g.cursorBindings[c].dbi].record,
                            closeDbiNative);
    }
  }

  // ------------------------------- what the end of a transaction may not close

  /** The pairs `TxnEnd` leaves. */
  function WrittenByOthers(written: set<(Id, nat)>, t: Id): set<(Id, nat)> {
    set p | p in written && p.0 != t
  }

  /**
   The end of `t` closes the handles of databases it had pending and nothing refers
   to any more: none of them may be modified by another open transaction.
   */
  predicate MayEnd(g: Graph, t: Id, commit: bool)
    requires t in g.txnBindings
  {
    forall r :: r in PendingRecords(g, t) && r in g.records ==>
      MayRelease(g.native.(written := WrittenByOthers(g.native.written, t)), SettledRecord(g, t, r, commit))
  }

  /** What settling the pending databases of `t` makes of record `r`. */
  function SettledRecord(g: Graph, t: Id, r: Id, commit: bool): DbiRecord
    requires t in g.txnBindings && r in g.records
  {
    SettleRecords(g.records, PendingRecords(g, t), g.txnBindings[t].pendingDbis, commit)[r]
  }

  /** A writer ends alone, so its end closes nothing another transaction has modified. */
  lemma WriterMayEnd(g: Graph, t: Id, commit: bool)
    requires InvHeap(g, {}) && InvNative(g, None) && t in g.transactions && t in g.txnBindings
      && !g.txnBindings[t].readOnly
    ensures WrittenByOthers(g.native.written, t) == {} && MayEnd(g, t, commit)
  {
    hide DbisOk, CursorsOk, CursorCountsOk, LeaseCountsOk, RecordsOk, HandleMapOk, RecordsExist, NativeCursorsOk,
         SlotsOk, PrivateOk, PendingRecords, SettledRecord;
    WriterIsRegistered(g);
  }

  /** After the native end of a writer nothing is modified. */
  lemma EndedWriterLeavesNothing(g: Graph, t: Id, h: nat)
    requires InvHeap(g, {}) && InvNative(g, Some(t)) && t in g.transactions && t in g.txnBindings
      && !g.txnBindings[t].readOnly
    ensures !Modified(g.native, h)
  {
    hide DbisOk, CursorsOk, CursorCountsOk, LeaseCountsOk, RecordsOk, HandleMapOk, RecordsExist, NativeCursorsOk,
         SlotsOk, PrivateOk;
    assert forall u :: u in g.native.txns ==> g.native.txns[u];
  }

  lemma MayCloseAfterEnd(g: Graph, t: Id, c: Id)
    requires InvMid(g, Some(t), {}) && t in g.transactions && t in g.txnBindings && !g.txnBindings[t].readOnly
    ensures Tracked(g) ==> MayCloseCursor(g, c)
  {
    hide InvHeap, InvNative, Modified, Unreferenced;
    if Tracked(g) && c in g.cursorBindings && g.cursorBindings[c].dbi in g.dbiBindings
       && g.dbiBindings[g.cursorBindings[c].dbi].record in g.records
    {
      EndedWriterLeavesNothing(g, t, g.records[g.dbiBindings[g.cursorBindings[c].dbi].record].handle);
    }
  }

  /** Detaching cursors changes nothing `MayEnd` looks at. */
  lemma SameMayEnd(o: Graph, g: Graph, t: Id, commit: bool)
    requires t in o.txnBindings && t in g.txnBindings && g.txnBindings[t].pendingDbis == o.txnBindings[t].pendingDbis
    requires g.dbiBindings == o.dbiBindings && g.records == o.records && g.native.written == o.native.written
    ensures MayEnd(g, t, commit) == MayEnd(o, t, commit)
  {}

  /** Finalising any of the records `rs` closes no handle an open transaction has modified. */
  predicate AllMayRelease(n: Lmdb, records: DbiRecords, rs: set<Id>) {
    forall r :: r in rs && r in records ==> MayRelease(n, records[r])
  }

  /** `MayEnd` before the native end is `MayRelease` of every touched record after it. */
  lemma EndedMayRelease(g: Graph, t: Id, commit: bool)
    requires t in g.txnBindings && (Tracked(g) ==> t in g.native.txns)
    ensures var g' := EndNative(g, t, commit);
      && g'.records == SettleRecords(g.records, PendingRecords(g, t), g.txnBindings[t].pendingDbis, commit)
      && (Tracked(g) ==> g'.native.written == WrittenByOthers(g.native.written, t))
      && (Tracked(g) ==> (AllMayRelease(g'.native, g'.records, PendingRecords(g, t)) <==> MayEnd(g, t, commit)))
  {
    hide SettleBindings, PendingRecords, Unreferenced, Modified;
    var g' := EndNative(g, t, commit);
    var n := g.native.(written := WrittenByOthers(g.native.written, t));
    if Tracked(g) {
      forall r | r in PendingRecords(g, t) && r in g.records
        ensures r in g'.records && MayRelease(g'.native, g'.records[r]) == MayRelease(n, SettledRecord(g, t, r, commit))
      {
        SettledKeys(g, t, r, commit);
        ModifiedSame(g'.native, n, g'.records[r].handle);
      }
    }
  }

  lemma ModifiedSame(a: Lmdb, b: Lmdb, h: nat)
    requires a.written == b.written
    ensures Modified(a, h) == Modified(b, h)
  {}

  lemma SettledKeys(g: Graph, t: Id, r: Id, commit: bool)
    requires t in g.txnBindings && r in g.records
    ensures r in EndNative(g, t, commit).records && EndNative(g, t, commit).records[r] == SettledRecord(g, t, r, commit)
  {}

  /** Ending one more cursor of a transaction. */
  lemma EndOneCursor(bindings: CursorBindings, txns: Transactions, t: Id, todo: set<Id>, all: set<Id>, c: Id,
                     phase: CursorPhase)
    requires t in txns && c in todo && todo <= all && c in bindings
    ensures EndCursors(bindings, all - todo, phase)[c := bindings[c].(handle := false, txn := None, phase := phase)]
         == EndCursors(bindings, all - (todo - {c}), phase)
    ensures c !in all - todo
    ensures ForgetCursor(txns[t := txns[t].(cursors := todo)], Some(t), c) == txns[t := txns[t].(cursors := todo - {c})]
  {
    assert all - (todo - {c}) == (all - todo) + {c};
    var before, after := EndCursors(bindings, all - todo, phase), EndCursors(bindings, all - (todo - {c}), phase);
    assert before[c := bindings[c].(handle := false, txn := None, phase := phase)].Keys == after.Keys;
  }

  /** Every binding a record lists is one of its own. */
  ghost predicate ListsOwn(bindings: DbiBindings, records: DbiRecords) {
    forall r, b :: r in records && (b in records[r].wrappers || b in records[r].pending) ==>
      b in bindings && bindings[b].record == r
  }

  lemma SetsListOwn(g: Graph)
    requires InvDbis(g)
    ensures ListsOwn(g.dbiBindings, g.records)
  {}

  /** Settling one more binding, as one iteration of the promotion or invalidation loop does. */
  lemma SettleOneBinding(bindings: DbiBindings, done: set<Id>, b: Id, commit: bool)
    requires b in bindings && b !in done
    ensures b in SettleBindings(bindings, done, commit) && SettleBindings(bindings, done, commit)[b] == bindings[b]
    ensures SettleBindings(bindings, done + {b}, commit)
         == SettleBindings(bindings, done, commit)[b := if commit then bindings[b].(pendingTxn := None)
                                                        else bindings[b].(pendingTxn := None, closed := true)]
  {}

  lemma RecordsOfOne(bindings: DbiBindings, done: set<Id>, b: Id)
    requires b in bindings
    ensures RecordsOf(bindings, done + {b}) == RecordsOf(bindings, done) + {bindings[b].record}
  {
    var all := RecordsOf(bindings, done + {b});
    assert forall q :: q in all ==> q in RecordsOf(bindings, done) + {bindings[b].record};
    assert b in done + {b};
    forall q | q in RecordsOf(bindings, done) ensures q in all {
      var d :| d in done && d in bindings && bindings[d].record == q;
      assert d in done + {b};
    }
  }

  lemma SettleOneRecord(bindings: DbiBindings, records: DbiRecords, done: set<Id>, b: Id, commit: bool)
    requires b in bindings && b !in done && bindings[b].record in records && ListsOwn(bindings, records)
    ensures var r := bindings[b].record;
      var before := SettleRecords(records, RecordsOf(bindings, done), done, commit);
      && r in before
      && SettleRecords(records, RecordsOf(bindings, done + {b}), done + {b}, commit)
         == before[r := if commit then before[r].(pending := before[r].pending - {b}, committed := true)
                        else before[r].(pending := before[r].pending - {b}, wrappers := before[r].wrappers - {b})]
  {
    var r := bindings[b].record;
    var before, after := SettleRecords(records, RecordsOf(bindings, done), done, commit),
                         SettleRecords(records, RecordsOf(bindings, done + {b}), done + {b}, commit);
    var expected := before[r := if commit then before[r].(pending := before[r].pending - {b}, committed := true)
                        else before[r].(pending := before[r].pending - {b}, wrappers := before[r].wrappers - {b})];
    RecordsOfOne(bindings, done, b);
    forall q, d | q in records && d in done && (d in records[q].pending || d in records[q].wrappers)
      ensures q in RecordsOf(bindings, done)
    {
      assert d in bindings && bindings[d].record == q;
    }
    forall q | q in records ensures after[q] == expected[q] {
      if q == r {
        assert records[r].pending - (done + {b}) == before[r].pending - {b};
        if !commit { assert records[r].wrappers - (done + {b}) == before[r].wrappers - {b}; }
      } else {
        assert records[q].pending - (done + {b}) == records[q].pending - done;
        assert records[q].wrappers - (done + {b}) == records[q].wrappers - done;
      }
    }
  }

  lemma ChildCursor(g: Graph, c: Id)
    requires InvHeap(g, {}) && c in g.cursors && g.transactions == {}
    ensures c in g.cursorBindings && g.cursorBindings[c].dbi in g.dbiBindings
    ensures g.dbiBindings[g.cursorBindings[c].dbi].record in g.records
    ensures g.cursorBindings[c].phase != CursorClosed && !g.cursorBindings[c].handle && g.cursorBindings[c].txn == None
    ensures forall txns :: ForgetCursor(txns, None, c) == txns
  {
    hide DbisOk, LeaseCountsOk, RecordsOk, CursorCountsOk, HandleMapOk;
  }

  lemma ChildDbi(g: Graph, b: Id)
    requires InvHeap(g, {}) && b in g.dbis
    ensures b in g.dbiBindings && g.dbiBindings[b].record in g.records && !g.dbiBindings[b].closed
  {
    hide TxnsOk, CursorsOk, LeaseCountsOk, RecordsOk, CursorCountsOk, HandleMapOk, WrapperSetsOk, PendingSetsOk,
         PendingTxnsOk;
  }

  lemma ReleaseDbiFrame(g: Graph, b: Id, closeNative: bool)
    requires b in g.dbiBindings && g.dbiBindings[b].record in g.records && !g.dbiBindings[b].closed
    ensures var g' := ReleaseDbi(g, b, closeNative);
      && g' == g.(dbiBindings := g.dbiBindings[b := g.dbiBindings[b].(closed := true)], dbis := g.dbis - {b},
                  records := g'.records, dbiRecords := g'.dbiRecords, native := g'.native)
      && (g.poisoned || !closeNative ==> g'.native == g.native)
      && g'.records.Keys == g.records.Keys
  {
    hide FinalizeRecord;
    FinalizeRecordFrame(UnlinkDbi(g, b), g.dbiBindings[b].record, closeNative);
  }

  /** The scan over the handle map finds a retained record exactly when a lease is unreleased. */
  lemma LeasedIffRetained(g: Graph)
    requires InvHeap(g, {})
    ensures Leased(g.leases) <==>
      exists h :: h in g.dbiRecords && g.dbiRecords[h] in g.records && g.records[g.dbiRecords[h]].batchRefs != 0
  {
    hide TxnsOk, CursorsOk, DbisOk, CursorCountsOk, ShapeOk;
    if Leased(g.leases) {
      var l :| l in g.leases && !g.leases[l].released;
      var r := g.leases[l].record;
      assert l in LeasesOn(g.leases, r);
      assert g.records[r].handle in g.dbiRecords && g.dbiRecords[g.records[r].handle] == r;
    }
    if h :| h in g.dbiRecords && g.dbiRecords[h] in g.records && g.records[g.dbiRecords[h]].batchRefs != 0 {
      var l :| l in LeasesOn(g.leases, g.dbiRecords[h]);
    }
  }

  lemma MapExistsAll(g: Graph)
    requires InvHeap(g, {})
    ensures forall h :: h in g.dbiRecords ==> g.dbiRecords[h] in g.records
  {
    hide TxnsOk, CursorsOk, DbisOk, CursorCountsOk, ShapeOk, LeaseCountsOk, RecordsOk, RecordsExist;
  }

  lemma CountsLow(g: Graph)
    requires InvHeap(g, {})
    ensures g.refCount >= 0 && g.activeAsyncOperations >= 0
    ensures g.activeWriter.PublicWriter? ==> g.refCount > 0
    ensures g.transactions != {} ==> g.refCount > 0
  {
    hide CursorsOk, DbisOk, CursorCountsOk, LeaseCountsOk, RecordsOk, RecordsExist, HandleMapOk;
    if g.transactions != {} {
      var t :| t in g.transactions;
      var w := g.txnBindings[t].wrapper;
      assert w in g.wrappers.Keys && |g.wrappers| == |g.wrappers.Keys|;
    }
  }

  /** An environment without wrappers has no transaction, no cursor handle and no pending database. */
  lemma NothingOpen(g: Graph)
    requires InvHeap(g, {}) && g.refCount == 0 && g.activeAsyncOperations == 0
    requires Tracked(g) ==> InvNative(g, None)
    ensures g.wrappers == map[] && g.transactions == {} && g.operations == {}
    ensures forall c :: !Leftover(g.cursors, g.cursorBindings, c)
    ensures Tracked(g) ==>
      EnvClose(g.native) == g.native.(envOpen := false, slots := map[], leftOpen := g.native.slots.Keys)
          && g.native.txns == map[] && g.native.cursors == map[]
      && g.native.inFlight == {} && g.native.envOpen && !g.native.fault
  {
    hide DbisOk, CursorCountsOk, LeaseCountsOk, RecordsOk, RecordsExist, HandleMapOk, SlotsOk, PrivateOk;
    CountsLow(g);
    assert |g.wrappers.Keys| == 0;
    assert g.wrappers.Keys == {};
    forall c | c in g.cursorBindings ensures !g.cursorBindings[c].handle && g.cursorBindings[c].txn == None {}
  }

  /** Every database wrapper is closed, and every cursor on a committed database. */
  ghost predicate DatabasesClosed(g: Graph) {
    && g.dbis == {}
    && forall c :: c in g.cursors ==> !OnCommitted(g, c)
  }

  ghost predicate OnCommitted(g: Graph, c: Id) {
    c in g.cursorBindings && g.cursorBindings[c].dbi in g.dbiBindings
    && g.dbiBindings[g.cursorBindings[c].dbi].record in g.records
    && g.records[g.dbiBindings[g.cursorBindings[c].dbi].record].committed
  }

  /** An open wrapper, without transactions, is settled and its handle is open. */
  lemma OpenWrapperHoldsSlot(g: Graph, b: Id)
    requires InvHeap(g, {}) && InvSlots(g) && g.transactions == {} && b in g.dbis
    ensures g.native.slots != map[]
  {
    hide CursorsOk, CursorCountsOk, LeaseCountsOk, PendingSetsOk, RecordsOk;
    assert g.dbiBindings[b].pendingTxn == None;
    hide TxnsOk, PendingTxnsOk;
    OpenDbiIsMapped(g, b, g.dbiBindings[b].record);
    assert g.records[g.dbiBindings[b].record].handle in g.native.slots;
  }

  lemma OpenCursorHoldsSlot(g: Graph, c: Id)
    requires InvHeap(g, {}) && InvSlots(g) && c in g.cursors && OnCommitted(g, c)
    ensures g.native.slots != map[]
  {
    hide TxnsOk, CursorsOk, LeaseCountsOk, DbisOk;
    CountedCursor(g, c);
    assert g.records[g.dbiBindings[g.cursorBindings[c].dbi].record].handle in g.native.slots;
  }

  /** Without transactions an open handle is that of a referenced committed record. */
  lemma SlotIsCommitted(g: Graph, h: nat)
    requires InvHeap(g, {}) && InvNative(g, None) && g.transactions == {} && h in g.native.slots
    ensures h in g.dbiRecords && g.dbiRecords[h] in g.records
    ensures g.records[g.dbiRecords[h]].committed && !Unreferenced(g.records[g.dbiRecords[h]])
  {
    hide CursorsOk, NativeCursorsOk, PrivateOk, TxnsOk, DbisOk, CursorCountsOk, LeaseCountsOk, RecordsExist,
        Unreferenced;
    assert InMap(g.dbiRecords, h, g.dbiRecords[h]);
  }

  /** What refers to a record when there is no transaction and no lease. */
  lemma RecordHasHolder(g: Graph, r: Id)
    requires InvHeap(g, {}) && g.transactions == {} && !Leased(g.leases)
    requires r in g.records && g.records[r].committed && !Unreferenced(g.records[r])
    ensures !DatabasesClosed(g)
  {
    hide CursorsOk, TxnsOk, PendingSetsOk, PendingTxnsOk, RecordsOk, HandleMapOk;
    NothingPending(g, r);
    assert LeasesOn(g.leases, r) == {};
    if g.records[r].cursorRefs != 0 {
      var c :| c in CursorsOn(g.cursors, g.cursorBindings, g.dbiBindings, r);
      assert OnCommitted(g, c);
    } else {
      var b :| b in g.records[r].wrappers;
      assert b in g.dbis;
    }
  }

  /** The handles LMDB still has open at the final close: none exactly when every database was closed before. */
  lemma OpenAtClose(g: Graph)
    requires InvHeap(g, {}) && InvNative(g, None) && g.transactions == {} && !Leased(g.leases)
    ensures g.native.slots == map[] <==> DatabasesClosed(g)
  {
    hide InvHeap, InvNative, OnCommitted, Leased;
    assert InvSlots(g) by { SlotsOf(g); }
    if g.native.slots == map[] {
      forall c | c in g.cursors ensures !OnCommitted(g, c) { if OnCommitted(g, c) { OpenCursorHoldsSlot(g, c); } }
      if g.dbis != {} {
        var b :| b in g.dbis;
        OpenWrapperHoldsSlot(g, b);
      }
    } else {
      var h :| h in g.native.slots;
      SlotIsCommitted(g, h);
      RecordHasHolder(g, g.dbiRecords[h]);
    }
  }

  lemma SlotsOf(g: Graph)
    requires InvNative(g, None)
    ensures InvSlots(g)
  {
    hide SlotsOk, NativeCursorsOk, NativeTxnsOk, PrivateOk;
  }

  lemma Dead(g: Graph)
    requires InvMid(g, None, {})
    ensures InvMid(g.(live := false), None, {})
  {
    hide InvHeap, InvNative;
    SameHeap(g, g.(live := false));
  }

  lemma SameHeap(g: Graph, g': Graph)
    requires g' == g.(live := g'.live, registered := g'.registered, poisoned := g'.poisoned, native := g'.native)
    ensures InvHeap(g', {}) == InvHeap(g, {})
  {
    hide TxnsOk, CursorsOk, DbisOk, CursorCountsOk, ShapeOk, LeaseCountsOk, RecordsOk, RecordsExist, HandleMapOk;
  }

  lemma Unregister(g: Graph, n: Lmdb)
    requires InvMid(g, None, {}) && !g.live
    ensures InvMid(g.(registered := false, native := n), None, {})
  {
    hide InvHeap, InvNative;
    SameHeap(g, g.(registered := false, native := n));
  }

  lemma EmptyHandleMap(g: Graph)
    requires InvHeap(g, {}) && g.transactions == {} && g.cursors == {} && g.dbis == {} && !Leased(g.leases)
    ensures g.dbiRecords == map[]
  {
    LeasedIffRetained(g);
    forall h | h in g.dbiRecords ensures Unreferenced(g.records[g.dbiRecords[h]]) { EmptyRecord(g, g.dbiRecords[h]); }
    hide TxnsOk, CursorsOk, DbisOk, CursorCountsOk, ShapeOk, LeaseCountsOk, RecordsExist, Leased;
  }

  lemma EmptyRecord(g: Graph, r: Id)
    requires InvHeap(g, {}) && g.transactions == {} && g.cursors == {} && g.dbis == {} && r in g.records
    requires g.records[r].batchRefs == 0
    ensures Unreferenced(g.records[r])
  {
    hide LeaseCountsOk, RecordsOk, HandleMapOk, CursorsOk, CursorCountsOk, PendingSetsOk, PendingTxnsOk;
    NoCursorsLeft(g, r);
    NothingPending(g, r);
    assert g.records[r].wrappers == {};
  }

  lemma NoCursorsLeft(g: Graph, r: Id)
    requires InvCursorCounts(g) && g.cursors == {} && r in g.records
    ensures g.records[r].cursorRefs == 0
  {
    assert CursorsOn(g.cursors, g.cursorBindings, g.dbiBindings, r) == {};
  }

  lemma NothingPending(g: Graph, r: Id)
    requires InvShape(g) && InvTxns(g) && InvDbis(g) && g.transactions == {} && r in g.records
    ensures g.records[r].pending == {}
  {
    hide OpenDbisOk, WrapperSetsOk;
  }

  /** The state between the native end of `t` and the closing of its binding. */
  ghost predicate NativeEnded(o: Graph, g: Graph, t: Id, commit: bool) {
    t in o.txnBindings &&
    var txn := o.txnBindings[t];
    var detached := if txn.readOnly && !o.poisoned then txn.cursors else {};
    && g == o.(
         txnBindings := o.txnBindings[t := txn.(cursors := txn.cursors - detached, pendingDbis := {})],
         dbiBindings := SettleBindings(o.dbiBindings, txn.pendingDbis, commit),
         dbis := if commit then o.dbis else o.dbis - txn.pendingDbis,
         cursorBindings := EndCursors(o.cursorBindings, detached, CursorDetached),
         records := SettleRecords(o.records, PendingRecords(o, t), txn.pendingDbis, commit), native := g.native)
    && (o.poisoned ==> g.native == o.native)
    && (Tracked(o) ==> g.native.written == WrittenByOthers(o.native.written, t))
  }

  /** What the end of transaction `t` makes of graph `o`; the rest of the tables is pinned by `Inv`. */
  ghost predicate TransactionEnded(o: Graph, g: Graph, t: Id, commit: bool) {
    t in o.txnBindings &&
    var txn := o.txnBindings[t];
    && g == o.(
         txnBindings :=
             o.txnBindings[t := txn.(handle := false, phase := PhaseClosed, cursors := {}, pendingDbis := {})],
         transactions := o.transactions - {t},
         wrappers := if txn.wrapper in o.wrappers then o.wrappers[txn.wrapper := o.wrappers[txn.wrapper] - {t}]
             else o.wrappers,
         activeWriter := if o.activeWriter == PublicWriter(t) then NoWriter else o.activeWriter,
         dbiBindings := SettleBindings(o.dbiBindings, txn.pendingDbis, commit),
         dbis := if commit then o.dbis else o.dbis - txn.pendingDbis,
         cursorBindings := EndCursors(o.cursorBindings, txn.cursors,
                                      if txn.readOnly && !o.poisoned then CursorDetached else CursorClosed),
         cursors := if txn.readOnly && !o.poisoned then o.cursors else o.cursors - txn.cursors,
         records := g.records, dbiRecords := g.dbiRecords, native := g.native)
    && (o.poisoned ==> g.native == o.native)
    && (Tracked(o) ==> g.native.written == WrittenByOthers(o.native.written, t))
    && SameButCounts(SettleRecords(o.records, PendingRecords(o, t), txn.pendingDbis, commit), g.records)
    && (!o.poisoned && txn.readOnly ==>
          g.records == SettleRecords(o.records, PendingRecords(o, t), txn.pendingDbis, commit))
  }

  /** Everything `EndNativeTransaction` needs to know of its native step. */
  lemma EndNativeFacts(g: Graph, t: Id, commit: bool)
    requires InvMid(g, None, {}) && g.live && t in g.transactions && t in g.txnBindings
    requires !g.poisoned && g.txnBindings[t].readOnly ==> g.txnBindings[t].cursors == {}
    ensures var n := if g.poisoned then g.native else TxnEnd(g.native, t, commit);
      var g1 := g.(native := n);
      && InvDbis(g1) && InvExist(g1)
      && SettlePending(g1, t, commit) == EndNative(g, t, commit)
      && PendingRecords(g1, t) == PendingRecords(g, t)
    ensures var g', touched := EndNative(g, t, commit), PendingRecords(g, t);
      && InvMid(g', Some(t), touched) && touched <= g'.records.Keys
      && (forall r :: r in touched ==> Mapped(g', r)) && Tracked(g') == Tracked(g)
    ensures var g', touched := EndNative(g, t, commit), PendingRecords(g, t);
      && g'.records == SettleRecords(g.records, PendingRecords(g, t), g.txnBindings[t].pendingDbis, commit)
      && (Tracked(g) ==> g'.native.written == WrittenByOthers(g.native.written, t))
      && (Tracked(g) ==> (AllMayRelease(g'.native, g'.records, touched) <==> MayEnd(g, t, commit)))
  {
    hide InvMid, InvHeap, TxnEnd, EndNative, SettlePending, PendingRecords, DbisOk, RecordsExist, MayRelease, MayEnd,
         InvNative, WrittenByOthers, SettleRecords, AllMayRelease;
    HeapOf(g, None, {});
    if Tracked(g) { NativeTxnOpen(g, None, t); }
    EndedMayRelease(g, t, commit);
    EndNativeKeeps(g, t, commit);
    EndNativeFields(g, t, commit);
    TouchedRecords(g, t, commit);
  }

  /** Before its native end a reader's cursors are detached, unless the environment is poisoned. */
  ghost predicate Prepared(o: Graph, p: Graph, t: Id) {
    t in o.txnBindings &&
    var txn := o.txnBindings[t];
    && p.native.written == o.native.written && p.native.fault == o.native.fault
    && if o.poisoned || !txn.readOnly then p == o
       else p == o.(txnBindings := o.txnBindings[t := txn.(cursors := {})],
                    cursorBindings := EndCursors(o.cursorBindings, txn.cursors, CursorDetached),
                    native := p.native)
  }

  /** The reader `t` on its way to being prepared, with the cursors `todo` still open. */
  ghost predicate Detaching(o: Graph, g: Graph, t: Id, todo: set<Id>) {
    t in o.txnBindings && todo <= o.txnBindings[t].cursors &&
    var txn := o.txnBindings[t];
    && g == o.(txnBindings := o.txnBindings[t := txn.(cursors := todo)],
               cursorBindings := EndCursors(o.cursorBindings, txn.cursors - todo, CursorDetached),
               native := g.native)
    && g.native.written == o.native.written && g.native.fault == o.native.fault
  }

  lemma DetachingNone(g: Graph, t: Id)
    requires t in g.txnBindings
    ensures Detaching(g, g, t, g.txnBindings[t].cursors)
  {
    EndNoCursors(g, t, CursorDetached);
  }

  lemma DetachingCursor(o: Graph, g: Graph, t: Id, todo: set<Id>, c: Id)
    requires Detaching(o, g, t, todo) && InvHeap(g, {}) && c in todo
    ensures c in g.cursors && c in g.cursorBindings && g.cursorBindings[c].handle && g.cursorBindings[c].txn == Some(t)
  {
    hide InvHeap, EndCursors;
    ActiveCursor(g, {}, t, c);
  }

  lemma DetachOne(o: Graph, g: Graph, t: Id, todo: set<Id>, c: Id)
    requires Detaching(o, g, t, todo) && c in todo && c in g.cursorBindings && g.cursorBindings[c].txn == Some(t)
    requires DetachCursor(g, c).native.fault == g.native.fault
    ensures Detaching(o, DetachCursor(g, c), t, todo - {c})
  {
    hide EndCursors, CursorClose, ForgetCursor;
    var all := o.txnBindings[t].cursors;
    EndedKeys(o.cursorBindings, all - todo, CursorDetached, c);
    EndOneCursor(o.cursorBindings, o.txnBindings, t, todo, all, c, CursorDetached);
    CursorCloseWritten(g.native, c);
  }

  lemma DetachedAll(o: Graph, g: Graph, t: Id)
    requires t in o.txnBindings && o.txnBindings[t].readOnly && !o.poisoned && Detaching(o, g, t, {})
    ensures Prepared(o, g, t) && g.transactions == o.transactions && t in g.txnBindings
  {
    hide EndCursors;
    assert o.txnBindings[t].cursors - {} == o.txnBindings[t].cursors;
  }

  lemma NotPrepared(g: Graph, t: Id)
    requires g.poisoned && t in g.txnBindings
    ensures Prepared(g, g, t)
  {}

  /** What the native end may take for granted of a prepared transaction. */
  lemma PreparedFacts(o: Graph, p: Graph, t: Id)
    requires Prepared(o, p, t) && t in p.txnBindings && t in o.txnBindings
    ensures p.poisoned == o.poisoned && p.live == o.live && p.transactions == o.transactions
    ensures p.txnBindings[t].pendingDbis == o.txnBindings[t].pendingDbis && p.dbiBindings == o.dbiBindings
    ensures p.records == o.records && p.native.written == o.native.written && p.native.fault == o.native.fault
    ensures !p.poisoned && p.txnBindings[t].readOnly ==> p.txnBindings[t].cursors == {}
  {
    hide EndCursors;
  }

  lemma SamePendingRecords(o: Graph, p: Graph, t: Id)
    requires t in o.txnBindings && t in p.txnBindings && p.dbiBindings == o.dbiBindings
    requires p.txnBindings[t].pendingDbis == o.txnBindings[t].pendingDbis
    ensures PendingRecords(p, t) == PendingRecords(o, t)
  {}

  lemma NativeEndedFrom(o: Graph, p: Graph, t: Id, commit: bool)
    requires Prepared(o, p, t) && t in p.txnBindings
    requires EndNative(p, t, commit).records
          == SettleRecords(p.records, PendingRecords(p, t), p.txnBindings[t].pendingDbis, commit)
    requires Tracked(o) ==> EndNative(p, t, commit).native.written == WrittenByOthers(p.native.written, t)
    ensures NativeEnded(o, EndNative(p, t, commit), t, commit)
  {
    hide EndCursors, SettleBindings, EndNative, SettleRecords, WrittenByOthers, PendingRecords;
    EndNativeFields(p, t, commit);
    EndedCursors(o.cursorBindings);
    SamePendingRecords(o, p, t);
    var cursors := o.txnBindings[t].cursors;
    assert cursors - cursors == {} && cursors - {} == cursors;
    if o.poisoned || !o.txnBindings[t].readOnly {
      assert p == o;
    } else {
      assert p.txnBindings[t] == o.txnBindings[t].(cursors := {});
    }
  }

  /** The native step of `EndNativeTransaction`, from graph `p` in which a reader's cursors are detached. */
  lemma EndNativeStep(o: Graph, p: Graph, t: Id, commit: bool)
    requires InvMid(p, None, {}) && p.live && t in p.transactions && t in p.txnBindings && t in o.txnBindings
      && Prepared(o, p, t)
    ensures var n := if p.poisoned then p.native else TxnEnd(p.native, t, commit);
      var g1 := p.(native := n);
      && InvDbis(g1) && InvExist(g1)
      && SettlePending(g1, t, commit) == EndNative(p, t, commit)
      && PendingRecords(g1, t) == PendingRecords(p, t)
    ensures var g', touched := EndNative(p, t, commit), PendingRecords(p, t);
      && InvMid(g', Some(t), touched) && touched <= g'.records.Keys
      && (forall r :: r in touched ==> Mapped(g', r))
      && Tracked(g') == Tracked(o)
      && (Tracked(o) ==> (AllMayRelease(g'.native, g'.records, touched) <==> MayEnd(o, t, commit)))
      && NativeEnded(o, g', t, commit)
  {
    hide InvMid, TxnEnd, EndNative, SettlePending, EndCursors, NativeEnded, PendingRecords, InvDbis, InvExist, InMap,
         MayEnd, MayRelease, WrittenByOthers, SettleRecords, Prepared, AllMayRelease;
    PreparedFacts(o, p, t);
    SameMayEnd(o, p, t, commit);
    EndNativeFacts(p, t, commit);
    NativeEndedFrom(o, p, t, commit);
    NativeEndedCursors(o, EndNative(p, t, commit), t, commit);
  }

  lemma NativeEndedCursors(o: Graph, g: Graph, t: Id, commit: bool)
    requires NativeEnded(o, g, t, commit)
    ensures t in g.txnBindings && g.txnBindings[t].pendingDbis == {} && g.live == o.live && g.poisoned == o.poisoned
    ensures g.transactions == o.transactions
    ensures !g.poisoned && g.txnBindings[t].readOnly ==> g.txnBindings[t].cursors == {}
  {
    hide EndCursors, SettleBindings, SettleRecords, WrittenByOthers, PendingRecords;
  }

  /** The cursor wrappers left on `t` are closed. */
  ghost predicate CursorsFinished(o: Graph, g: Graph, t: Id) {
    t in o.txnBindings &&
    var txn := o.txnBindings[t];
    && g == o.(txnBindings := o.txnBindings[t := txn.(cursors := {})],
               cursorBindings := EndCursors(o.cursorBindings, txn.cursors, CursorClosed),
               cursors := o.cursors - txn.cursors,
               records := g.records, dbiRecords := g.dbiRecords, native := g.native)
    && (o.poisoned ==> g.native == o.native)
    && g.native.written == o.native.written && g.native.fault == o.native.fault
    && SameButCounts(o.records, g.records)
    && (txn.cursors == {} ==> g.records == o.records)
  }

  /** They are, and `t` is unlinked from wrapper, environment and writer slot. */
  ghost predicate BindingClosed(o: Graph, g: Graph, t: Id) {
    t in o.txnBindings &&
    var txn := o.txnBindings[t];
    && g == o.(txnBindings := o.txnBindings[t := txn.(handle := false, phase := PhaseClosed, cursors := {})],
               transactions := o.transactions - {t},
               wrappers := if txn.wrapper in o.wrappers
                           then o.wrappers[txn.wrapper := o.wrappers[txn.wrapper] - {t}] else o.wrappers,
               activeWriter := if o.activeWriter == PublicWriter(t) then NoWriter else o.activeWriter,
               cursorBindings := EndCursors(o.cursorBindings, txn.cursors, CursorClosed),
               cursors := o.cursors - txn.cursors,
               records := g.records, dbiRecords := g.dbiRecords, native := g.native)
    && (o.poisoned ==> g.native == o.native)
    && g.native.written == o.native.written && g.native.fault == o.native.fault
    && SameButCounts(o.records, g.records)
    && (txn.cursors == {} ==> g.records == o.records)
  }

  lemma BindingClosedFrom(o: Graph, m: Graph, t: Id)
    requires CursorsFinished(o, m, t) && t in o.transactions && t in o.txnBindings && o.txnBindings[t].pendingDbis == {}
    ensures t in m.txnBindings && t in m.transactions
    ensures m.txnBindings[t].cursors == {} && m.txnBindings[t].pendingDbis == {}
    ensures BindingClosed(o, CloseTransaction(m, t), t)
  {
    hide EndCursors, SameButCounts;
  }

  lemma ClosedFlags(o: Graph, g: Graph, t: Id)
    requires BindingClosed(o, g, t)
    ensures o.poisoned ==> g.native == o.native
    ensures g.native.written == o.native.written && g.native.fault == o.native.fault
  {
    hide EndCursors;
  }

  lemma TransactionEndedFrom(o: Graph, n: Graph, m: Graph, g: Graph, t: Id, commit: bool)
    requires NativeEnded(o, n, t, commit) && m == n.(dbiRecords := m.dbiRecords, native := m.native)
    requires o.poisoned ==> m.native == n.native && g.native == m.native
    requires g.native.written == m.native.written == n.native.written
    requires t in m.txnBindings && BindingClosed(m, g, t)
    ensures TransactionEnded(o, g, t, commit)
  {
    hide EndCursors, SettleBindings, SettleRecords, WrittenByOthers, PendingRecords, SameButCounts;
    EndedCursors(o.cursorBindings);
    EndedCursors(m.cursorBindings);
    var cursors := o.txnBindings[t].cursors;
    assert cursors - cursors == {} && cursors - {} == cursors && o.cursors - {} == o.cursors;
  }

  lemma EndNativeFields(g: Graph, t: Id, commit: bool)
    requires t in g.txnBindings
    ensures var n := if g.poisoned then g.native else TxnEnd(g.native, t, commit);
      EndNative(g, t, commit) == SettlePending(g.(native := n), t, commit)
    ensures EndNative(g, t, commit) == g.(
      txnBindings := g.txnBindings[t := g.txnBindings[t].(pendingDbis := {})],
      dbis := if commit then g.dbis else g.dbis - g.txnBindings[t].pendingDbis,
      dbiBindings := SettleBindings(g.dbiBindings, g.txnBindings[t].pendingDbis, commit),
      records := EndNative(g, t, commit).records,
      native := if g.poisoned then g.native else TxnEnd(g.native, t, commit))
    ensures PendingRecords(g.(native := if g.poisoned then g.native else TxnEnd(g.native, t, commit)), t)
      == PendingRecords(g, t)
  {
    hide TxnEnd, SettleBindings, SettleRecords, RecordsOf;
  }

  /** The records of pending wrappers are in the handle map, before and after they are settled. */
  lemma TouchedRecords(g: Graph, t: Id, commit: bool)
    requires InvHeap(g, {}) && t in g.txnBindings
    ensures forall r :: r in PendingRecords(g, t) ==>
      r in EndNative(g, t, commit).records && Mapped(EndNative(g, t, commit), r)
    ensures InvDbis(g) && InvExist(g)
  {
    hide TxnsOk, CursorsOk, LeaseCountsOk, CursorCountsOk, ShapeOk, HandleMapOk, DbisOk, TxnEnd, RecordsOf,
         SettleBindings;
    forall r | r in PendingRecords(g, t) ensures r in g.records && Mapped(g, r) { PendingNonempty(g, t, r); }
  }

  lemma UnlinkedFields(bindings: CursorBindings, c: Id)
    requires c in bindings
    ensures Unlinked(bindings, c, CursorClosed)
         == bindings[c := bindings[c].(handle := false, txn := None, phase := CursorClosed)]
  {}

  /** Ending no cursor changes no cursor. */
  lemma EndedCursors(bindings: CursorBindings)
    ensures forall phase :: EndCursors(bindings, {}, phase) == bindings
  {}

  /** One binding settled. */
  function SettleBinding(g: Graph, b: Id, commit: bool): Graph
    requires b in g.dbiBindings && g.dbiBindings[b].record in g.records
  {
    var r := g.dbiBindings[b].record;
    if commit then
      g.(dbiBindings := g.dbiBindings[b := g.dbiBindings[b].(pendingTxn := None)],
         records := g.records[r := g.records[r].(pending := g.records[r].pending - {b}, committed := true)])
    else
      g.(dbis := g.dbis - {b},
         dbiBindings := g.dbiBindings[b := g.dbiBindings[b].(pendingTxn := None, closed := true)],
         records := g.records[r := g.records[r].(
           pending := g.records[r].pending - {b}, wrappers := g.records[r].wrappers - {b})])
  }

  /** `SettlePending` with only the wrappers `done` settled. */
  function SettledSoFar(g: Graph, t: Id, done: set<Id>, commit: bool): Graph
    requires t in g.txnBindings
  {
    g.(txnBindings := g.txnBindings[t := g.txnBindings[t].(pendingDbis := {})],
       dbis := if commit then g.dbis else g.dbis - done,
       dbiBindings := SettleBindings(g.dbiBindings, done, commit),
       records := SettleRecords(g.records, RecordsOf(g.dbiBindings, done), done, commit))
  }

  lemma SettledEnds(g: Graph, t: Id, commit: bool)
    requires t in g.txnBindings
    ensures SettledSoFar(g, t, {}, commit) == g.(txnBindings :=
                                                 g.txnBindings[t := g.txnBindings[t].(pendingDbis := {})])
    ensures SettledSoFar(g, t, g.txnBindings[t].pendingDbis, commit) == SettlePending(g, t, commit)
    ensures RecordsOf(g.dbiBindings, {}) == {}
  {
    assert RecordsOf(g.dbiBindings, {}) == {};
    assert SettleBindings(g.dbiBindings, {}, commit) == g.dbiBindings;
    assert SettleRecords(g.records, {}, {}, commit) == g.records;
    assert g.dbis - {} == g.dbis;
  }

  lemma SettledStep(g: Graph, t: Id, done: set<Id>, b: Id, commit: bool)
    requires InvDbis(g) && InvExist(g) && t in g.txnBindings && b in g.dbiBindings && b !in done
    ensures var g1 := SettledSoFar(g, t, done, commit);
      && b in g1.dbiBindings && g1.dbiBindings[b] == g.dbiBindings[b]
      && g1.dbiBindings[b].record in g1.records
      && (g1.dbiBindings[b].closed ==> b !in g1.dbis && b !in g1.records[g1.dbiBindings[b].record].wrappers)
      && SettleBinding(g1, b, commit) == SettledSoFar(g, t, done + {b}, commit)
  {
    hide SettleBindings, SettleRecords, RecordsOf, DbisOk, RecordsExist, SettledSoFar, SettleBinding, ListsOwn;
    SetsListOwn(g);
    KnownRecord(g, b);
    SettleOneBinding(g.dbiBindings, done, b, commit);
    SettleOneRecord(g.dbiBindings, g.records, done, b, commit);
    SettledFields(g, t, done, commit);
    SettledFields(g, t, done + {b}, commit);
    if g.dbiBindings[b].closed { ClosedIsUnlisted(g, done, b, commit); }
    SettledOne(SettledSoFar(g, t, done, commit), b, commit);
    assert g.dbis - (done + {b}) == g.dbis - done - {b};
  }

  lemma SettledFields(g: Graph, t: Id, done: set<Id>, commit: bool)
    requires t in g.txnBindings
    ensures SettledSoFar(g, t, done, commit) == g.(
      txnBindings := g.txnBindings[t := g.txnBindings[t].(pendingDbis := {})],
      dbis := if commit then g.dbis else g.dbis - done,
      dbiBindings := SettleBindings(g.dbiBindings, done, commit),
      records := SettleRecords(g.records, RecordsOf(g.dbiBindings, done), done, commit))
  {
    hide SettleBindings, SettleRecords, RecordsOf;
  }

  lemma SettledOne(g: Graph, b: Id, commit: bool)
    requires b in g.dbiBindings && g.dbiBindings[b].record in g.records
    ensures var r := g.dbiBindings[b].record;
      SettleBinding(g, b, commit) == g.(
        dbis := if commit then g.dbis else g.dbis - {b},
        dbiBindings := g.dbiBindings[b := if commit then g.dbiBindings[b].(pendingTxn := None)
                                          else g.dbiBindings[b].(pendingTxn := None, closed := true)],
        records := g.records[r := if commit then g.records[r].(pending := g.records[r].pending - {b}, committed := true)
                                  else g.records[r].(pending := g.records[r].pending - {b},
                                                     wrappers := g.records[r].wrappers - {b})])
  {}

  lemma KnownRecord(g: Graph, b: Id)
    requires InvExist(g) && b in g.dbiBindings
    ensures g.dbiBindings[b].record in g.records
  {}

  lemma PendingBinding(g: Graph, t: Id, b: Id)
    requires InvDbis(g) && InvExist(g) && t in g.txnBindings && b in g.txnBindings[t].pendingDbis
    ensures b in g.dbiBindings && g.dbiBindings[b].record in g.records
  {}

  /** A closed pending wrapper is on no list that invalidation would take it off. */
  lemma ClosedIsUnlisted(g: Graph, done: set<Id>, b: Id, commit: bool)
    requires InvDbis(g) && b in g.dbiBindings && g.dbiBindings[b].closed && g.dbiBindings[b].record in g.records
    ensures b !in g.dbis
    ensures b !in SettleRecords(g.records, RecordsOf(g.dbiBindings, done), done,
                                commit)[g.dbiBindings[b].record].wrappers
  {}

  lemma EndNoCursors(g: Graph, t: Id, phase: CursorPhase)
    requires t in g.txnBindings
    ensures g == g.(txnBindings := g.txnBindings[t := g.txnBindings[t].(cursors := g.txnBindings[t].cursors)],
                    cursorBindings := EndCursors(g.cursorBindings, g.txnBindings[t].cursors - g.txnBindings[t].cursors,
                                                 phase))
  {
    assert EndCursors(g.cursorBindings, g.txnBindings[t].cursors - g.txnBindings[t].cursors, phase) == g.cursorBindings;
    assert g.txnBindings[t := g.txnBindings[t].(cursors := g.txnBindings[t].cursors)] == g.txnBindings;
  }

  lemma EndedKeys(bindings: CursorBindings, cs: set<Id>, phase: CursorPhase, c: Id)
    ensures c in EndCursors(bindings, cs, phase) <==> c in bindings
    ensures c in bindings && c !in cs ==> EndCursors(bindings, cs, phase)[c] == bindings[c]
  {}

  lemma HeapOf(g: Graph, ended: Option<Id>, todo: set<Id>)
    requires InvMid(g, ended, todo)
    ensures InvHeap(g, todo) && (Tracked(g) ==> InvNative(g, ended))
  {
    hide InvHeap, InvNative;
  }

  lemma OpenedKeeps(w: Id)
    ensures Inv(OpenedEnvironment(w))
  {}
}
