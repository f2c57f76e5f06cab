/**
 What the steps of the ownership graph do to its tables, entity by entity, and when
 a record's handle goes: exactly when nothing refers to it any more.
 */
module OperationEffects {
  import opened Common
  import opened NativeLmdb
  import opened Ownership
  import opened OwnershipLemmas
  import opened TransactionLemmas
  import opened DbiLemmas
  import opened DropLemmas
  import opened RetentionLemmas
  import opened EnvironmentLemmas
  import opened PublicOperations

  /** An open or pending wrapper, a cursor that is not closed, or an unreleased lease is on record `r`. */
  ghost predicate Referred(g: Graph, r: Id) { Wrapped(g, r) || Pointed(g, r) || Held(g, r) }

  ghost predicate Wrapped(g: Graph, r: Id) {
    exists b :: b in g.dbiBindings && g.dbiBindings[b].record == r
                && (!g.dbiBindings[b].closed || g.dbiBindings[b].pendingTxn.Some?)
  }

  ghost predicate Pointed(g: Graph, r: Id) {
    exists c :: c in g.cursors && OnRecord(g.cursorBindings, g.dbiBindings, c, r)
  }

  ghost predicate Held(g: Graph, r: Id) {
    exists l :: l in g.leases && g.leases[l].record == r && !g.leases[l].released
  }

  /** The sets and counts of a record tell just that. */
  lemma ReferredIff(g: Graph, r: Id)
    requires InvHeap(g, {}) && r in g.records
    ensures Referred(g, r) <==> !Unreferenced(g.records[r])
  {
    hide InvHeap, Wrapped, Pointed, Held;
    WrappedIff(g, r);
    PointedIff(g, r);
    HeldIff(g, r);
  }

  lemma WrappedIff(g: Graph, r: Id)
    requires InvHeap(g, {}) && r in g.records
    ensures Wrapped(g, r) <==> g.records[r].wrappers != {} || g.records[r].pending != {}
  {
    hide TxnsOk, CursorsOk, CursorCountsOk, LeaseCountsOk, RecordsOk, HandleMapOk, RecordsExist, ShapeOk, OpenDbisOk,
         PendingTxnsOk;
    var record := g.records[r];
    if b :| b in record.wrappers {
      assert b in g.dbiBindings;
    } else if b :| b in record.pending {
      assert b in g.dbiBindings;
    }
  }

  lemma PointedIff(g: Graph, r: Id)
    requires InvHeap(g, {}) && r in g.records
    ensures Pointed(g, r) <==> g.records[r].cursorRefs != 0
  {
    hide TxnsOk, CursorsOk, DbisOk, LeaseCountsOk, RecordsOk, HandleMapOk, RecordsExist, ShapeOk;
    var cs := CursorsOn(g.cursors, g.cursorBindings, g.dbiBindings, r);
    assert forall c :: c in cs <==> c in g.cursors && OnRecord(g.cursorBindings, g.dbiBindings, c, r);
    NonemptyCount(cs);
    assert Pointed(g, r) <==> exists c :: c in cs;
  }

  lemma HeldIff(g: Graph, r: Id)
    requires InvHeap(g, {}) && r in g.records
    ensures Held(g, r) <==> g.records[r].batchRefs != 0
  {
    hide TxnsOk, CursorsOk, DbisOk, CursorCountsOk, RecordsOk, HandleMapOk, RecordsExist, ShapeOk;
    var ls := LeasesOn(g.leases, r);
    assert forall l :: l in ls <==> l in g.leases && g.leases[l].record == r && !g.leases[l].released;
    NonemptyCount(ls);
    assert Held(g, r) <==> exists l :: l in ls;
  }

  lemma NonemptyCount(s: set<Id>)
    ensures |s| != 0 <==> exists x :: x in s
  {
    if s != {} { var x :| x in s; }
  }

  /** Record `r` stays in the handle map, and its handle open, while something refers to it. */
  ghost predicate KeptWhileReferred(g: Graph, g': Graph, r: Id)
    requires r in g.records
  {
    && g'.dbiRecords == (if Referred(g', r) || !Mapped(g, r) then g.dbiRecords
                         else g.dbiRecords - {g.records[r].handle})
    && (Tracked(g) && !g'.native.fault ==>
          g'.native.slots == if Referred(g', r) || !g.records[r].committed then g.native.slots
                             else g.native.slots - {g.records[r].handle})
  }

  /** The same in terms of the record's sets and counts. */
  ghost predicate Gone(g: Graph, g': Graph, r: Id)
    requires r in g.records
  {
    r in g'.records &&
    var last := Unreferenced(g'.records[r]);
    && g'.dbiRecords == (if last && Mapped(g, r) then g.dbiRecords - {g.records[r].handle} else g.dbiRecords)
    && (Tracked(g) && !g'.native.fault ==>
          g'.native.slots == if last && g.records[r].committed then g.native.slots - {g.records[r].handle}
                             else g.native.slots)
  }

  // -------------------------------------------------------------- closing

  lemma Finalized(g: Graph, r: Id, closeNative: bool)
    requires r in g.records
    ensures var g' := FinalizeRecord(g, r, closeNative);
      && g' == g.(dbiRecords := g'.dbiRecords, native := g'.native)
      && g'.dbiRecords == (if !Unreferenced(g.records[r]) || !Mapped(g, r) then g.dbiRecords
                           else g.dbiRecords - {g.records[r].handle})
      && g'.native.cursors == g.native.cursors
      && (Tracked(g) && !g'.native.fault && closeNative ==>
            g'.native.slots == if !Unreferenced(g.records[r]) || !g.records[r].committed then g.native.slots
                               else g.native.slots - {g.records[r].handle})
  {
    hide CursorOnSlot, Modified;
  }

  /** A closed wrapper is closed, and nothing else is. */
  lemma DbiReleased(g: Graph, b: Id)
    requires Inv(g) && b in g.dbis && b in g.dbiBindings && g.dbiBindings[b].record in g.records
    ensures var g', r := ReleaseDbi(g, b, true), g.dbiBindings[b].record;
      && g' == g.(dbiBindings := g.dbiBindings[b := g.dbiBindings[b].(closed := true)], dbis := g.dbis - {b},
                  records := g.records[r := g.records[r].(wrappers := g.records[r].wrappers - {b})],
                  dbiRecords := g'.dbiRecords, native := g'.native)
      && KeptWhileReferred(g, g', r)
  {
    hide Inv, InvMid, InvHeap, ReleaseDbi, Unreferenced, Referred, MayCloseDbi, Tracked, Mapped;
    MidOf(g);
    var r := g.dbiBindings[b].record;
    ReleaseDbiKeeps(g, b, true);
    MidHeap(ReleaseDbi(g, b, true));
    OpenIsNotClosed(g, b);
    ReleasedTables(g, b, r);
    if g.dbiBindings[b].pendingTxn.Some? { StillPending(g, b, r); }
    ReferredIff(ReleaseDbi(g, b, true), r);
  }

  lemma OpenIsNotClosed(g: Graph, b: Id)
    requires InvHeap(g, {}) && b in g.dbis && b in g.dbiBindings
    ensures !g.dbiBindings[b].closed
  {
    hide TxnsOk, CursorsOk, CursorCountsOk, LeaseCountsOk, RecordsOk, HandleMapOk, RecordsExist, WrapperSetsOk,
         PendingSetsOk, PendingTxnsOk;
  }

  lemma ReleasedTables(g: Graph, b: Id, r: Id)
    requires b in g.dbiBindings && g.dbiBindings[b].record == r && r in g.records && !g.dbiBindings[b].closed
    ensures var g' := ReleaseDbi(g, b, true);
      && g' == g.(dbiBindings := g.dbiBindings[b := g.dbiBindings[b].(closed := true)], dbis := g.dbis - {b},
                  records := g.records[r := g.records[r].(wrappers := g.records[r].wrappers - {b})],
                  dbiRecords := g'.dbiRecords, native := g'.native)
      && (if g.dbiBindings[b].pendingTxn.Some? then g'.dbiRecords == g.dbiRecords && g'.native == g.native
          else Gone(g, g', r))
  {
    hide FinalizeRecord, Unreferenced, UnlinkDbi, Mapped, Tracked;
    UnlinkedDbi(g, b, r);
    if g.dbiBindings[b].pendingTxn == None { Finalized(UnlinkDbi(g, b), r, true); }
  }

  lemma UnlinkedDbi(g: Graph, b: Id, r: Id)
    requires b in g.dbiBindings && g.dbiBindings[b].record == r && r in g.records
    ensures var u := UnlinkDbi(g, b);
      && u == g.(dbiBindings := g.dbiBindings[b := g.dbiBindings[b].(closed := true)], dbis := g.dbis - {b},
                 records := g.records[r := g.records[r].(wrappers := g.records[r].wrappers - {b})])
      && Mapped(u, r) == Mapped(g, r) && Tracked(u) == Tracked(g)
  {}

  lemma StillPending(g: Graph, b: Id, r: Id)
    requires InvHeap(g, {}) && b in g.dbiBindings && g.dbiBindings[b].record == r && r in g.records
    requires g.dbiBindings[b].pendingTxn.Some?
    ensures ReleaseDbi(g, b, true).records.Keys == g.records.Keys
    ensures !Unreferenced(ReleaseDbi(g, b, true).records[r])
  {
    hide TxnsOk, CursorsOk, CursorCountsOk, LeaseCountsOk, RecordsOk, HandleMapOk, RecordsExist, FinalizeRecord;
    assert b in g.records[r].pending;
  }

  /** A closed cursor is closed, has left its transaction, and its record has one reference less. */
  lemma CursorIsClosed(g: Graph, c: Id)
    requires Inv(g) && c in g.cursors && c in g.cursorBindings && g.cursorBindings[c].dbi in g.dbiBindings
    requires g.dbiBindings[g.cursorBindings[c].dbi].record in g.records
    ensures var g', r, cursor := CloseCursor(g, c, true, true), g.dbiBindings[g.cursorBindings[c].dbi].record,
        g.cursorBindings[c];
      && g' == g.(cursorBindings := g.cursorBindings[c := cursor.(handle := false, txn := None, phase := CursorClosed)],
                  cursors := g.cursors - {c}, txnBindings := g'.txnBindings,
                  records := g.records[r := g.records[r].(cursorRefs := g.records[r].cursorRefs - 1)],
                  dbiRecords := g'.dbiRecords, native := g'.native)
      && LeftBy(g.txnBindings, g'.txnBindings, cursor.txn, c)
      && KeptWhileReferred(g, g', r)
      && (Tracked(g) && !g'.native.fault ==> g'.native.cursors == g.native.cursors - {c})
  {
    hide Inv, InvMid, InvHeap, CloseCursor, Unreferenced, Referred, MayCloseCursor, Tracked, Mapped, LeftBy, InvNative;
    MidOf(g);
    var r := g.dbiBindings[g.cursorBindings[c].dbi].record;
    CursorRecord(g, {}, c);
    CursorInTxn(g, c);
    CloseCursorKeeps(g, None, {}, c, true, true);
    MidHeap(CloseCursor(g, c, true, true));
    ClosedCursorTables(g, c, r);
    ReferredIff(CloseCursor(g, c, true, true), r);
    if Tracked(g) { CursorHandle(g, c); }
  }

  /** Cursor `c` is no longer among those of the transaction it was in. */
  ghost predicate LeftBy(before: Transactions, after: Transactions, t: Option<Id>, c: Id) {
    && after.Keys == before.Keys
    && forall u :: u in before ==>
         after[u] == if t == Some(u) then before[u].(cursors := before[u].cursors - {c}) else before[u]
  }

  /** A cursor has its native handle exactly while it is in a transaction. */
  lemma CursorHandle(g: Graph, c: Id)
    requires InvHeap(g, {}) && InvMid(g, None, {}) && Tracked(g) && c in g.cursorBindings
    ensures g.cursorBindings[c].handle <==> c in g.native.cursors
  {
    hide TxnsOk, DbisOk, CursorCountsOk, LeaseCountsOk, RecordsOk, HandleMapOk, RecordsExist, NativeTxnsOk, SlotsOk,
         PrivateOk, ShapeOk, WrittenOk;
  }

  lemma CursorInTxn(g: Graph, c: Id)
    requires InvHeap(g, {}) && c in g.cursorBindings
    ensures g.cursorBindings[c].handle <==> g.cursorBindings[c].txn.Some?
  {
    hide TxnsOk, DbisOk, CursorCountsOk, LeaseCountsOk, RecordsOk, HandleMapOk, RecordsExist, ShapeOk;
  }

  lemma ClosedCursorTables(g: Graph, c: Id, r: Id)
    requires c in g.cursorBindings && g.cursorBindings[c].dbi in g.dbiBindings
    requires g.cursorBindings[c].phase != CursorClosed
    requires g.dbiBindings[g.cursorBindings[c].dbi].record == r && r in g.records
    ensures var g', cursor := CloseCursor(g, c, true, true), g.cursorBindings[c];
      && g' == g.(cursorBindings := g.cursorBindings[c := cursor.(handle := false, txn := None, phase := CursorClosed)],
                  cursors := g.cursors - {c}, txnBindings := g'.txnBindings,
                  records := g.records[r := g.records[r].(cursorRefs := g.records[r].cursorRefs - 1)],
                  dbiRecords := g'.dbiRecords, native := g'.native)
      && LeftBy(g.txnBindings, g'.txnBindings, cursor.txn, c) && Gone(g, g', r)
      && (Tracked(g) && !g'.native.fault ==>
            g'.native.cursors == if cursor.handle then g.native.cursors - {c} else g.native.cursors)
  {
    hide FinalizeRecord, Unreferenced, UnlinkCursor, Mapped, LeftBy;
    UnlinkedCursor(g, c, r);
    var u := UnlinkCursor(g, c, true);
    Finalized(u, r, true);
    if u.native.fault { FaultStays(u, r, true); }
  }

  lemma FaultStays(g: Graph, r: Id, closeNative: bool)
    requires r in g.records && g.native.fault
    ensures FinalizeRecord(g, r, closeNative).native.fault
  {}

  lemma UnlinkedCursor(g: Graph, c: Id, r: Id)
    requires c in g.cursorBindings && g.cursorBindings[c].dbi in g.dbiBindings
    requires g.dbiBindings[g.cursorBindings[c].dbi].record == r && r in g.records
    ensures var u, cursor := UnlinkCursor(g, c, true), g.cursorBindings[c];
      && u == g.(cursorBindings := g.cursorBindings[c := cursor.(handle := false, txn := None, phase := CursorClosed)],
                 cursors := g.cursors - {c}, txnBindings := u.txnBindings,
                 records := g.records[r := g.records[r].(cursorRefs := g.records[r].cursorRefs - 1)],
                 native := u.native)
      && LeftBy(g.txnBindings, u.txnBindings, cursor.txn, c)
      && Mapped(u, r) == Mapped(g, r) && u.native.slots == g.native.slots
      && (!g.poisoned && !u.native.fault ==>
            u.native.cursors == if cursor.handle then g.native.cursors - {c} else g.native.cursors)
  {}

  /** A released lease is released, and its record has one reference less. */
  lemma LeaseIsReleased(g: Graph, l: Id)
    requires Inv(g) && l in g.leases && g.leases[l].record in g.records && !g.leases[l].released
    ensures var g', r := ReleaseLease(g, l), g.leases[l].record;
      && g' == g.(leases := g.leases[l := Lease(r, true)],
                  records := g.records[r := g.records[r].(batchRefs := g.records[r].batchRefs - 1)],
                  dbiRecords := g'.dbiRecords, native := g'.native)
      && KeptWhileReferred(g, g', r)
  {
    hide Inv, InvMid, InvHeap, ReleaseLease, Unreferenced, Referred, MayReleaseLease, Tracked, Mapped;
    MidOf(g);
    var r := g.leases[l].record;
    LeaseIsCounted(g, l);
    ReleaseLeaseKeeps(g, l);
    MidHeap(ReleaseLease(g, l));
    ReleasedLeaseTables(g, l, r);
    ReferredIff(ReleaseLease(g, l), r);
  }

  lemma LeaseIsCounted(g: Graph, l: Id)
    requires InvHeap(g, {}) && l in g.leases && g.leases[l].record in g.records && !g.leases[l].released
    ensures g.records[g.leases[l].record].batchRefs > 0
  {
    hide TxnsOk, CursorsOk, DbisOk, CursorCountsOk, RecordsOk, HandleMapOk, RecordsExist, ShapeOk;
    assert l in LeasesOn(g.leases, g.leases[l].record);
  }

  lemma ReleasedLeaseTables(g: Graph, l: Id, r: Id)
    requires l in g.leases && g.leases[l] == Lease(r, false) && r in g.records && g.records[r].batchRefs > 0
    ensures var g' := ReleaseLease(g, l);
      && g' == g.(leases := g.leases[l := Lease(r, true)],
                  records := g.records[r := g.records[r].(batchRefs := g.records[r].batchRefs - 1)],
                  dbiRecords := g'.dbiRecords, native := g'.native)
      && Gone(g, g', r)
  {
    hide FinalizeRecord, Unreferenced, UnlinkLease, Mapped;
    UnlinkedLease(g, l, r);
    Finalized(UnlinkLease(g, l), r, g.records[r].committed && !g.poisoned);
    if !g.records[r].committed { NothingClosed(UnlinkLease(g, l), r); }
  }

  lemma NothingClosed(g: Graph, r: Id)
    requires r in g.records
    ensures FinalizeRecord(g, r, false).native == g.native
  {}

  lemma UnlinkedLease(g: Graph, l: Id, r: Id)
    requires l in g.leases && g.leases[l] == Lease(r, false) && r in g.records && g.records[r].batchRefs > 0
    ensures var u := UnlinkLease(g, l);
      && u == g.(leases := g.leases[l := Lease(r, true)],
                 records := g.records[r := g.records[r].(batchRefs := g.records[r].batchRefs - 1)])
      && Mapped(u, r) == Mapped(g, r)
  {}

  // -------------------------------------------------------------- opening

  /**
   A database opened inside transaction `t` waits for it, on the record LMDB's handle
   already has or on a new one that is not committed.
   */
  lemma DbiOpenedIn(g: Graph, b: Id, h: nat, newRecord: Id, t: Id)
    requires (h in g.dbiRecords ==> g.dbiRecords[h] in g.records) && t in g.txnBindings
    ensures var g', r := OpenPendingDbi(g, b, h, newRecord, t),
        if h in g.dbiRecords then g.dbiRecords[h] else newRecord;
      && g' == g.(dbiBindings := g.dbiBindings[b := DbiBinding(r, Some(t), false)], dbis := g.dbis + {b},
                  txnBindings := g.txnBindings[
                    t := g.txnBindings[t].(pendingDbis := g.txnBindings[t].pendingDbis + {b})],
                  dbiRecords := g.dbiRecords[h := r], native := g'.native,
                  records := g.records[
                    r := if h !in g.dbiRecords then DbiRecord(h, {b}, {b}, 0, 0, false)
                         else g.records[r].(wrappers := g.records[r].wrappers + {b},
                                            pending := g.records[r].pending + {b})])
      && (!g.native.fault && !g'.native.fault ==>
            g'.native == g.native.(openers := {t},
                                   slots := if h in g.native.slots then g.native.slots
                                            else g.native.slots[h := Private(t)]))
  {
    hide Usable;
    Alone(b);
  }

  lemma Alone(b: Id)
    ensures {} + {b} == {b}
  {}

  /** One opened with a transaction of its own is settled, and its record committed. */
  lemma DbiOpenedInternally(g: Graph, b: Id, h: nat, newRecord: Id, t: Id, create: bool)
    requires Inv(g) && t !in g.transactions && (create ==> g.activeWriter == NoWriter)
    requires h in g.dbiRecords ==> g.dbiRecords[h] in g.records
    ensures var g', r := OpenCommittedDbi(g, b, h, newRecord, t, create, true),
        if h in g.dbiRecords then g.dbiRecords[h] else newRecord;
      && g' == g.(dbiBindings := g.dbiBindings[b := DbiBinding(r, None, false)], dbis := g.dbis + {b},
                  dbiRecords := g.dbiRecords[h := r], native := g'.native,
                  records := g.records[
                    r := if h !in g.dbiRecords then DbiRecord(h, {b}, {}, 0, 0, true)
                         else g.records[r].(wrappers := g.records[r].wrappers + {b}, committed := true)])
      && (Tracked(g) && g.native.openers == {} ==>
            g'.native == g.native.(slots := g.native.slots[h := Shared]))
  {
    hide InvHeap, InvNative, TxnEnd, TxnBegin, DbiOpen, WrittenOk, InvLife;
    Alone(b);
    if Tracked(g) && g.native.openers == {} {
      QuietNative(g, None);
      ForeignTxn(g, t);
      InternalOpen(g.native, t, h, !create, true);
    }
  }

  // ------------------------------------------------------------- dropping

  /** Every wrapper of record `r`, pending or not, is closed and has left its transaction; no other is touched. */
  ghost predicate RecordGone(g: Graph, g': Graph, r: Id)
    requires r in g.records
  {
    && g' == g.(dbiBindings := g'.dbiBindings, dbis := g'.dbis, txnBindings := g'.txnBindings,
                records := g.records[r := g.records[r].(wrappers := {}, pending := {})],
                dbiRecords := g.dbiRecords - {g.records[r].handle}, native := g'.native)
    && g'.dbiBindings.Keys == g.dbiBindings.Keys && g'.txnBindings.Keys == g.txnBindings.Keys
    && (forall b :: b in g.dbiBindings ==>
          g'.dbiBindings[b] == if g.dbiBindings[b].record == r then DbiBinding(r, None, true) else g.dbiBindings[b])
    && (forall b :: b in g'.dbis <==> b in g.dbis && b in g.dbiBindings && g.dbiBindings[b].record != r)
    && (forall t :: t in g.txnBindings ==>
          && g'.txnBindings[t] == g.txnBindings[t].(pendingDbis := g'.txnBindings[t].pendingDbis)
          && forall b :: b in g'.txnBindings[t].pendingDbis <==>
                           b in g.txnBindings[t].pendingDbis && b in g.dbiBindings && g.dbiBindings[b].record != r)
  }

  lemma RecordInvalidated(g: Graph, n: Lmdb, r: Id)
    requires InvHeap(g, {}) && r in g.records && Mapped(g, r)
    ensures RecordGone(g, InvalidateRecord(g.(native := n), r), r)
  {
    hide TxnsOk, CursorsOk, CursorCountsOk, LeaseCountsOk, RecordsOk, HandleMapOk;
  }

  /** Deleting a database inside a transaction. */
  lemma DbiDroppedIn(g: Graph, r: Id, t: Id)
    requires Inv(g) && r in g.records && Mapped(g, r)
    ensures var g', h := DropInTransaction(g, r, t), g.records[r].handle;
      && RecordGone(g, g', r)
      && (!g.native.fault && !g'.native.fault ==>
            g'.native == g.native.(slots := g.native.slots - {h},
                                   written := set p | p in g.native.written && p.1 != h))
  {
    hide InvHeap, InvNative, InvLife, InvMid, InvalidateRecord, CursorOnSlot, Usable, RecordGone, ModifiedByOther;
    MidOf(g);
    var n := Drop(g.native, t, g.records[r].handle, true);
    RecordInvalidated(g, n, r);
    InvalidatedNative(g, n, r);
  }

  lemma InvalidatedNative(g: Graph, n: Lmdb, r: Id)
    requires r in g.records
    ensures InvalidateRecord(g.(native := n), r).native == n
  {}

  /** Deleting it with a transaction of its own, which commits; one that does not leaves every table as it was. */
  lemma DbiDroppedInternally(g: Graph, r: Id, t: Id)
    requires Inv(g) && r in g.records && Mapped(g, r)
    ensures RecordGone(g, DropInternally(g, r, t, true, true), r)
    ensures DropInternally(g, r, t, true, false)
         == g.(native := DropInternally(g, r, t, true, false).native)
  {
    hide InvHeap, InvNative, InvLife, InvMid, InvalidateRecord, RecordGone, TxnBegin, TxnEnd, Drop;
    MidOf(g);
    var h := g.records[r].handle;
    RecordInvalidated(g, TxnEnd(Drop(TxnBegin(g.native, t, false), t, h, true), t, true), r);
  }

  // --------------------------------------------------------------- ending

  /**
   What the end of a transaction does to each database wrapper, cursor and record: a
   commit settles the databases it opened and any other end closes them, its cursors
   are detached from a reader and closed with a writer, and nothing of the others moves.
   */
  lemma Ended(o: Graph, g: Graph, t: Id, commit: bool)
    requires Inv(o) && TransactionEnded(o, g, t, commit)
    ensures t in o.txnBindings && g.dbiBindings.Keys == o.dbiBindings.Keys
    ensures forall b :: b in o.dbiBindings ==>
      g.dbiBindings[b] == if o.dbiBindings[b].pendingTxn != Some(t) then o.dbiBindings[b]
                          else o.dbiBindings[b].(pendingTxn := None, closed := !commit || o.dbiBindings[b].closed)
    ensures forall b :: b in g.dbis <==>
      b in o.dbis && b in o.dbiBindings && (commit || o.dbiBindings[b].pendingTxn != Some(t))
    ensures g.cursorBindings.Keys == o.cursorBindings.Keys
    ensures var ended := if o.txnBindings[t].readOnly && !o.poisoned then CursorDetached else CursorClosed;
      && (forall c :: c in o.cursorBindings ==>
            g.cursorBindings[c] == if o.cursorBindings[c].txn != Some(t) then o.cursorBindings[c]
                                   else o.cursorBindings[c].(handle := false, txn := None, phase := ended))
      && (forall c :: c in g.cursors <==>
            c in o.cursors && c in o.cursorBindings && (ended == CursorDetached || o.cursorBindings[c].txn != Some(t)))
    ensures g.records.Keys == o.records.Keys
    ensures forall r :: r in o.records ==>
      && g.records[r].handle == o.records[r].handle
      && (g.records[r].committed <==>
            o.records[r].committed || (commit && WaitsOn(o, t, r)))
  {
    hide TransactionEnded, TxnsOk, CursorCountsOk, LeaseCountsOk, RecordsOk, HandleMapOk, RecordsExist, InvNative;
    MidOf(o);
    EndedDbis(o, g, t, commit);
    EndedCursorsOf(o, g, t, commit);
    EndedRecords(o, g, t, commit);
  }

  lemma EndedDbis(o: Graph, g: Graph, t: Id, commit: bool)
    requires InvHeap(o, {}) && TransactionEnded(o, g, t, commit)
    ensures t in o.txnBindings && g.dbiBindings.Keys == o.dbiBindings.Keys
    ensures forall b :: b in o.dbiBindings ==>
      g.dbiBindings[b] == if o.dbiBindings[b].pendingTxn != Some(t) then o.dbiBindings[b]
                          else o.dbiBindings[b].(pendingTxn := None, closed := !commit || o.dbiBindings[b].closed)
    ensures forall b :: b in g.dbis <==>
      b in o.dbis && b in o.dbiBindings && (commit || o.dbiBindings[b].pendingTxn != Some(t))
  {
    hide TxnsOk, CursorsOk, CursorCountsOk, LeaseCountsOk, RecordsOk, HandleMapOk, RecordsExist, EndCursors,
         SettleRecords, WrittenByOthers, SameButCounts, WrapperSetsOk, PendingSetsOk, OpenDbisOk;
    forall b | b in o.dbiBindings
      ensures b in o.txnBindings[t].pendingDbis <==> o.dbiBindings[b].pendingTxn == Some(t)
    {}
  }

  lemma EndedCursorsOf(o: Graph, g: Graph, t: Id, commit: bool)
    requires InvHeap(o, {}) && TransactionEnded(o, g, t, commit)
    ensures t in o.txnBindings && g.cursorBindings.Keys == o.cursorBindings.Keys
    ensures var ended := if o.txnBindings[t].readOnly && !o.poisoned then CursorDetached else CursorClosed;
      && (forall c :: c in o.cursorBindings ==>
            g.cursorBindings[c] == if o.cursorBindings[c].txn != Some(t) then o.cursorBindings[c]
                                   else o.cursorBindings[c].(handle := false, txn := None, phase := ended))
      && (forall c :: c in g.cursors <==>
            c in o.cursors && c in o.cursorBindings && (ended == CursorDetached || o.cursorBindings[c].txn != Some(t)))
  {
    hide TxnsOk, DbisOk, CursorCountsOk, LeaseCountsOk, RecordsOk, HandleMapOk, RecordsExist, SettleBindings,
         SettleRecords, WrittenByOthers, SameButCounts;
    forall c | c in o.cursorBindings
      ensures c in o.txnBindings[t].cursors <==> o.cursorBindings[c].txn == Some(t)
    {}
  }

  /** Some database that waits for `t` is on record `r`. */
  ghost predicate WaitsOn(g: Graph, t: Id, r: Id) {
    exists b :: b in g.dbiBindings && g.dbiBindings[b].record == r && g.dbiBindings[b].pendingTxn == Some(t)
  }

  lemma EndedRecords(o: Graph, g: Graph, t: Id, commit: bool)
    requires InvHeap(o, {}) && TransactionEnded(o, g, t, commit)
    ensures g.records.Keys == o.records.Keys
    ensures forall r :: r in o.records ==>
      && g.records[r].handle == o.records[r].handle
      && (g.records[r].committed <==> o.records[r].committed || (commit && WaitsOn(o, t, r)))
  {
    hide TxnsOk, CursorsOk, CursorCountsOk, LeaseCountsOk, RecordsOk, HandleMapOk, RecordsExist, EndCursors,
         SettleBindings, WrittenByOthers, WrapperSetsOk, PendingSetsOk, OpenDbisOk;
    forall r | r in o.records ensures r in PendingRecords(o, t) <==> WaitsOn(o, t, r) {
      if r in PendingRecords(o, t) {
        var b :| b in o.txnBindings[t].pendingDbis && b in o.dbiBindings && o.dbiBindings[b].record == r;
      }
      if WaitsOn(o, t, r) {
        var b :| b in o.dbiBindings && o.dbiBindings[b].record == r && o.dbiBindings[b].pendingTxn == Some(t);
        assert b in o.txnBindings[t].pendingDbis;
      }
    }
  }

  lemma MidHeap(g: Graph)
    requires InvMid(g, None, {})
    ensures InvHeap(g, {})
  {
    hide InvHeap, InvNative;
  }
}
