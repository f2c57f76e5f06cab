/** The steps that begin, end, reset and renew transactions keep the graph invariant. */
module TransactionLemmas {
  import opened Common
  import opened NativeLmdb
  import opened Ownership
  import opened OwnershipLemmas

  // --------------------------------------------- settling pending databases

  /** The two tables agree on everything but the pending sets. */
  ghost predicate SameButPending(a: Transactions, b: Transactions) {
    a.Keys == b.Keys && forall t :: t in a ==> b[t] == a[t].(pendingDbis := b[t].pendingDbis)
  }

  /** The two tables agree on which record each wrapper names. */
  ghost predicate SameRecordOf(a: DbiBindings, b: DbiBindings) {
    a.Keys == b.Keys && forall d :: d in a ==> b[d].record == a[d].record
  }

  /** The two record tables agree on handles and reference counts. */
  ghost predicate SameRefs(a: DbiRecords, b: DbiRecords) {
    && a.Keys == b.Keys
    && forall r :: r in a ==>
         b[r].handle == a[r].handle && b[r].cursorRefs == a[r].cursorRefs && b[r].batchRefs == a[r].batchRefs
  }

  lemma SameButPendingTables(g: Graph, b: Transactions)
    requires SameButPending(g.txnBindings, b) && InvTxns(g)
    ensures TxnsOk(g.wrappers, g.refCount, b, g.transactions, g.activeWriter)
  {}

  lemma SameButPendingCursors(g: Graph, b: Transactions)
    requires SameButPending(g.txnBindings, b) && InvCursors(g)
    ensures CursorsOk(g.cursorBindings, g.cursors, b)
  {}

  lemma SameRecordOfShape(g: Graph, t: Transactions, d: DbiBindings, ds: set<Id>, records: DbiRecords)
    requires InvShape(g) && InvExist(g) && InvMap(g)
    requires SameButPending(g.txnBindings, t) && SameRecordOf(g.dbiBindings, d) && SameRefs(g.records, records)
    requires ds <= g.dbis
    ensures ShapeOk(t, g.transactions, g.cursorBindings, g.cursors, d, ds)
    ensures RecordsExist(d, g.leases, records) && HandleMapOk(g.dbiRecords, records)
  {}

  lemma SameRecordOfCounts(g: Graph, d: DbiBindings, records: DbiRecords)
    requires SameRecordOf(g.dbiBindings, d) && SameRefs(g.records, records)
    requires InvCursorCounts(g) && InvLeaseCounts(g)
    ensures CursorCountsOk(records, g.cursors, g.cursorBindings, d) && LeaseCountsOk(records, g.leases)
  {
    forall r | r in records
      ensures CursorsOn(g.cursors, g.cursorBindings, d, r)
        == CursorsOn(g.cursors, g.cursorBindings, g.dbiBindings, r) {}
  }

  lemma SettleSame(g: Graph, t: Id, commit: bool)
    requires t in g.txnBindings
    ensures SameButPending(g.txnBindings, SettlePending(g, t, commit).txnBindings)
  {
    hide SettleBindings, SettleRecords, PendingRecords;
  }

  lemma SettleSameRecords(bindings: DbiBindings, records: DbiRecords, rs: set<Id>, p: set<Id>, commit: bool)
    ensures SameRecordOf(bindings, SettleBindings(bindings, p, commit))
    ensures SameRefs(records, SettleRecords(records, rs, p, commit))
  {}

  lemma SettleOpen(bindings: DbiBindings, dbis: set<Id>, p: set<Id>, commit: bool)
    requires OpenDbisOk(bindings, dbis)
    ensures OpenDbisOk(SettleBindings(bindings, p, commit), if commit then dbis else dbis - p)
  {}

  lemma SettleWrappers(bindings: DbiBindings, records: DbiRecords, rs: set<Id>, p: set<Id>, commit: bool)
    requires WrapperSetsOk(bindings, records)
    requires forall b :: b in p && b in bindings ==> bindings[b].record in rs
    ensures WrapperSetsOk(SettleBindings(bindings, p, commit), SettleRecords(records, rs, p, commit))
  {}

  lemma SettlePendingSets(bindings: DbiBindings, records: DbiRecords, rs: set<Id>, p: set<Id>, commit: bool)
    requires PendingSetsOk(bindings, records)
    requires forall b :: b in p && b in bindings ==> bindings[b].record in rs
    ensures PendingSetsOk(SettleBindings(bindings, p, commit), SettleRecords(records, rs, p, commit))
  {}

  lemma SettlePendingTxns(bindings: DbiBindings, txns: Transactions, t: Id, commit: bool)
    requires t in txns && PendingTxnsOk(bindings, txns)
    ensures PendingTxnsOk(SettleBindings(bindings, txns[t].pendingDbis, commit), txns[t := txns[t].(pendingDbis := {})])
  {}

  lemma SettleRecordsOk(records: DbiRecords, dbiRecords: map<nat, Id>, rs: set<Id>, p: set<Id>, commit: bool)
    requires RecordsOk(records, dbiRecords, {})
    requires forall r :: r in rs && r in records ==> records[r].pending != {}
    ensures RecordsOk(SettleRecords(records, rs, p, commit), dbiRecords, rs)
  {}

  lemma PendingNonempty(g: Graph, t: Id, r: Id)
    requires t in g.txnBindings && InvDbis(g) && InvExist(g) && r in PendingRecords(g, t)
    ensures r in g.records && g.records[r].pending != {}
  {
    var b :| b in g.txnBindings[t].pendingDbis && b in g.dbiBindings && g.dbiBindings[b].record == r;
    assert b in g.records[r].pending;
  }

  lemma EndNativeHeap(g: Graph, t: Id, commit: bool)
    requires InvHeap(g, {}) && t in g.txnBindings
    ensures InvHeap(EndNative(g, t, commit), PendingRecords(g, t))
  {
    hide TxnsOk, OpenDbisOk, WrapperSetsOk, PendingSetsOk, PendingTxnsOk, LeaseCountsOk, CursorsOk, ShapeOk,
         RecordsExist, HandleMapOk, RecordsOk, CursorCountsOk,
         TxnEnd, SameButPending, SameRecordOf, SameRefs, SettleBindings, SettleRecords;
    var g' := EndNative(g, t, commit);
    var p, rs := g.txnBindings[t].pendingDbis, PendingRecords(g, t);
    SettleSame(g, t, commit);
    SettleSameRecords(g.dbiBindings, g.records, rs, p, commit);
    SameButPendingTables(g, g'.txnBindings);
    SameButPendingCursors(g, g'.txnBindings);
    SameRecordOfShape(g, g'.txnBindings, g'.dbiBindings, g'.dbis, g'.records);
    SameRecordOfCounts(g, g'.dbiBindings, g'.records);
    SettleOpen(g.dbiBindings, g.dbis, p, commit);
    SettleWrappers(g.dbiBindings, g.records, rs, p, commit);
    SettlePendingSets(g.dbiBindings, g.records, rs, p, commit);
    SettlePendingTxns(g.dbiBindings, g.txnBindings, t, commit);
    forall r | r in rs ensures r in g.records && g.records[r].pending != {} { PendingNonempty(g, t, r); }
    SettleRecordsOk(g.records, g.dbiRecords, rs, p, commit);
  }

  // ------------------------------------------------------- the native ending

  /** What `mdb_txn_commit` or `mdb_txn_abort` of `t` leaves of the open handles. */
  function EndedSlots(slots: map<nat, Slot>, t: Id, commit: bool): map<nat, Slot> {
    map h | h in slots && (commit || slots[h] != Private(t)) :: if slots[h] == Private(t) then Shared else slots[h]
  }

  lemma EndSlots(slots: map<nat, Slot>, openers: set<Id>, dbiRecords: map<nat, Id>, records: DbiRecords,
                 bindings: DbiBindings, t: Id, p: set<Id>, rs: set<Id>, commit: bool)
    requires SlotsOk(slots, openers, dbiRecords, records, bindings) && HandleMapOk(dbiRecords, records)
    requires PendingSetsOk(bindings, records)
    requires forall b :: b in p <==> b in bindings && bindings[b].pendingTxn == Some(t)
    requires rs == set b | b in p && b in bindings :: bindings[b].record
    ensures SlotsOk(EndedSlots(slots, t, commit), openers - {t}, dbiRecords, SettleRecords(records, rs, p, commit),
                    SettleBindings(bindings, p, commit))
  {
    var records', bindings' := SettleRecords(records, rs, p, commit), SettleBindings(bindings, p, commit);
    var slots' := EndedSlots(slots, t, commit);
    forall h | h in dbiRecords
      ensures var record := records'[dbiRecords[h]];
        && (record.committed ==> h in slots' && slots'[h] == Shared)
        && (!record.committed && record.pending != {} ==> h in slots')
        && (!record.committed && h in slots' ==>
              && record.pending != {}
              && slots'[h].Private? && slots'[h].txn in openers - {t}
              && forall b :: b in record.pending && b in bindings' ==>
                   bindings'[b].pendingTxn == Some(slots'[h].txn))
    {
      EndSlot(slots, openers, dbiRecords, records, bindings, t, p, rs, commit, h);
    }
    hide HandleMapOk, PendingSetsOk, SettleBindings;
  }

  lemma EndSlot(slots: map<nat, Slot>, openers: set<Id>, dbiRecords: map<nat, Id>, records: DbiRecords,
                bindings: DbiBindings, t: Id, p: set<Id>, rs: set<Id>, commit: bool, h: nat)
    requires SlotsOk(slots, openers, dbiRecords, records, bindings) && HandleMapOk(dbiRecords, records)
    requires PendingSetsOk(bindings, records)
    requires forall b :: b in p <==> b in bindings && bindings[b].pendingTxn == Some(t)
    requires rs == set b | b in p && b in bindings :: bindings[b].record
    requires h in dbiRecords
    ensures var record := SettleRecords(records, rs, p, commit)[dbiRecords[h]];
      var slots' := EndedSlots(slots, t, commit);
      var bindings' := SettleBindings(bindings, p, commit);
      && (record.committed ==> h in slots' && slots'[h] == Shared)
      && (!record.committed && record.pending != {} ==> h in slots')
      && (!record.committed && h in slots' ==>
            && record.pending != {}
            && slots'[h].Private? && slots'[h].txn in openers - {t}
            && forall b :: b in record.pending && b in bindings' ==>
                 bindings'[b].pendingTxn == Some(slots'[h].txn))
  {
    var r := dbiRecords[h];
    if r in rs {
      var d :| d in p && d in bindings && bindings[d].record == r;
      assert d in records[r].pending;
    }
    if !records[r].committed && h in slots && slots[h] == Private(t) {
      var b :| b in records[r].pending;
      assert b in bindings && bindings[b].record == r && bindings[b].pendingTxn == Some(t);
      assert b in p && r in rs;
      forall d | d in records[r].pending ensures d in p {}
    }
  }

  lemma EndPrivate(n: Lmdb, dbiRecords: map<nat, Id>, cursorBindings: CursorBindings, bindings: DbiBindings,
                   records: DbiRecords, cursors: map<Id, NativeCursor>, t: Id, p: set<Id>, rs: set<Id>, commit: bool)
    requires PrivateOk(n.cursors, n.openers, n.slots, dbiRecords, cursorBindings, bindings, records)
    requires forall c :: c in cursors ==> c in n.cursors && cursors[c] == n.cursors[c] && cursors[c].txn != t
    requires forall r :: r in rs && r in records && !records[r].committed ==>
               records[r].handle in n.slots && n.slots[records[r].handle] == Private(t)
    ensures PrivateOk(cursors, n.openers - {t}, EndedSlots(n.slots, t, commit), dbiRecords, cursorBindings,
                      SettleBindings(bindings, p, commit), SettleRecords(records, rs, p, commit))
  {}

  /** A pending, uncommitted record of `t` sits on a handle private to `t`. */
  lemma PendingIsPrivate(g: Graph, ended: Option<Id>, t: Id, r: Id)
    requires InvHeap(g, {}) && InvNative(g, ended) && t in g.txnBindings
    requires r in PendingRecords(g, t) && !g.records[r].committed
    ensures g.records[r].handle in g.native.slots && g.native.slots[g.records[r].handle] == Private(t)
  {
    hide TxnsOk, CursorsOk, CursorCountsOk, LeaseCountsOk, OpenDbisOk, NativeTxnsOk, NativeCursorsOk, PrivateOk,
         ShapeOk;
    var b :| b in g.txnBindings[t].pendingDbis && b in g.dbiBindings && g.dbiBindings[b].record == r;
    assert b in g.records[r].pending;
  }

  lemma EndNativeTxns(native: map<Id, bool>, openers: set<Id>, txns: Transactions, ts: set<Id>, t: Id)
    requires NativeTxnsOk(native, openers, txns, ts, None)
    ensures NativeTxnsOk(native - {t}, openers - {t}, txns, ts, Some(t))
  {}

  lemma SameButPendingNative(native: map<Id, bool>, o: set<Id>, a: Transactions, b: Transactions, ts: set<Id>,
                             e: Option<Id>)
    requires SameButPending(a, b) && NativeTxnsOk(native, o, a, ts, e)
    ensures NativeTxnsOk(native, o, b, ts, e)
  {}

  lemma EndNativeCursors(g: Graph, t: Id, bindings: DbiBindings, records: DbiRecords, cursors: map<Id, NativeCursor>)
    requires InvNativeCursors(g, None) && InvShape(g) && InvExist(g)
    requires SameRecordOf(g.dbiBindings, bindings) && SameRefs(g.records, records)
    requires cursors == map c | c in g.native.cursors && g.native.cursors[c].txn != t :: g.native.cursors[c]
    ensures NativeCursorsOk(cursors, g.cursorBindings, bindings, records, Some(t))
  {}

  /** A transaction without cursor bindings has no native cursor. */
  lemma NoCursors(g: Graph, t: Id)
    requires InvCursors(g) && InvNativeCursors(g, None) && InvShape(g) && InvExist(g)
    requires t in g.txnBindings && g.txnBindings[t].cursors == {}
    ensures g.native.cursors == map c | c in g.native.cursors && g.native.cursors[c].txn != t :: g.native.cursors[c]
  {
    forall c | c in g.native.cursors ensures g.native.cursors[c].txn != t {}
  }

  lemma EndNativeNative(g: Graph, t: Id, commit: bool)
    requires InvHeap(g, {}) && InvNative(g, None) && !g.poisoned && t in g.transactions && t in g.txnBindings
    requires g.txnBindings[t].readOnly ==> g.txnBindings[t].cursors == {}
    requires t in g.native.txns && g.native.txns[t] == g.txnBindings[t].readOnly
    ensures InvNative(EndNative(g, t, commit), Some(t))
  {
    hide TxnsOk, OpenDbisOk, WrapperSetsOk, PendingSetsOk, PendingTxnsOk, LeaseCountsOk, CursorsOk, ShapeOk,
         RecordsExist, HandleMapOk, RecordsOk, CursorCountsOk, NativeTxnsOk, NativeCursorsOk, SlotsOk, PrivateOk,
         SameButPending, SameRecordOf, SameRefs, SettleBindings, SettleRecords;
    var g' := EndNative(g, t, commit);
    var p, rs := g.txnBindings[t].pendingDbis, PendingRecords(g, t);
    var cursors := map c | c in g.native.cursors && g.native.cursors[c].txn != t :: g.native.cursors[c];
    if g.txnBindings[t].readOnly { NoCursors(g, t); }
    assert g'.native.cursors == cursors;
    assert g'.native.slots == EndedSlots(g.native.slots, t, commit);
    SettleSame(g, t, commit);
    SettleSameRecords(g.dbiBindings, g.records, rs, p, commit);
    EndNativeTxns(g.native.txns, g.native.openers, g.txnBindings, g.transactions, t);
    SameButPendingNative(g'.native.txns, g'.native.openers, g.txnBindings, g'.txnBindings, g.transactions, Some(t));
    EndNativeCursors(g, t, g'.dbiBindings, g'.records, cursors);
    PendingOf(g, t);
    EndSlots(g.native.slots, g.native.openers, g.dbiRecords, g.records, g.dbiBindings, t, p, rs, commit);
    forall r | r in rs && r in g.records && !g.records[r].committed
      ensures g.records[r].handle in g.native.slots && g.native.slots[g.records[r].handle] == Private(t)
    { PendingIsPrivate(g, None, t, r); }
    EndPrivate(g.native, g.dbiRecords, g.cursorBindings, g.dbiBindings, g.records, cursors, t, p, rs, commit);
  }

  lemma PendingOf(g: Graph, t: Id)
    requires t in g.txnBindings && InvDbis(g)
    ensures forall b :: b in g.txnBindings[t].pendingDbis <==>
      b in g.dbiBindings && g.dbiBindings[b].pendingTxn == Some(t)
  {}

  lemma EndNativeKeeps(g: Graph, t: Id, commit: bool)
    requires InvMid(g, None, {}) && t in g.transactions && t in g.txnBindings
    requires Tracked(g) && g.txnBindings[t].readOnly ==> g.txnBindings[t].cursors == {}
    ensures InvMid(EndNative(g, t, commit), Some(t), PendingRecords(g, t))
    ensures Tracked(EndNative(g, t, commit)) == Tracked(g)
  {
    hide TxnsOk, DbisOk, LeaseCountsOk, CursorsOk, ShapeOk, RecordsExist, HandleMapOk, RecordsOk, CursorCountsOk,
         InvNative,
         EndNative, PendingRecords, InvHeap;
    EndNativeHeap(g, t, commit);
    EndNativeFlags(g, t, commit);
    if Tracked(g) {
      NativeTxnOpen(g, None, t);
      EndNativeNative(g, t, commit);
      InvNativeTracks(EndNative(g, t, commit), Some(t));
    }
  }

  lemma EndNativeFlags(g: Graph, t: Id, commit: bool)
    requires t in g.txnBindings
    ensures EndNative(g, t, commit).live == g.live && EndNative(g, t, commit).poisoned == g.poisoned
    ensures g.native.fault ==> EndNative(g, t, commit).native.fault
  {}

  lemma NativeTxnOpen(g: Graph, ended: Option<Id>, t: Id)
    requires InvNative(g, ended) && t in g.transactions && t in g.txnBindings && ended != Some(t)
    ensures t in g.native.txns && g.native.txns[t] == g.txnBindings[t].readOnly
  {}

  // -------------------------------------------------------- CloseTransaction

  lemma CloseTransactionTxns(g: Graph, t: Id)
    requires InvShape(g) && InvTxns(g) && t in g.transactions && t in g.txnBindings
    ensures var g' := CloseTransaction(g, t);
      TxnsOk(g'.wrappers, g'.refCount, g'.txnBindings, g'.transactions, g'.activeWriter) && InvShape(g')
  {
    var g' := CloseTransaction(g, t);
    SameSize(g.wrappers, g'.wrappers);
  }

  lemma CloseTransactionCursors(g: Graph, t: Id)
    requires InvCursors(g) && t in g.txnBindings && g.txnBindings[t].cursors == {}
    ensures InvCursors(CloseTransaction(g, t))
  {}

  lemma CloseTransactionPending(g: Graph, t: Id)
    requires PendingTxnsOk(g.dbiBindings, g.txnBindings) && t in g.txnBindings && g.txnBindings[t].pendingDbis == {}
    ensures PendingTxnsOk(g.dbiBindings, CloseTransaction(g, t).txnBindings)
  {}

  lemma CloseTransactionNative(g: Graph, t: Id)
    requires InvCursors(g) && InvNativeTxns(g, Some(t)) && InvNativeCursors(g, Some(t))
    requires t in g.txnBindings && g.txnBindings[t].cursors == {}
    ensures InvNativeTxns(CloseTransaction(g, t), None) && InvNativeCursors(CloseTransaction(g, t), None)
  {}

  lemma CloseTransactionKeeps(g: Graph, t: Id)
    requires InvMid(g, Some(t), {}) && t in g.transactions && t in g.txnBindings
    requires g.txnBindings[t].cursors == {} && g.txnBindings[t].pendingDbis == {}
    ensures InvMid(CloseTransaction(g, t), None, {})
  {
    hide TxnsOk, OpenDbisOk, WrapperSetsOk, PendingSetsOk, PendingTxnsOk, LeaseCountsOk, CursorsOk, ShapeOk,
         RecordsExist, HandleMapOk, RecordsOk, CursorCountsOk, NativeTxnsOk, NativeCursorsOk, SlotsOk, PrivateOk;
    CloseTransactionTxns(g, t);
    CloseTransactionCursors(g, t);
    CloseTransactionPending(g, t);
    if Tracked(g) { CloseTransactionNative(g, t); }
  }

  // --------------------------------------------------- begin, reset and renew

  lemma BeginTransactionTxns(g: Graph, w: Id, t: Id, readOnly: bool)
    requires InvShape(g) && InvTxns(g) && w in g.wrappers && t !in g.txnBindings
    requires readOnly || g.activeWriter == NoWriter
    ensures InvTxns(BeginTransaction(g, w, t, readOnly)) && InvShape(BeginTransaction(g, w, t, readOnly))
  {
    hide TxnBegin;
    SameSize(g.wrappers, g.wrappers[w := g.wrappers[w] + {t}]);
    BegunTxns(g.wrappers, g.refCount, g.txnBindings, g.transactions, g.activeWriter, w, t, readOnly);
    hide TxnsOk;
  }

  lemma BegunTxns(wrappers: map<Id, set<Id>>, n: int, txns: Transactions, ts: set<Id>, writer: Writer, w: Id, t: Id,
                  readOnly: bool)
    requires TxnsOk(wrappers, n, txns, ts, writer) && ts <= txns.Keys && w in wrappers && t !in txns
    requires |wrappers[w := wrappers[w] + {t}]| == |wrappers| && (readOnly || writer == NoWriter)
    ensures TxnsOk(wrappers[w := wrappers[w] + {t}], n, txns[t := Transaction(true, w, readOnly, PhaseActive, {}, {})],
                   ts + {t},
                   if readOnly then writer else PublicWriter(t))
  {}

  lemma SameSize(a: map<Id, set<Id>>, b: map<Id, set<Id>>)
    requires a.Keys == b.Keys
    ensures |a| == |b|
  {
    assert |a| == |a.Keys| && |b| == |b.Keys|;
  }

  lemma BeginTransactionTables(g: Graph, w: Id, t: Id, readOnly: bool)
    requires w in g.wrappers && t !in g.txnBindings
    requires InvCursors(g) && PendingTxnsOk(g.dbiBindings, g.txnBindings)
    ensures var g' := BeginTransaction(g, w, t, readOnly);
      InvCursors(g') && PendingTxnsOk(g'.dbiBindings, g'.txnBindings)
  {
    hide TxnBegin;
  }

  lemma BeginTransactionNative(g: Graph, w: Id, t: Id, readOnly: bool)
    requires InvShape(g) && InvTxns(g) && InvNative(g, None) && w in g.wrappers && t !in g.txnBindings
    requires readOnly || g.activeWriter == NoWriter
    ensures InvNative(BeginTransaction(g, w, t, readOnly), None)
  {
    hide SlotsOk, PrivateOk, NativeCursorsOk;
    WriterIsRegistered(g);
  }

  /** A native writer open at a call boundary occupies the writer slot. */
  lemma WriterIsRegistered(g: Graph)
    requires InvShape(g) && InvTxns(g) && InvNativeTxns(g, None)
    ensures forall u :: u in g.native.txns && !g.native.txns[u] ==> g.activeWriter == PublicWriter(u)
  {}

  lemma BeginTransactionKeeps(g: Graph, w: Id, t: Id, readOnly: bool)
    requires InvMid(g, None, {}) && w in g.wrappers && t !in g.txnBindings
    requires readOnly || g.activeWriter == NoWriter
    ensures InvMid(BeginTransaction(g, w, t, readOnly), None, {})
    ensures Tracked(g) ==> !BeginTransaction(g, w, t, readOnly).native.fault
  {
    if g.native.fault { FaultSticks(g.native); }
    hide TxnsOk, OpenDbisOk, WrapperSetsOk, PendingSetsOk, PendingTxnsOk, LeaseCountsOk, CursorsOk, ShapeOk,
         RecordsExist, HandleMapOk, RecordsOk, CursorCountsOk, InvNative, TxnBegin;
    BeginTransactionTxns(g, w, t, readOnly);
    BeginTransactionTables(g, w, t, readOnly);
    if Tracked(g) {
      BeginTransactionNative(g, w, t, readOnly);
      InvNativeTracks(BeginTransaction(g, w, t, readOnly), None);
    }
  }

  /** Every database `t` has opened and not settled is already committed. */
  predicate OnlyCommittedPending(g: Graph, t: Id)
    requires t in g.txnBindings
  {
    forall r :: r in PendingRecords(g, t) && r in g.records ==> g.records[r].committed
  }

  lemma ResetTransactionHeap(g: Graph, t: Id)
    requires InvHeap(g, {}) && t in g.transactions && t in g.txnBindings
    requires g.txnBindings[t].readOnly && g.txnBindings[t].cursors == {}
    ensures InvHeap(ResetTransaction(g, t), {})
  {
    hide OpenDbisOk, WrapperSetsOk, PendingSetsOk, LeaseCountsOk, RecordsExist, HandleMapOk, RecordsOk,
         CursorCountsOk, TxnReset,
         TxnsOk, CursorsOk, PendingTxnsOk;
    PhaseTables(g, t, PhaseReset);
    PhaseTxns(g, t, PhaseReset);
  }

  /** Changing the phase of an open reader without cursors disturbs no table. */
  lemma PhaseTables(g: Graph, t: Id, phase: TxnPhase)
    requires InvCursors(g) && PendingTxnsOk(g.dbiBindings, g.txnBindings)
    requires t in g.txnBindings && g.txnBindings[t].cursors == {} && phase != PhaseClosed
    ensures var b := g.txnBindings[t := g.txnBindings[t].(phase := phase)];
      CursorsOk(g.cursorBindings, g.cursors, b) && PendingTxnsOk(g.dbiBindings, b)
  {}

  lemma PhaseTxns(g: Graph, t: Id, phase: TxnPhase)
    requires InvTxns(g) && t in g.txnBindings && t in g.transactions && phase != PhaseClosed
      && g.txnBindings[t].readOnly
    ensures TxnsOk(g.wrappers, g.refCount, g.txnBindings[t := g.txnBindings[t].(phase := phase)], g.transactions,
                   g.activeWriter)
  {}

  lemma RenewTransactionKeeps(g: Graph, t: Id)
    requires InvMid(g, None, {}) && t in g.transactions && t in g.txnBindings && g.txnBindings[t].phase == PhaseReset
    ensures InvMid(RenewTransaction(g, t), None, {})
  {
    hide OpenDbisOk, WrapperSetsOk, PendingSetsOk, LeaseCountsOk, RecordsExist, HandleMapOk, RecordsOk, CursorCountsOk,
         TxnsOk, CursorsOk, PendingTxnsOk, NativeCursorsOk, SlotsOk, PrivateOk;
    ResetHasNoCursors(g, t);
    PhaseTables(g, t, PhaseActive);
    PhaseTxns(g, t, PhaseActive);
  }

  lemma ResetHasNoCursors(g: Graph, t: Id)
    requires InvTxns(g) && InvCursors(g) && t in g.txnBindings && g.txnBindings[t].phase == PhaseReset
    ensures g.txnBindings[t].cursors == {} && g.txnBindings[t].readOnly
  {
    forall c | c in g.txnBindings[t].cursors
      ensures c in g.cursorBindings && g.cursorBindings[c].txn == Some(t) && g.txnBindings[t].phase == PhaseActive {}
  }

  /**
   Resetting a reader keeps the invariant exactly when it has opened no
   database that is still private to it: LMDB closes private handles on reset,
   the wrappers stay pending.
   */
  lemma ResetTransactionKeepsIff(g: Graph, t: Id)
    requires InvMid(g, None, {}) && Tracked(g) && t in g.transactions && t in g.txnBindings
    requires g.txnBindings[t].readOnly && g.txnBindings[t].cursors == {}
    ensures InvMid(ResetTransaction(g, t), None, {}) <==> OnlyCommittedPending(g, t)
  {
    hide TxnsOk, OpenDbisOk, WrapperSetsOk, PendingSetsOk, PendingTxnsOk, LeaseCountsOk, CursorsOk, ShapeOk,
         RecordsExist, HandleMapOk, RecordsOk, CursorCountsOk, InvNative, PendingRecords, TxnReset;
    ResetTransactionHeap(g, t);
    NativeTxnOpen(g, None, t);
    if OnlyCommittedPending(g, t) {
      ResetTransactionNative(g, t);
    } else {
      ResetTransactionBreaks(g, t);
    }
  }

  lemma ResetTransactionNative(g: Graph, t: Id)
    requires InvHeap(g, {}) && InvNative(g, None) && t in g.txnBindings && g.txnBindings[t].readOnly
    requires t in g.native.txns && g.native.txns[t] && OnlyCommittedPending(g, t)
    ensures InvNative(ResetTransaction(g, t), None)
  {
    hide TxnsOk, OpenDbisOk, WrapperSetsOk, PendingSetsOk, PendingTxnsOk, LeaseCountsOk, CursorsOk, ShapeOk,
         RecordsExist, RecordsOk, CursorCountsOk, NativeCursorsOk, PrivateOk;
    forall h | h in g.native.slots && g.native.slots[h] == Private(t)
      ensures h in g.dbiRecords && g.dbiRecords[h] in g.records
      ensures g.dbiRecords[h] in PendingRecords(g, t) && !g.records[g.dbiRecords[h]].committed
    {
      PrivateIsPending(g, t, h);
    }
    assert (map h | h in g.native.slots && g.native.slots[h] != Private(t) :: g.native.slots[h]) == g.native.slots;
    hide PendingRecords, SlotsOk;
    assert TxnReset(g.native, t) == g.native;
  }

  /** The converse of `PendingIsPrivate`. */
  lemma PrivateIsPending(g: Graph, t: Id, h: nat)
    requires InvHeap(g, {}) && InvSlots(g) && t in g.txnBindings && h in g.native.slots
      && g.native.slots[h] == Private(t)
    ensures h in g.dbiRecords && g.dbiRecords[h] in g.records
    ensures g.dbiRecords[h] in PendingRecords(g, t) && !g.records[g.dbiRecords[h]].committed
  {
    hide TxnsOk, OpenDbisOk, WrapperSetsOk, LeaseCountsOk, CursorsOk, ShapeOk, RecordsOk, CursorCountsOk;
    var b :| b in g.records[g.dbiRecords[h]].pending;
    assert b in g.txnBindings[t].pendingDbis;
  }

  lemma ResetTransactionBreaks(g: Graph, t: Id)
    requires InvHeap(g, {}) && InvNative(g, None) && t in g.txnBindings && !OnlyCommittedPending(g, t)
    requires t in g.native.txns && g.native.txns[t]
    ensures !InvNative(ResetTransaction(g, t), None) && !ResetTransaction(g, t).native.fault
  {
    hide TxnsOk, OpenDbisOk, WrapperSetsOk, LeaseCountsOk, CursorsOk, ShapeOk, CursorCountsOk, NativeCursorsOk,
         NativeTxnsOk,
         PrivateOk;
    var r :| r in PendingRecords(g, t) && r in g.records && !g.records[r].committed;
    PendingIsPrivate(g, None, t, r);
    PendingNonempty(g, t, r);
    var g' := ResetTransaction(g, t);
    assert g.records[r].handle !in g'.native.slots;
    assert Mapped(g, r);
    assert !SlotsOk(g'.native.slots, g'.native.openers, g'.dbiRecords, g'.records, g'.dbiBindings);
  }
}
