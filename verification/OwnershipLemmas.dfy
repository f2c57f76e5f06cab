/**
 Every step of `Ownership` keeps the graph invariant.  A lemma named after a
 step and a group shows one group of conjuncts; the lemma `...Keeps` collects
 them.  Hiding the groups a lemma does not touch keeps its obligation small.
 */
module OwnershipLemmas {
  import opened Common
  import opened NativeLmdb
  import opened Ownership

  // ---------------------------------------------------------- FinalizeRecord

  lemma CountedCursor(g: Graph, c: Id)
    requires c in g.cursors && c in g.cursorBindings && g.cursorBindings[c].dbi in g.dbiBindings
    requires g.dbiBindings[g.cursorBindings[c].dbi].record in g.records
    requires InvCursorCounts(g)
    ensures g.records[g.dbiBindings[g.cursorBindings[c].dbi].record].cursorRefs > 0
  {
    assert c in CursorsOn(g.cursors, g.cursorBindings, g.dbiBindings, g.dbiBindings[g.cursorBindings[c].dbi].record);
  }

  lemma UnmapRecord(dbiRecords: map<nat, Id>, records: DbiRecords, todo: set<Id>, r: Id)
    requires HandleMapOk(dbiRecords, records) && RecordsOk(records, dbiRecords, todo)
    requires r in records
    ensures Unreferenced(records[r]) ==>
      var dbiRecords' := if InMap(dbiRecords, records[r].handle, r) then dbiRecords - {records[r].handle}
          else dbiRecords;
      HandleMapOk(dbiRecords', records) && RecordsOk(records, dbiRecords', todo - {r})
    ensures !Unreferenced(records[r]) ==> RecordsOk(records, dbiRecords, todo - {r})
  {}

  /** No open native cursor belongs to an unreferenced record, nor sits on its committed handle. */
  lemma UnreferencedHasNoNativeCursor(g: Graph, ended: Option<Id>, todo: set<Id>, r: Id, c: Id)
    requires InvHeap(g, todo) && InvNative(g, ended)
    requires r in g.records && Unreferenced(g.records[r]) && c in g.native.cursors
    ensures c in g.cursorBindings && g.cursorBindings[c].dbi in g.dbiBindings
    ensures g.dbiBindings[g.cursorBindings[c].dbi].record != r
    ensures g.records[r].committed && Mapped(g, r) ==> g.native.cursors[c].slot != g.records[r].handle
  {
    hide TxnsOk, DbisOk, LeaseCountsOk, CursorCountsOk, RecordsOk, NativeTxnsOk;
    if g.dbiBindings[g.cursorBindings[c].dbi].record == r { CountedCursor(g, c); }
  }

  lemma CloseSlot(g: Graph, h: nat)
    requires InvMap(g) && InvSlots(g) && InvPrivate(g)
    requires h in g.dbiRecords && g.records[g.dbiRecords[h]].committed
    requires forall c :: c in g.native.cursors ==>
      c in g.cursorBindings && g.cursorBindings[c].dbi in g.dbiBindings && g.native.cursors[c].slot != h
      && g.dbiBindings[g.cursorBindings[c].dbi].record != g.dbiRecords[h]
    requires g.native.envOpen && !Modified(g.native, h)
    ensures DbiClose(g.native, h) == g.native.(slots := g.native.slots - {h})
    ensures SlotsOk(g.native.slots - {h}, g.native.openers, g.dbiRecords - {h}, g.records, g.dbiBindings)
    ensures PrivateOk(g.native.cursors, g.native.openers, g.native.slots - {h}, g.dbiRecords - {h},
                      g.cursorBindings, g.dbiBindings, g.records)
  {}

  lemma UnmapPrivate(g: Graph, r: Id)
    requires InvMap(g) && InvSlots(g) && InvPrivate(g)
    requires r in g.records && !g.records[r].committed && g.records[r].pending == {} && Mapped(g, r)
    requires forall c :: c in g.native.cursors ==>
      c in g.cursorBindings && g.cursorBindings[c].dbi in g.dbiBindings
      && g.dbiBindings[g.cursorBindings[c].dbi].record != r
    ensures var dbiRecords' := g.dbiRecords - {g.records[r].handle};
      && SlotsOk(g.native.slots, g.native.openers, dbiRecords', g.records, g.dbiBindings)
      && PrivateOk(g.native.cursors, g.native.openers, g.native.slots, dbiRecords',
                      g.cursorBindings, g.dbiBindings, g.records)
  {}

  lemma FinalizeRecordNative(g: Graph, ended: Option<Id>, todo: set<Id>, r: Id, closeNative: bool)
    requires InvHeap(g, todo) && InvNative(g, ended) && r in g.records && !g.poisoned
    requires closeNative || !g.records[r].committed
    requires Mapped(g, r) || !g.records[r].committed
    requires MayRelease(g.native, g.records[r])
    ensures InvNative(FinalizeRecord(g, r, closeNative), ended)
  {
    hide TxnsOk, DbisOk, LeaseCountsOk, CursorCountsOk, CursorsOk, ShapeOk, RecordsExist, HandleMapOk, RecordsOk,
         NativeTxnsOk, NativeCursorsOk, SlotsOk, PrivateOk, WrittenOk, Modified, DbiClose;
    if Unreferenced(g.records[r]) && Mapped(g, r) {
      forall c | c in g.native.cursors
        ensures c in g.cursorBindings && g.cursorBindings[c].dbi in g.dbiBindings
        ensures g.dbiBindings[g.cursorBindings[c].dbi].record != r
        ensures g.records[r].committed ==> g.native.cursors[c].slot != g.records[r].handle
      {
        UnreferencedHasNoNativeCursor(g, ended, todo, r, c);
      }
      if g.records[r].committed { CloseSlot(g, g.records[r].handle); } else { UnmapPrivate(g, r); }
    }
  }

  /** A forbidden call is made exactly when the last reference to a modified database goes. */
  lemma FinalizeRecordKeeps(g: Graph, ended: Option<Id>, todo: set<Id>, r: Id, closeNative: bool)
    requires InvMid(g, ended, todo) && r in g.records
    requires Tracked(g) ==>
      (closeNative || !g.records[r].committed) && (Mapped(g, r) || !g.records[r].committed)
    ensures InvMid(FinalizeRecord(g, r, closeNative), ended, todo - {r})
    ensures Tracked(g) ==> (FinalizeRecord(g, r, closeNative).native.fault <==> !MayRelease(g.native, g.records[r]))
  {
    hide TxnsOk, DbisOk, LeaseCountsOk, CursorCountsOk, CursorsOk, ShapeOk, RecordsExist, HandleMapOk, RecordsOk,
         InvNative, Modified, CursorOnSlot;
    UnmapRecord(g.dbiRecords, g.records, todo, r);
    if Tracked(g) {
      if MayRelease(g.native, g.records[r]) {
        FinalizeRecordNative(g, ended, todo, r, closeNative);
        InvNativeTracks(FinalizeRecord(g, r, closeNative), ended);
      }
    }
  }

  lemma InvNativeTracks(g: Graph, ended: Option<Id>)
    requires InvNative(g, ended)
    ensures !g.native.fault
  {
    hide NativeTxnsOk, NativeCursorsOk, SlotsOk, PrivateOk, WrittenOk;
  }

  // ---------------------------------------------------------------- cursors

  /** The two tables agree on everything but the cursor sets. */
  ghost predicate SameButCursors(a: Transactions, b: Transactions) {
    a.Keys == b.Keys && forall t :: t in a ==> b[t] == a[t].(cursors := b[t].cursors)
  }

  lemma SameButCursorsTxns(w: map<Id, set<Id>>, n: int, a: Transactions, b: Transactions, ts: set<Id>, writer: Writer)
    requires SameButCursors(a, b) && TxnsOk(w, n, a, ts, writer)
    ensures TxnsOk(w, n, b, ts, writer)
  {}

  lemma SameButCursorsDbis(d: DbiBindings, ds: set<Id>, records: DbiRecords, a: Transactions, b: Transactions)
    requires SameButCursors(a, b) && DbisOk(d, ds, records, a)
    ensures DbisOk(d, ds, records, b)
  {}

  lemma SameButCursorsNative(n: map<Id, bool>, o: set<Id>, a: Transactions, b: Transactions, ts: set<Id>, e: Option<Id>)
    requires SameButCursors(a, b) && NativeTxnsOk(n, o, a, ts, e)
    ensures NativeTxnsOk(n, o, b, ts, e)
  {}

  /** The cursor table after cursor `c` lost its transaction. */
  function Unlinked(cursorBindings: CursorBindings, c: Id, phase: CursorPhase): CursorBindings
    requires c in cursorBindings
  {
    cursorBindings[c := cursorBindings[c].(handle := false, txn := None, phase := phase)]
  }

  lemma ForgetCursorSame(txns: Transactions, t: Option<Id>, c: Id)
    ensures SameButCursors(txns, ForgetCursor(txns, t, c))
  {}

  lemma ForgetClosed(bindings: CursorBindings, cursors: set<Id>, txns: Transactions, c: Id)
    requires CursorsOk(bindings, cursors, txns) && c in bindings
    ensures CursorsOk(Unlinked(bindings, c, CursorClosed), cursors - {c}, ForgetCursor(txns, bindings[c].txn, c))
  {}

  lemma ForgetDetached(bindings: CursorBindings, cursors: set<Id>, txns: Transactions, c: Id)
    requires CursorsOk(bindings, cursors, txns) && c in bindings && c in cursors
    ensures CursorsOk(Unlinked(bindings, c, CursorDetached), cursors, ForgetCursor(txns, bindings[c].txn, c))
  {}

  lemma ForgetCursorShape(g: Graph, c: Id, phase: CursorPhase)
    requires InvShape(g) && c in g.cursors
    ensures var txnBindings' := ForgetCursor(g.txnBindings, g.cursorBindings[c].txn, c);
      && ShapeOk(txnBindings', g.transactions, Unlinked(g.cursorBindings, c, phase), g.cursors, g.dbiBindings, g.dbis)
      && ShapeOk(txnBindings', g.transactions, Unlinked(g.cursorBindings, c, phase), g.cursors - {c}, g.dbiBindings,
                 g.dbis)
  {}

  lemma ForgetCursorNative(g: Graph, ended: Option<Id>, c: Id, phase: CursorPhase)
    requires InvNativeCursors(g, ended) && InvPrivate(g) && c in g.cursorBindings
    ensures var cursors' := g.native.cursors - {c};
      && NativeCursorsOk(cursors', Unlinked(g.cursorBindings, c, phase), g.dbiBindings, g.records, ended)
      && PrivateOk(cursors', g.native.openers, g.native.slots, g.dbiRecords, Unlinked(g.cursorBindings, c, phase),
                   g.dbiBindings, g.records)
  {}

  /** Closing an open cursor natively is legal while its transaction is natively open. */
  lemma CursorCloseLegal(g: Graph, ended: Option<Id>, c: Id)
    requires InvShape(g) && InvExist(g) && InvTxns(g) && InvCursors(g) && InvNative(g, ended) && c in g.cursors
    ensures g.cursorBindings[c].handle && g.cursorBindings[c].txn != ended ==>
      CursorClose(g.native, c) == g.native.(cursors := g.native.cursors - {c})
    ensures !g.cursorBindings[c].handle || g.cursorBindings[c].txn == ended ==>
      g.native == g.native.(cursors := g.native.cursors - {c})
  {
    hide SlotsOk, PrivateOk;
    if !g.cursorBindings[c].handle || g.cursorBindings[c].txn == ended {
      assert c !in g.native.cursors;
      assert g.native.cursors - {c} == g.native.cursors;
    }
  }

  lemma DetachCursorKeeps(g: Graph, ended: Option<Id>, todo: set<Id>, c: Id)
    requires InvMid(g, ended, todo) && g.live && !g.poisoned && c in g.cursors && c in g.cursorBindings
    requires g.cursorBindings[c].handle && g.cursorBindings[c].txn != ended
    ensures InvMid(DetachCursor(g, c), ended, todo) && DetachCursor(g, c).native.fault == g.native.fault
  {
    hide InvHeap, InvNative, DetachCursor;
    DetachCursorHeap(g, todo, c);
    DetachCursorFlags(g, c);
    if Tracked(g) { DetachCursorNative(g, ended, todo, c); }
  }

  lemma DetachCursorFlags(g: Graph, c: Id)
    requires c in g.cursorBindings
    ensures var g' := DetachCursor(g, c);
      g'.live == g.live && g'.poisoned == g.poisoned && (g.native.fault ==> g'.native.fault)
  {
    hide ForgetCursor;
  }

  lemma DetachCursorHeap(g: Graph, todo: set<Id>, c: Id)
    requires InvHeap(g, todo) && c in g.cursors && c in g.cursorBindings
    ensures InvHeap(DetachCursor(g, c), todo)
  {
    hide TxnsOk, DbisOk, LeaseCountsOk, CursorsOk, ShapeOk, RecordsExist, HandleMapOk, RecordsOk, CursorCountsOk,
         CursorClose, SameButCursors, ForgetCursor, CursorsOn;
    var g' := DetachCursor(g, c);
    ForgetCursorSame(g.txnBindings, g.cursorBindings[c].txn, c);
    ForgetDetached(g.cursorBindings, g.cursors, g.txnBindings, c);
    ForgetCursorShape(g, c, CursorDetached);
    SameButCursorsTxns(g.wrappers, g.refCount, g.txnBindings, g'.txnBindings, g.transactions, g.activeWriter);
    SameButCursorsDbis(g.dbiBindings, g.dbis, g.records, g.txnBindings, g'.txnBindings);
    DetachCursorCounts(g, c);
  }

  lemma DetachCursorNative(g: Graph, ended: Option<Id>, todo: set<Id>, c: Id)
    requires InvHeap(g, todo) && InvNative(g, ended) && c in g.cursors && c in g.cursorBindings
    requires g.cursorBindings[c].handle && g.cursorBindings[c].txn != ended
    ensures InvNative(DetachCursor(g, c), ended) && !DetachCursor(g, c).native.fault
  {
    hide TxnsOk, DbisOk, LeaseCountsOk, CursorsOk, ShapeOk, RecordsExist, HandleMapOk, RecordsOk, CursorCountsOk,
         NativeTxnsOk, NativeCursorsOk, SlotsOk, PrivateOk, CursorClose, SameButCursors, ForgetCursor;
    CursorCloseLegal(g, ended, c);
    var g' := DetachCursor(g, c);
    ForgetCursorSame(g.txnBindings, g.cursorBindings[c].txn, c);
    ForgetCursorNative(g, ended, c, CursorDetached);
    SameButCursorsNative(g.native.txns, g.native.openers, g.txnBindings, g'.txnBindings, g.transactions, ended);
  }

  lemma DetachCursorCounts(g: Graph, c: Id)
    requires c in g.cursorBindings && InvCursorCounts(g)
    ensures CursorCountsOk(g.records, g.cursors, Unlinked(g.cursorBindings, c, CursorDetached), g.dbiBindings)
  {
    forall r | r in g.records
      ensures CursorsOn(g.cursors, Unlinked(g.cursorBindings, c, CursorDetached), g.dbiBindings, r)
           == CursorsOn(g.cursors, g.cursorBindings, g.dbiBindings, r) {}
  }

  /** The records table with one cursor reference less on record `r`. */
  function Uncount(records: DbiRecords, r: Id): DbiRecords
    requires r in records
  {
    records[r := records[r].(cursorRefs := records[r].cursorRefs - 1)]
  }

  lemma UncountCursor(g: Graph, c: Id, r: Id)
    requires InvShape(g) && InvCursorCounts(g) && c in g.cursors && OnRecord(g.cursorBindings, g.dbiBindings, c, r)
    requires r in g.records
    ensures CursorCountsOk(Uncount(g.records, r), g.cursors - {c}, Unlinked(g.cursorBindings, c, CursorClosed),
                           g.dbiBindings)
  {
    forall q | q in g.records
      ensures CursorsOn(g.cursors - {c}, Unlinked(g.cursorBindings, c, CursorClosed), g.dbiBindings, q)
           == CursorsOn(g.cursors, g.cursorBindings, g.dbiBindings, q) - {c} {}
    assert c in CursorsOn(g.cursors, g.cursorBindings, g.dbiBindings, r);
    forall q | q in g.records && q != r ensures c !in CursorsOn(g.cursors, g.cursorBindings, g.dbiBindings, q) {}
  }

  /** Two record tables that differ in reference counts only. */
  ghost predicate SameButCounts(a: DbiRecords, b: DbiRecords) {
    a.Keys == b.Keys
    && forall r :: r in a ==> b[r] == a[r].(cursorRefs := b[r].cursorRefs, batchRefs := b[r].batchRefs)
  }

  lemma EqualCounts(a: DbiRecords)
    ensures SameButCounts(a, a)
  {}

  lemma ClosingCounts(before: DbiRecords, g: Graph, c: Id, closeNative: bool, closeDbiNative: bool)
    requires SameButCounts(before, g.records) && c in g.cursorBindings && g.cursorBindings[c].dbi in g.dbiBindings
    requires g.dbiBindings[g.cursorBindings[c].dbi].record in g.records
    ensures SameButCounts(before, CloseCursor(g, c, closeNative, closeDbiNative).records)
  {
    hide Unreferenced, ForgetCursor;
  }

  lemma UncountSame(records: DbiRecords, r: Id)
    requires r in records
    ensures SameButCounts(records, Uncount(records, r))
    ensures forall q :: q in records ==> Uncount(records, r)[q].batchRefs == records[q].batchRefs
  {}

  lemma SameButCountsHeap(g: Graph, b: DbiRecords)
    requires SameButCounts(g.records, b) && InvExist(g) && InvMap(g) && InvDbis(g)
    ensures RecordsExist(g.dbiBindings, g.leases, b) && HandleMapOk(g.dbiRecords, b)
    ensures DbisOk(g.dbiBindings, g.dbis, b, g.txnBindings)
  {}

  lemma SameButCountsNative(g: Graph, b: DbiRecords, ended: Option<Id>)
    requires SameButCounts(g.records, b)
    ensures InvNativeCursors(g, ended) ==> NativeCursorsOk(g.native.cursors, g.cursorBindings, g.dbiBindings, b, ended)
    ensures InvPrivate(g) ==> PrivateOk(g.native.cursors, g.native.openers, g.native.slots, g.dbiRecords,
                                        g.cursorBindings, g.dbiBindings, b)
  {}

  lemma SameButCountsSlots(g: Graph, b: DbiRecords)
    requires SameButCounts(g.records, b) && InvSlots(g)
    ensures SlotsOk(g.native.slots, g.native.openers, g.dbiRecords, b, g.dbiBindings)
  {}

  lemma UncountRecords(g: Graph, todo: set<Id>, r: Id)
    requires r in g.records && InvRecords(g, todo) && g.records[r].cursorRefs > 0
    ensures RecordsOk(Uncount(g.records, r), g.dbiRecords, todo + {r})
  {}

  lemma UnlinkCursorHeap(g: Graph, todo: set<Id>, c: Id, closeNative: bool, r: Id)
    requires InvHeap(g, todo) && c in g.cursors && OnRecord(g.cursorBindings, g.dbiBindings, c, r)
    requires r in g.records && g.records[r].cursorRefs > 0
    ensures InvHeap(UnlinkCursor(g, c, closeNative), todo + {r})
  {
    hide TxnsOk, DbisOk, LeaseCountsOk, CursorsOk, ShapeOk, RecordsExist, HandleMapOk, RecordsOk, CursorCountsOk,
         CursorClose, SameButCursors, ForgetCursor, SameButCounts;
    UncountRecords(g, todo, r);
    UncountCursor(g, c, r);
    UncountSame(g.records, r);
    var g' := UnlinkCursor(g, c, closeNative);
    ForgetCursorSame(g.txnBindings, g.cursorBindings[c].txn, c);
    ForgetClosed(g.cursorBindings, g.cursors, g.txnBindings, c);
    ForgetCursorShape(g, c, CursorClosed);
    SameButCursorsTxns(g.wrappers, g.refCount, g.txnBindings, g'.txnBindings, g.transactions, g.activeWriter);
    SameButCursorsDbis(g.dbiBindings, g.dbis, g.records, g.txnBindings, g'.txnBindings);
    SameButCountsHeap(g.(txnBindings := g'.txnBindings), g'.records);
    UncountLeases(g, g'.records);
  }

  lemma UnlinkCursorNative(g: Graph, ended: Option<Id>, todo: set<Id>, c: Id, closeNative: bool, r: Id)
    requires InvHeap(g, todo) && InvNative(g, ended) && !g.poisoned
    requires c in g.cursors && OnRecord(g.cursorBindings, g.dbiBindings, c, r) && r in g.records
    requires g.cursorBindings[c].handle ==> (closeNative <==> g.cursorBindings[c].txn != ended)
    ensures InvNative(UnlinkCursor(g, c, closeNative), ended)
  {
    hide TxnsOk, DbisOk, LeaseCountsOk, CursorsOk, ShapeOk, RecordsExist, HandleMapOk, RecordsOk, CursorCountsOk,
         NativeTxnsOk, NativeCursorsOk, SlotsOk, PrivateOk, CursorClose, SameButCursors, ForgetCursor, SameButCounts;
    CursorCloseLegal(g, ended, c);
    UncountSame(g.records, r);
    var g' := UnlinkCursor(g, c, closeNative);
    ForgetCursorSame(g.txnBindings, g.cursorBindings[c].txn, c);
    ForgetCursorNative(g, ended, c, CursorClosed);
    SameButCursorsNative(g.native.txns, g.native.openers, g.txnBindings, g'.txnBindings, g.transactions, ended);
    SameButCountsNative(g'.(records := g.records), g'.records, ended);
    SameButCountsSlots(g, g'.records);
  }

  lemma UnlinkCursorKeeps(g: Graph, ended: Option<Id>, todo: set<Id>, c: Id, closeNative: bool, r: Id)
    requires InvMid(g, ended, todo) && c in g.cursors && OnRecord(g.cursorBindings, g.dbiBindings, c, r)
    requires Tracked(g) && g.cursorBindings[c].handle ==> (closeNative <==> g.cursorBindings[c].txn != ended)
    ensures r in g.records && InvMid(UnlinkCursor(g, c, closeNative), ended, todo + {r})
    ensures Tracked(UnlinkCursor(g, c, closeNative)) == Tracked(g)
    ensures Mapped(g, r) || !g.records[r].committed
  {
    CountedCursor(g, c);
    UnlinkCursorFlags(g, c, closeNative);
    hide TxnsOk, DbisOk, LeaseCountsOk, CursorsOk, HandleMapOk, CursorCountsOk, InvNative, UnlinkCursor;
    UnlinkCursorHeap(g, todo, c, closeNative, r);
    if Tracked(g) {
      UnlinkCursorNative(g, ended, todo, c, closeNative, r);
      InvNativeTracks(UnlinkCursor(g, c, closeNative), ended);
    }
  }

  lemma UnlinkCursorFlags(g: Graph, c: Id, closeNative: bool)
    requires c in g.cursorBindings && g.cursorBindings[c].dbi in g.dbiBindings
    requires g.dbiBindings[g.cursorBindings[c].dbi].record in g.records
    ensures var g' := UnlinkCursor(g, c, closeNative);
      g'.live == g.live && g'.poisoned == g.poisoned && (g.native.fault ==> g'.native.fault)
  {
    hide ForgetCursor;
  }

  lemma UncountLeases(g: Graph, b: DbiRecords)
    requires InvLeaseCounts(g) && SameButCounts(g.records, b)
    requires forall r :: r in b && r in g.records ==> b[r].batchRefs == g.records[r].batchRefs
    ensures LeaseCountsOk(b, g.leases)
  {}

  /** If `c` is the last reference to its record, no open transaction has modified the database. */
  predicate MayCloseCursor(g: Graph, c: Id) {
    c in g.cursorBindings && g.cursorBindings[c].dbi in g.dbiBindings
    && g.dbiBindings[g.cursorBindings[c].dbi].record in g.records
    ==> var record := g.records[g.dbiBindings[g.cursorBindings[c].dbi].record];
        MayRelease(g.native, record.(cursorRefs := record.cursorRefs - 1))
  }

  /** What unlinking cursor `c` leaves of the record it was on. */
  lemma UnlinkedRecord(g: Graph, c: Id, closeNative: bool)
    requires c in g.cursorBindings && g.cursorBindings[c].dbi in g.dbiBindings
    requires g.dbiBindings[g.cursorBindings[c].dbi].record in g.records
    ensures var r, g' := g.dbiBindings[g.cursorBindings[c].dbi].record, UnlinkCursor(g, c, closeNative);
      && r in g'.records && g'.records[r] == g.records[r].(cursorRefs := g.records[r].cursorRefs - 1)
      && g'.native.written == g.native.written && g'.live == g.live && g'.poisoned == g.poisoned
      && Mapped(g', r) == Mapped(g, r) && g'.dbiBindings == g.dbiBindings
      && (MayCloseCursor(g, c) <==> MayRelease(g'.native, g'.records[r]))
  {
    hide ForgetCursor;
  }

  lemma CursorRecord(g: Graph, todo: set<Id>, c: Id)
    requires InvHeap(g, todo) && c in g.cursors
    ensures c in g.cursorBindings && g.cursorBindings[c].dbi in g.dbiBindings
    ensures g.dbiBindings[g.cursorBindings[c].dbi].record in g.records && g.cursorBindings[c].phase != CursorClosed
  {
    hide TxnsOk, DbisOk, LeaseCountsOk, CursorCountsOk, RecordsOk, HandleMapOk;
  }

  /** Closing a cursor makes a forbidden call exactly outside `MayCloseCursor`. */
  lemma CloseCursorKeeps(g: Graph, ended: Option<Id>, todo: set<Id>, c: Id, closeNative: bool, closeDbiNative: bool)
    requires InvMid(g, ended, todo) && c in g.cursors && (Tracked(g) ==> closeDbiNative)
    requires Tracked(g) && g.cursorBindings[c].handle ==> (closeNative <==> g.cursorBindings[c].txn != ended)
    ensures InvMid(CloseCursor(g, c, closeNative, closeDbiNative), ended, todo)
    ensures Tracked(g) ==> (CloseCursor(g, c, closeNative, closeDbiNative).native.fault <==> !MayCloseCursor(g, c))
  {
    hide InvHeap, InvNative, UnlinkCursor, FinalizeRecord, MayCloseCursor, MayRelease;
    CursorRecord(g, todo, c);
    var r := g.dbiBindings[g.cursorBindings[c].dbi].record;
    UnlinkCursorKeeps(g, ended, todo, c, closeNative, r);
    UnlinkedRecord(g, c, closeNative);
    FinalizeRecordKeeps(UnlinkCursor(g, c, closeNative), ended, todo + {r}, r, closeDbiNative);
    TodoGrows(CloseCursor(g, c, closeNative, closeDbiNative), ended, todo + {r} - {r}, todo);
  }

  lemma TodoGrows(g: Graph, ended: Option<Id>, small: set<Id>, large: set<Id>)
    requires InvMid(g, ended, small) && small <= large
    ensures InvMid(g, ended, large)
  {
    hide TxnsOk, DbisOk, LeaseCountsOk, CursorsOk, ShapeOk, RecordsExist, HandleMapOk, CursorCountsOk, InvNative;
  }
}
