/** Opening, closing and dropping databases, and opening cursors on them, against the graph invariant. */
module DbiLemmas {
  import opened Common
  import opened NativeLmdb
  import opened Ownership
  import opened OwnershipLemmas
  import opened TransactionLemmas

  // -------------------------------------------------------------- RegisterDbi

  /** The record `RegisterDbi` binds a new wrapper to, and its contents before the wrapper joins. */
  function TargetRecord(g: Graph, h: nat, newRecord: Id): Id {
    if h in g.dbiRecords then g.dbiRecords[h] else newRecord
  }

  /** The records table once wrapper `b` has joined record `r`. */
  function Joined(records: DbiRecords, r: Id, h: nat, b: Id, pendingTxn: Option<Id>): DbiRecords {
    var record := if r !in records then DbiRecord(h, {}, {}, 0, 0, pendingTxn.None?)
                  else if pendingTxn.None? then records[r].(committed := true) else records[r];
    records[r := record.(wrappers := record.wrappers + {b},
                         pending := if pendingTxn.Some? then record.pending + {b} else record.pending)]
  }

  function Waiting(txns: Transactions, pendingTxn: Option<Id>, b: Id): Transactions
    requires pendingTxn.Some? ==> pendingTxn.value in txns
  {
    if pendingTxn.None? then txns
    else txns[pendingTxn.value := txns[pendingTxn.value].(pendingDbis := txns[pendingTxn.value].pendingDbis + {b})]
  }

  lemma RegisterDbiFields(g: Graph, b: Id, h: nat, newRecord: Id, pendingTxn: Option<Id>)
    requires InvMap(g) && newRecord !in g.records
    requires pendingTxn.Some? ==> pendingTxn.value in g.txnBindings
    ensures var r := TargetRecord(g, h, newRecord);
      RegisterDbi(g, b, h, newRecord, pendingTxn) == g.(
        dbiRecords := g.dbiRecords[h := r],
        dbiBindings := g.dbiBindings[b := DbiBinding(r, pendingTxn, false)],
        dbis := g.dbis + {b},
        records := Joined(g.records, r, h, b, pendingTxn),
        txnBindings := Waiting(g.txnBindings, pendingTxn, b))
  {}

  lemma WaitingSame(txns: Transactions, pendingTxn: Option<Id>, b: Id)
    requires pendingTxn.Some? ==> pendingTxn.value in txns
    ensures SameButPending(txns, Waiting(txns, pendingTxn, b))
  {}

  lemma JoinOpen(bindings: DbiBindings, dbis: set<Id>, b: Id, r: Id, p: Option<Id>)
    requires OpenDbisOk(bindings, dbis)
    ensures OpenDbisOk(bindings[b := DbiBinding(r, p, false)], dbis + {b})
  {}

  lemma JoinWrappers(bindings: DbiBindings, records: DbiRecords, b: Id, r: Id, h: nat, p: Option<Id>)
    requires WrapperSetsOk(bindings, records) && b !in bindings
    requires r in records || forall d :: d in bindings ==> bindings[d].record != r
    ensures WrapperSetsOk(bindings[b := DbiBinding(r, p, false)], Joined(records, r, h, b, p))
  {}

  lemma JoinPending(bindings: DbiBindings, records: DbiRecords, b: Id, r: Id, h: nat, p: Option<Id>)
    requires PendingSetsOk(bindings, records) && b !in bindings
    requires r in records || forall d :: d in bindings ==> bindings[d].record != r
    ensures PendingSetsOk(bindings[b := DbiBinding(r, p, false)], Joined(records, r, h, b, p))
  {}

  lemma JoinPendingTxns(bindings: DbiBindings, txns: Transactions, b: Id, r: Id, p: Option<Id>)
    requires PendingTxnsOk(bindings, txns) && b !in bindings
    requires p.Some? ==> p.value in txns && txns[p.value].phase != PhaseClosed
    ensures PendingTxnsOk(bindings[b := DbiBinding(r, p, false)], Waiting(txns, p, b))
  {}

  lemma JoinShape(g: Graph, b: Id, r: Id, h: nat, p: Option<Id>)
    requires InvShape(g) && InvExist(g) && InvMap(g) && (p.Some? ==> p.value in g.txnBindings)
    requires h in g.dbiRecords ==> r == g.dbiRecords[h]
    requires h !in g.dbiRecords ==> r !in g.records
    ensures ShapeOk(Waiting(g.txnBindings, p, b), g.transactions, g.cursorBindings, g.cursors,
                    g.dbiBindings[b := DbiBinding(r, p, false)], g.dbis + {b})
    ensures RecordsExist(g.dbiBindings[b := DbiBinding(r, p, false)], g.leases, Joined(g.records, r, h, b, p))
    ensures HandleMapOk(g.dbiRecords[h := r], Joined(g.records, r, h, b, p))
  {}

  /** Registering a wrapper leaves every record's cursors and leases alone. */
  lemma JoinCursorsOn(g: Graph, b: Id, r: Id, p: Option<Id>, q: Id)
    requires InvShape(g) && b !in g.dbiBindings
    ensures CursorsOn(g.cursors, g.cursorBindings, g.dbiBindings[b := DbiBinding(r, p, false)], q)
         == CursorsOn(g.cursors, g.cursorBindings, g.dbiBindings, q)
  {}

  lemma JoinRefs(records: DbiRecords, b: Id, r: Id, h: nat, p: Option<Id>, q: Id)
    requires q in Joined(records, r, h, b, p)
    ensures var record := Joined(records, r, h, b, p)[q];
      if q in records then record.cursorRefs == records[q].cursorRefs && record.batchRefs == records[q].batchRefs
      else q == r && record.cursorRefs == 0 && record.batchRefs == 0
  {}

  lemma JoinCounts(g: Graph, b: Id, r: Id, h: nat, p: Option<Id>)
    requires InvShape(g) && InvExist(g) && InvCursorCounts(g) && InvLeaseCounts(g) && b !in g.dbiBindings
    ensures CursorCountsOk(Joined(g.records, r, h, b, p), g.cursors, g.cursorBindings,
                           g.dbiBindings[b := DbiBinding(r, p, false)])
    ensures LeaseCountsOk(Joined(g.records, r, h, b, p), g.leases)
  {
    hide ShapeOk, Joined, CursorsOn, LeasesOn;
    forall q | q in Joined(g.records, r, h, b, p)
      ensures var record := Joined(g.records, r, h, b, p)[q];
        && record.cursorRefs == |CursorsOn(g.cursors, g.cursorBindings, g.dbiBindings[b := DbiBinding(r, p, false)], q)|
        && record.batchRefs == |LeasesOn(g.leases, q)|
    {
      JoinCursorsOn(g, b, r, p, q);
      JoinRefs(g.records, b, r, h, p, q);
      if q !in g.records { UnknownRecord(g, q); }
    }
  }

  lemma UnknownRecord(g: Graph, r: Id)
    requires InvExist(g) && r !in g.records
    ensures CursorsOn(g.cursors, g.cursorBindings, g.dbiBindings, r) == {} && LeasesOn(g.leases, r) == {}
  {}

  lemma JoinRecords(records: DbiRecords, dbiRecords: map<nat, Id>, r: Id, h: nat, b: Id, p: Option<Id>)
    requires RecordsOk(records, dbiRecords, {}) && HandleMapOk(dbiRecords, records)
    requires h in dbiRecords ==> r == dbiRecords[h]
    requires h !in dbiRecords ==> r !in records
    ensures RecordsOk(Joined(records, r, h, b, p), dbiRecords[h := r], {})
  {}

  lemma RegisterDbiHeap(g: Graph, b: Id, h: nat, newRecord: Id, p: Option<Id>)
    requires InvHeap(g, {}) && b !in g.dbiBindings && newRecord !in g.records
    requires p.Some? ==> p.value in g.txnBindings && g.txnBindings[p.value].phase != PhaseClosed
    ensures h in g.dbiRecords ==> g.dbiRecords[h] in g.records
    ensures InvHeap(RegisterDbi(g, b, h, newRecord, p), {})
  {
    hide TxnsOk, OpenDbisOk, WrapperSetsOk, PendingSetsOk, PendingTxnsOk, LeaseCountsOk, CursorsOk, ShapeOk,
         RecordsExist, HandleMapOk, RecordsOk, CursorCountsOk, SameButPending, Joined, Waiting, RegisterDbi;
    MapExists(g, h);
    var r := TargetRecord(g, h, newRecord);
    RegisterDbiFields(g, b, h, newRecord, p);
    WaitingSame(g.txnBindings, p, b);
    SameButPendingTables(g, Waiting(g.txnBindings, p, b));
    SameButPendingCursors(g, Waiting(g.txnBindings, p, b));
    FreshRecord(g, newRecord);
    JoinOpen(g.dbiBindings, g.dbis, b, r, p);
    JoinWrappers(g.dbiBindings, g.records, b, r, h, p);
    JoinPending(g.dbiBindings, g.records, b, r, h, p);
    JoinPendingTxns(g.dbiBindings, g.txnBindings, b, r, p);
    JoinShape(g, b, r, h, p);
    JoinCounts(g, b, r, h, p);
    JoinRecords(g.records, g.dbiRecords, r, h, b, p);
  }

  lemma MapExists(g: Graph, h: nat)
    requires InvMap(g)
    ensures h in g.dbiRecords ==> g.dbiRecords[h] in g.records
  {}

  lemma FreshRecord(g: Graph, r: Id)
    requires InvExist(g) && r !in g.records
    ensures forall d :: d in g.dbiBindings ==> g.dbiBindings[d].record != r
  {}

  // ------------------------------------------ the native side of opening one

  lemma JoinSlotsPending(g: Graph, t: Id, b: Id, r: Id, h: nat)
    requires InvMap(g) && InvSlots(g) && b !in g.dbiBindings && g.native.openers <= {t}
    requires PendingSetsOk(g.dbiBindings, g.records)
    requires h in g.dbiRecords ==> r == g.dbiRecords[h]
    requires h !in g.dbiRecords ==> r !in g.records
    ensures var slots' := if h in g.native.slots then g.native.slots else g.native.slots[h := Private(t)];
      SlotsOk(slots', {t}, g.dbiRecords[h := r], Joined(g.records, r, h, b, Some(t)),
              g.dbiBindings[b := DbiBinding(r, Some(t), false)])
  {}

  lemma JoinSlotsCommitted(g: Graph, b: Id, r: Id, h: nat)
    requires InvMap(g) && InvSlots(g) && b !in g.dbiBindings && g.native.openers == {}
    requires PendingSetsOk(g.dbiBindings, g.records)
    requires h in g.dbiRecords ==> r == g.dbiRecords[h]
    requires h !in g.dbiRecords ==> r !in g.records
    ensures SlotsOk(g.native.slots[h := Shared], {}, g.dbiRecords[h := r], Joined(g.records, r, h, b, None),
                    g.dbiBindings[b := DbiBinding(r, None, false)])
  {}

  /** Registering a wrapper changes no cursor's record, handle or transaction. */
  lemma JoinNativeCursors(g: Graph, b: Id, r: Id, h: nat, p: Option<Id>)
    requires InvShape(g) && InvExist(g) && InvMap(g) && InvNativeCursors(g, None) && b !in g.dbiBindings
    requires h in g.dbiRecords ==> r == g.dbiRecords[h]
    requires h !in g.dbiRecords ==> r !in g.records
    ensures NativeCursorsOk(g.native.cursors, g.cursorBindings, g.dbiBindings[b := DbiBinding(r, p, false)],
                            Joined(g.records, r, h, b, p), None)
  {}

  lemma JoinPrivate(g: Graph, t: Id, b: Id, r: Id, h: nat, p: Option<Id>, slots: map<nat, Slot>, openers: set<Id>)
    requires InvShape(g) && InvExist(g) && InvMap(g) && InvPrivate(g) && InvNativeCursors(g, None)
      && b !in g.dbiBindings
    requires h in g.dbiRecords ==> r == g.dbiRecords[h]
    requires h !in g.dbiRecords ==> r !in g.records
    requires g.native.openers <= openers <= {t}
    requires forall k :: k in slots ==> k == h || (k in g.native.slots && slots[k] == g.native.slots[k])
    requires forall k :: k in g.native.slots ==> k in slots
    requires openers == {} || (h in g.native.slots && h in slots ==> slots[h] == g.native.slots[h])
    requires openers == {} || (h in slots ==> h in g.native.slots || slots[h] == Private(t))
    ensures PrivateOk(g.native.cursors, openers, slots, g.dbiRecords[h := r], g.cursorBindings,
                      g.dbiBindings[b := DbiBinding(r, p, false)], Joined(g.records, r, h, b, p))
  {}

  lemma OpenPendingDbiNative(g: Graph, b: Id, h: nat, newRecord: Id, t: Id)
    requires InvHeap(g, {}) && InvNative(g, None) && b !in g.dbiBindings && newRecord !in g.records
    requires t in g.transactions && t in g.txnBindings
    requires g.native.openers <= {t} && (h in g.native.slots ==> Usable(g.native, t, h))
    ensures h in g.dbiRecords ==> g.dbiRecords[h] in g.records
    ensures InvNative(OpenPendingDbi(g, b, h, newRecord, t), None)
  {
    hide TxnsOk, OpenDbisOk, WrapperSetsOk, PendingSetsOk, PendingTxnsOk, LeaseCountsOk, CursorsOk, ShapeOk,
         RecordsExist, HandleMapOk, RecordsOk, CursorCountsOk, NativeTxnsOk, NativeCursorsOk, SlotsOk, PrivateOk,
         SameButPending, Joined, Waiting, RegisterDbi;
    MapExists(g, h);
    NativeTxnOpen(g, None, t);
    var r := TargetRecord(g, h, newRecord);
    var g1 := g.(native := DbiOpen(g.native, t, h));
    RegisterDbiFields(g1, b, h, newRecord, Some(t));
    WaitingSame(g.txnBindings, Some(t), b);
    OpenerRecorded(g, t);
    SameButPendingNative(g.native.txns, {t}, g.txnBindings, Waiting(g.txnBindings, Some(t), b), g.transactions, None);
    JoinSlotsPending(g, t, b, r, h);
    JoinNativeCursors(g, b, r, h, Some(t));
    JoinPrivate(g, t, b, r, h, Some(t), g1.native.slots, {t});
  }

  lemma OpenerRecorded(g: Graph, t: Id)
    requires InvNativeTxns(g, None) && t in g.native.txns
    ensures NativeTxnsOk(g.native.txns, {t}, g.txnBindings, g.transactions, None)
    ensures NativeTxnsOk(g.native.txns, {}, g.txnBindings, g.transactions, None)
  {}

  /** LMDB's rules for opening a database: no other opener about, and the handle is one `t` may use or a free one. */
  predicate MayOpen(n: Lmdb, t: Id, h: nat) {
    n.openers <= {t} && (h in n.slots ==> Usable(n, t, h))
  }

  lemma ForbiddenOpen(n: Lmdb, t: Id, h: nat)
    requires !MayOpen(n, t, h)
    ensures DbiOpen(n, t, h).fault
  {}

  lemma OpenedFlags(g: Graph, b: Id, h: nat, newRecord: Id, t: Id)
    requires (h in g.dbiRecords ==> g.dbiRecords[h] in g.records) && t in g.txnBindings
    ensures var g' := OpenPendingDbi(g, b, h, newRecord, t);
      g'.live == g.live && g'.poisoned == g.poisoned && g'.native == DbiOpen(g.native, t, h)
  {
    hide DbiOpen;
  }

  /**
   Opening a database in an active caller transaction, under LMDB's rule that
   the previous transaction to open one has ended.
   */
  lemma OpenPendingDbiKeeps(g: Graph, b: Id, h: nat, newRecord: Id, t: Id)
    requires InvMid(g, None, {}) && b !in g.dbiBindings && newRecord !in g.records
    requires t in g.transactions && t in g.txnBindings && g.txnBindings[t].phase == PhaseActive
    ensures h in g.dbiRecords ==> g.dbiRecords[h] in g.records
    ensures InvMid(OpenPendingDbi(g, b, h, newRecord, t), None, {})
    ensures Tracked(g) ==> (OpenPendingDbi(g, b, h, newRecord, t).native.fault <==> !MayOpen(g.native, t, h))
  {
    hide TxnsOk, DbisOk, LeaseCountsOk, CursorsOk, ShapeOk, RecordsExist, HandleMapOk, RecordsOk, CursorCountsOk,
         InvNative, DbiOpen;
    RegisterDbiHeap(g.(native := DbiOpen(g.native, t, h)), b, h, newRecord, Some(t));
    if g.native.fault { FaultSticks(g.native); }
    OpenedFlags(g, b, h, newRecord, t);
    if Tracked(g) {
      NativeTxnOpen(g, None, t);
      if MayOpen(g.native, t, h) {
        OpenPendingDbiNative(g, b, h, newRecord, t);
        InvNativeTracks(OpenPendingDbi(g, b, h, newRecord, t), None);
      } else {
        ForbiddenOpen(g.native, t, h);
      }
    }
  }

  /** A transaction of its own that opens one database and ends leaves only the handle behind. */
  lemma InternalOpen(n: Lmdb, t: Id, h: nat, readOnly: bool, commit: bool)
    requires n.envOpen && t !in n.txns && n.openers == {} && (readOnly || !WriterOpen(n))
    requires forall k :: k in n.slots ==> n.slots[k] == Shared
    requires forall c :: c in n.cursors ==> n.cursors[c].txn in n.txns
    requires WrittenOk(n.written, n.txns)
    ensures TxnEnd(DbiOpen(TxnBegin(n, t, readOnly), t, h), t, commit)
         == if commit then n.(slots := n.slots[h := Shared]) else n
  {
    hide WriterOpen, TxnEnd;
    var n1 := n.(txns := n.txns[t := readOnly], openers := {t},
                 slots := if h in n.slots then n.slots else n.slots[h := Private(t)]);
    assert DbiOpen(TxnBegin(n, t, readOnly), t, h) == n1;
    InternalEnd(n, n1.slots, t, h, readOnly, commit);
  }

  lemma InternalEnd(n: Lmdb, slots: map<nat, Slot>, t: Id, h: nat, readOnly: bool, commit: bool)
    requires t !in n.txns && n.openers == {}
    requires forall k :: k in n.slots ==> n.slots[k] == Shared
    requires forall c :: c in n.cursors ==> n.cursors[c].txn in n.txns
    requires WrittenOk(n.written, n.txns)
    requires slots == if h in n.slots then n.slots else n.slots[h := Private(t)]
    ensures TxnEnd(n.(txns := n.txns[t := readOnly], openers := {t}, slots := slots), t, commit)
         == if commit then n.(slots := n.slots[h := Shared]) else n
  {
    AddedThenRemoved(n.txns, t, readOnly);
    NothingFiltered(n.cursors, t, n.txns);
    EndedInternal(n.slots, slots, t, h, commit);
    NothingWritten(n.written, n.txns, t);
    assert {t} - {t} == n.openers;
  }

  lemma AddedThenRemoved(m: map<Id, bool>, t: Id, x: bool)
    requires t !in m
    ensures m[t := x] - {t} == m
  {}

  /** A transaction that is not open has modified nothing. */
  lemma NothingWritten(written: set<(Id, nat)>, txns: map<Id, bool>, t: Id)
    requires WrittenOk(written, txns) && t !in txns
    ensures (set p | p in written && p.0 != t) == written
  {}

  lemma NothingFiltered(cursors: map<Id, NativeCursor>, t: Id, txns: map<Id, bool>)
    requires t !in txns && forall c :: c in cursors ==> cursors[c].txn in txns
    ensures (map c | c in cursors && cursors[c].txn != t :: cursors[c]) == cursors
  {}

  lemma EndedInternal(before: map<nat, Slot>, slots: map<nat, Slot>, t: Id, h: nat, commit: bool)
    requires forall k :: k in before ==> before[k] == Shared
    requires slots == if h in before then before else before[h := Private(t)]
    ensures EndedSlots(slots, t, commit) == if commit then before[h := Shared] else before
  {}

  /** With no opener about, every handle is shared and every cursor's transaction is open. */
  lemma QuietNative(g: Graph, ended: Option<Id>)
    requires InvHeap(g, {}) && InvNative(g, None) && g.native.openers == {}
    ensures forall k :: k in g.native.slots ==> g.native.slots[k] == Shared
    ensures forall c :: c in g.native.cursors ==> g.native.cursors[c].txn in g.native.txns
    ensures WrittenOk(g.native.written, g.native.txns)
  {
    hide WrittenOk, OpenDbisOk, WrapperSetsOk, PendingSetsOk, PendingTxnsOk, LeaseCountsOk, RecordsOk, CursorCountsOk;
  }

  lemma OpenCommittedDbiNative(g: Graph, b: Id, h: nat, newRecord: Id, t: Id, create: bool, commit: bool)
    requires InvHeap(g, {}) && InvNative(g, None) && b !in g.dbiBindings && newRecord !in g.records
    requires t !in g.transactions && g.native.openers == {}
    requires create ==> !g.activeWriter.PublicWriter?
    ensures h in g.dbiRecords ==> g.dbiRecords[h] in g.records
    ensures InvNative(OpenCommittedDbi(g, b, h, newRecord, t, create, commit), None)
  {
    hide TxnsOk, OpenDbisOk, WrapperSetsOk, PendingSetsOk, PendingTxnsOk, LeaseCountsOk, CursorsOk, ShapeOk,
         RecordsExist, HandleMapOk, RecordsOk, CursorCountsOk, NativeTxnsOk, NativeCursorsOk, SlotsOk, PrivateOk,
         Joined, Waiting, RegisterDbi, TxnEnd, DbiOpen, TxnBegin, WriterOpen;
    MapExists(g, h);
    QuietNative(g, None);
    NotOpen(g, t);
    InternalOpen(g.native, t, h, !create, commit);
    if commit { RegisterCommittedNative(g, b, h, newRecord, t); }
  }

  /** Registering a wrapper of a handle that its own transaction has just committed. */
  lemma RegisterCommittedNative(g: Graph, b: Id, h: nat, newRecord: Id, t: Id)
    requires InvHeap(g, {}) && InvNative(g, None) && b !in g.dbiBindings && newRecord !in g.records
    requires g.native.openers == {}
    ensures h in g.dbiRecords ==> g.dbiRecords[h] in g.records
    ensures InvNative(RegisterDbi(g.(native := g.native.(slots := g.native.slots[h := Shared])), b, h, newRecord, None),
                      None)
  {
    hide TxnsOk, OpenDbisOk, WrapperSetsOk, PendingSetsOk, PendingTxnsOk, LeaseCountsOk, CursorsOk, ShapeOk,
         RecordsExist, HandleMapOk, RecordsOk, CursorCountsOk, NativeTxnsOk, NativeCursorsOk, SlotsOk, PrivateOk,
         Joined, Waiting, RegisterDbi;
    MapExists(g, h);
    var r := TargetRecord(g, h, newRecord);
    var g1 := g.(native := g.native.(slots := g.native.slots[h := Shared]));
    RegisterDbiFields(g1, b, h, newRecord, None);
    WaitingNone(g.txnBindings, b);
    JoinSlotsCommitted(g, b, r, h);
    JoinNativeCursors(g, b, r, h, None);
    JoinPrivate(g, t, b, r, h, None, g1.native.slots, {});
  }

  lemma NotOpen(g: Graph, t: Id)
    requires InvShape(g) && InvTxns(g) && InvNativeTxns(g, None) && t !in g.transactions
    ensures t !in g.native.txns
    ensures !g.activeWriter.PublicWriter? ==> !WriterOpen(g.native)
  {
    WriterIsRegistered(g);
  }

  lemma WaitingNone(txns: Transactions, b: Id)
    ensures Waiting(txns, None, b) == txns
  {}

  lemma OpenCommittedDbiKeeps(g: Graph, b: Id, h: nat, newRecord: Id, t: Id, create: bool, commit: bool)
    requires InvMid(g, None, {}) && b !in g.dbiBindings && newRecord !in g.records
    requires t !in g.transactions
    requires create ==> !g.activeWriter.PublicWriter?
    ensures h in g.dbiRecords ==> g.dbiRecords[h] in g.records
    ensures InvMid(OpenCommittedDbi(g, b, h, newRecord, t, create, commit), None, {})
    ensures Tracked(g) ==>
      (OpenCommittedDbi(g, b, h, newRecord, t, create, commit).native.fault <==> g.native.openers != {})
  {
    hide TxnsOk, DbisOk, LeaseCountsOk, CursorsOk, ShapeOk, RecordsExist, HandleMapOk, RecordsOk, CursorCountsOk,
         InvNative,
         TxnEnd, DbiOpen, TxnBegin;
    var n := TxnEnd(DbiOpen(TxnBegin(g.native, t, !create), t, h), t, commit);
    RegisterDbiHeap(g.(native := n), b, h, newRecord, None);
    CommittedFlags(g, b, h, newRecord, t, create, commit);
    InternalOpenFaults(g.native, t, h, !create, commit);
    if Tracked(g) {
      NotOpenNative(g, t);
      if g.native.openers == {} {
        OpenCommittedDbiNative(g, b, h, newRecord, t, create, commit);
        InvNativeTracks(OpenCommittedDbi(g, b, h, newRecord, t, create, commit), None);
      }
    }
  }

  lemma CommittedFlags(g: Graph, b: Id, h: nat, newRecord: Id, t: Id, create: bool, commit: bool)
    requires h in g.dbiRecords ==> g.dbiRecords[h] in g.records
    ensures var g' := OpenCommittedDbi(g, b, h, newRecord, t, create, commit);
      && g'.live == g.live && g'.poisoned == g.poisoned
      && g'.native == TxnEnd(DbiOpen(TxnBegin(g.native, t, !create), t, h), t, commit)
  {
    hide TxnEnd, DbiOpen, TxnBegin;
  }

  /** Another open transaction has opened a database: LMDB forbids a second opener. */
  lemma InternalOpenFaults(n: Lmdb, t: Id, h: nat, readOnly: bool, commit: bool)
    ensures n.fault || (n.openers != {} && t !in n.openers) ==>
      TxnEnd(DbiOpen(TxnBegin(n, t, readOnly), t, h), t, commit).fault
  {
    var begun := TxnBegin(n, t, readOnly);
    assert begun.openers == n.openers && (n.fault ==> begun.fault);
    hide TxnBegin;
    if !n.fault && n.openers != {} && t !in n.openers {
      var u :| u in n.openers;
      assert u !in {t};
      assert DbiOpen(begun, t, h).fault;
    }
    hide WriterOpen;
  }

  lemma NotOpenNative(g: Graph, t: Id)
    requires InvNative(g, None) && t !in g.transactions
    ensures t !in g.native.txns && t !in g.native.openers
  {
    hide NativeCursorsOk, SlotsOk, PrivateOk, WrittenOk;
  }

  // ------------------------------------------------------------- closing one

  function Left(records: DbiRecords, r: Id, b: Id): DbiRecords
    requires r in records
  {
    records[r := records[r].(wrappers := records[r].wrappers - {b})]
  }

  lemma UnlinkDbiSame(g: Graph, b: Id, r: Id)
    requires b in g.dbiBindings && g.dbiBindings[b].record == r && r in g.records
    ensures SameRecordOf(g.dbiBindings, g.dbiBindings[b := g.dbiBindings[b].(closed := true)])
    ensures SameRefs(g.records, Left(g.records, r, b))
  {}

  lemma UnlinkDbiSets(bindings: DbiBindings, dbis: set<Id>, records: DbiRecords, txns: Transactions, b: Id)
    requires b in bindings && bindings[b].record in records && DbisOk(bindings, dbis, records, txns)
    ensures OpenDbisOk(bindings[b := bindings[b].(closed := true)], dbis - {b})
    ensures PendingSetsOk(bindings[b := bindings[b].(closed := true)], Left(records, bindings[b].record, b))
    ensures PendingTxnsOk(bindings[b := bindings[b].(closed := true)], txns)
  {
    hide WrapperSetsOk;
  }

  lemma UnlinkDbiWrappers(bindings: DbiBindings, records: DbiRecords, b: Id)
    requires b in bindings && bindings[b].record in records && WrapperSetsOk(bindings, records)
    ensures WrapperSetsOk(bindings[b := bindings[b].(closed := true)], Left(records, bindings[b].record, b))
  {}

  lemma UnlinkDbiRecords(records: DbiRecords, dbiRecords: map<nat, Id>, todo: set<Id>, r: Id, b: Id)
    requires r in records && RecordsOk(records, dbiRecords, todo)
    ensures RecordsOk(Left(records, r, b), dbiRecords, if records[r].pending == {} then todo + {r} else todo)
  {}

  lemma UnlinkDbiSlots(g: Graph, b: Id, r: Id)
    requires b in g.dbiBindings && g.dbiBindings[b].record == r && r in g.records && InvSlots(g)
    ensures SlotsOk(g.native.slots, g.native.openers, g.dbiRecords, Left(g.records, r, b),
                    g.dbiBindings[b := g.dbiBindings[b].(closed := true)])
  {}

  lemma UnlinkDbiNativeCursors(g: Graph, b: Id, r: Id)
    requires b in g.dbiBindings && g.dbiBindings[b].record == r && r in g.records
    requires InvNativeCursors(g, None) && InvPrivate(g)
    ensures NativeCursorsOk(g.native.cursors, g.cursorBindings, g.dbiBindings[b := g.dbiBindings[b].(closed := true)],
                            Left(g.records, r, b), None)
    ensures PrivateOk(g.native.cursors, g.native.openers, g.native.slots, g.dbiRecords, g.cursorBindings,
                      g.dbiBindings[b := g.dbiBindings[b].(closed := true)], Left(g.records, r, b))
  {}

  lemma UnlinkDbiKeeps(g: Graph, b: Id, r: Id)
    requires InvMid(g, None, {}) && b in g.dbiBindings && g.dbiBindings[b].record == r && r in g.records
    ensures InvMid(UnlinkDbi(g, b), None, if g.records[r].pending == {} then {r} else {})
  {
    hide TxnsOk, OpenDbisOk, WrapperSetsOk, PendingSetsOk, PendingTxnsOk, LeaseCountsOk, CursorsOk, ShapeOk,
         RecordsExist, HandleMapOk, RecordsOk, CursorCountsOk, NativeTxnsOk, NativeCursorsOk, SlotsOk, PrivateOk,
         SameRecordOf, SameRefs;
    var bindings := g.dbiBindings[b := g.dbiBindings[b].(closed := true)];
    var records := Left(g.records, r, b);
    UnlinkDbiSame(g, b, r);
    SameTransactions(g.txnBindings);
    SameRecordOfShape(g, g.txnBindings, bindings, g.dbis - {b}, records);
    SameRecordOfCounts(g, bindings, records);
    UnlinkDbiSets(g.dbiBindings, g.dbis, g.records, g.txnBindings, b);
    UnlinkDbiWrappers(g.dbiBindings, g.records, b);
    UnlinkDbiRecords(g.records, g.dbiRecords, {}, r, b);
    if Tracked(g) {
      UnlinkDbiSlots(g, b, r);
      UnlinkDbiNativeCursors(g, b, r);
    }
    assert {} + {r} == {r};
  }

  lemma SameTransactions(txns: Transactions)
    ensures SameButPending(txns, txns)
  {}

  /** Closing settled wrapper `b` closes no handle whose database an open transaction has modified. */
  predicate MayCloseDbi(g: Graph, b: Id)
    requires b in g.dbiBindings && g.dbiBindings[b].record in g.records
  {
    var record := g.records[g.dbiBindings[b].record];
    !g.dbiBindings[b].closed && g.dbiBindings[b].pendingTxn.None? ==>
      MayRelease(g.native, record.(wrappers := record.wrappers - {b}))
  }

  lemma UnlinkedDbiRecord(g: Graph, b: Id, r: Id)
    requires b in g.dbiBindings && g.dbiBindings[b].record == r && r in g.records
    ensures var g' := UnlinkDbi(g, b);
      && r in g'.records && g'.records[r] == g.records[r].(wrappers := g.records[r].wrappers - {b})
      && g'.native == g.native && g'.live == g.live && g'.poisoned == g.poisoned && Mapped(g', r) == Mapped(g, r)
  {}

  /** Closing a wrapper makes a forbidden call exactly outside `MayCloseDbi`. */
  lemma ReleaseDbiKeeps(g: Graph, b: Id, closeNative: bool)
    requires InvMid(g, None, {}) && b in g.dbiBindings && g.dbiBindings[b].record in g.records
    requires Tracked(g) ==> closeNative
    ensures InvMid(ReleaseDbi(g, b, closeNative), None, {})
    ensures Tracked(g) ==> (ReleaseDbi(g, b, closeNative).native.fault <==> !MayCloseDbi(g, b))
  {
    hide TxnsOk, OpenDbisOk, WrapperSetsOk, PendingSetsOk, PendingTxnsOk, LeaseCountsOk, CursorsOk, ShapeOk,
         RecordsExist, HandleMapOk, RecordsOk, CursorCountsOk, InvNative, FinalizeRecord, UnlinkDbi, MayRelease;
    var r := g.dbiBindings[b].record;
    if !g.dbiBindings[b].closed {
      UnlinkDbiKeeps(g, b, r);
      UnlinkedDbiRecord(g, b, r);
      OpenDbiIsMapped(g, b, r);
      var g1 := UnlinkDbi(g, b);
      if g.dbiBindings[b].pendingTxn.None? {
        TodoGrows(g1, None, if g.records[r].pending == {} then {r} else {}, {r});
        FinalizeRecordKeeps(g1, None, {r}, r, closeNative);
        assert {r} - {r} == {};
      }
    }
  }

  /** The record of an open wrapper is in the handle map; a settled wrapper's is committed. */
  lemma OpenDbiIsMapped(g: Graph, b: Id, r: Id)
    requires InvHeap(g, {}) && b in g.dbiBindings && g.dbiBindings[b].record == r && r in g.records
    requires !g.dbiBindings[b].closed
    ensures Mapped(g, r) && b in g.records[r].wrappers
    ensures g.dbiBindings[b].pendingTxn.None? ==> g.records[r].committed
    ensures g.dbiBindings[b].pendingTxn.Some? ==> g.records[r].pending != {}
  {
    hide TxnsOk, CursorsOk, CursorCountsOk, LeaseCountsOk, ShapeOk, HandleMapOk, PendingTxnsOk, OpenDbisOk;
    assert b in g.records[r].wrappers;
    if g.dbiBindings[b].pendingTxn.Some? { assert b in g.records[r].pending; }
  }
}
