/**
 What follows when a call leaves the exact conditions of the invariant: further
 calls that the layer accepts reach LMDB with a handle that LMDB has closed.
 */
module GapConsequences {
  import opened Common
  import opened NativeLmdb
  import opened Ownership
  import opened OwnershipLemmas
  import opened TransactionLemmas
  import opened DbiLemmas
  import opened DropLemmas
  import opened EnvironmentLemmas
  import opened PublicOperations

  /** LMDB has closed `h`: whatever is done with the number is forbidden. */
  ghost predicate HandleLost(n: Lmdb, h: nat) {
    && DbiClose(n, h).fault
    && (forall t :: Write(n, t, h).fault)
    && (forall t, c :: CursorOpen(n, c, t, h).fault)
    && (forall t, del :: Drop(n, t, h, del).fault)
  }

  lemma LostWhenClosed(n: Lmdb, h: nat)
    requires n.fault || h !in n.slots
    ensures HandleLost(n, h)
  {}

  // ------------------------------------------------- cursors on a lost handle

  predicate Resolves(g: Graph, c: Id) {
    c in g.cursorBindings && g.cursorBindings[c].dbi in g.dbiBindings
    && g.dbiBindings[g.cursorBindings[c].dbi].record in g.records
  }

  /** `Cursor.close` of one cursor after the other. */
  function CloseEach(g: Graph, cs: seq<Id>): Graph
    decreases |cs|
  {
    if cs == [] then g
    else CloseEach(if Resolves(g, cs[0]) then CloseCursor(g, cs[0], true, true) else g, cs[1..])
  }

  lemma {:induction false} FaultStays(g: Graph, cs: seq<Id>)
    requires g.native.fault
    ensures CloseEach(g, cs).native.fault
    decreases |cs|
  {
    hide CloseCursor;
    if cs != [] {
      if Resolves(g, cs[0]) { CloseKeepsFault(g, cs[0]); }
      FaultStays(if Resolves(g, cs[0]) then CloseCursor(g, cs[0], true, true) else g, cs[1..]);
    }
  }

  lemma CloseKeepsFault(g: Graph, c: Id)
    requires Resolves(g, c) && g.native.fault
    ensures CloseCursor(g, c, true, true).native.fault
  {
    hide ForgetCursor;
  }

  /** A committed record outside the handle map with exactly the detached cursors `cs` on it. */
  ghost predicate Stranded(g: Graph, r: Id, cs: seq<Id>) {
    && r in g.records && !g.poisoned && g.records[r].handle !in g.native.slots
    && g.records[r].committed && g.records[r].wrappers == {} && g.records[r].pending == {}
    && g.records[r].batchRefs == 0
    && g.records[r].cursorRefs == |cs|
    && (forall i, j :: 0 <= i < j < |cs| ==> cs[i] != cs[j])
    && (forall c :: c in cs ==> DetachedOn(g, c, r))
  }

  ghost predicate DetachedOn(g: Graph, c: Id, r: Id) {
    OnRecord(g.cursorBindings, g.dbiBindings, c, r)
    && g.cursorBindings[c].phase != CursorClosed && !g.cursorBindings[c].handle
  }

  lemma OneClosed(g: Graph, r: Id, c: Id)
    requires DetachedOn(g, c, r) && r in g.records && !g.poisoned && g.records[r].batchRefs == 0
    requires g.records[r].committed && g.records[r].wrappers == {} && g.records[r].pending == {}
    ensures Resolves(g, c)
    ensures var g' := CloseCursor(g, c, true, true);
      && g'.records == g.records[r := g.records[r].(cursorRefs := g.records[r].cursorRefs - 1)]
      && g'.dbiBindings == g.dbiBindings && g'.poisoned == g.poisoned
      && (forall d :: d != c && d in g.cursorBindings ==>
            d in g'.cursorBindings && g'.cursorBindings[d] == g.cursorBindings[d])
      && g'.native == if g.records[r].cursorRefs == 1 then DbiClose(g.native, g.records[r].handle) else g.native
  {
    hide DbiClose, ForgetCursor;
  }

  /** Closing all of them, in whatever order, closes the handle again. */
  lemma {:induction false} StrandedFaults(g: Graph, r: Id, cs: seq<Id>)
    requires Stranded(g, r, cs) && cs != []
    ensures CloseEach(g, cs).native.fault
    decreases |cs|
  {
    hide CloseCursor;
    OneClosed(g, r, cs[0]);
    var g' := CloseCursor(g, cs[0], true, true);
    if |cs| == 1 {
      assert CloseEach(g', cs[1..]) == g';
    } else {
      forall c | c in cs[1..] ensures DetachedOn(g', c, r) {
        assert c in cs && DetachedOn(g, c, r) && c != cs[0];
      }
      StrandedFaults(g', r, cs[1..]);
    }
  }

  /** `cs` lists the open cursors of `r`, each once. */
  ghost predicate CursorsOf(g: Graph, r: Id, cs: seq<Id>) {
    && (forall c :: c in cs <==> c in CursorsOn(g.cursors, g.cursorBindings, g.dbiBindings, r))
    && (forall i, j :: 0 <= i < j < |cs| ==> cs[i] != cs[j])
  }

  lemma {:induction false} DistinctCount(cs: seq<Id>, all: set<Id>)
    requires (forall i, j :: 0 <= i < j < |cs| ==> cs[i] != cs[j]) && forall c :: c in cs <==> c in all
    ensures |cs| == |all|
    decreases |cs|
  {
    if cs == [] {
      assert all == {};
    } else {
      var c := cs[0];
      forall d ensures d in cs[1..] <==> d in all - {c} {
        if d in all - {c} { assert d in cs; }
      }
      DistinctCount(cs[1..], all - {c});
    }
  }

  lemma ActiveIsOnSlot(g: Graph, r: Id, c: Id)
    requires InvHeap(g, {}) && InvNative(g, None) && r in g.records
    requires OnRecord(g.cursorBindings, g.dbiBindings, c, r) && g.cursorBindings[c].handle
    ensures CursorOnSlot(g.native, g.records[r].handle)
  {
    hide TxnsOk, DbisOk, LeaseCountsOk, CursorCountsOk, RecordsOk, HandleMapOk, NativeTxnsOk, SlotsOk, PrivateOk;
    assert c in g.native.cursors && g.native.cursors[c].slot == g.records[r].handle;
  }

  /** With no native cursor on its handle, the cursors left on a record are detached ones. */
  lemma LeftAreDetached(g: Graph, r: Id, c: Id)
    requires InvHeap(g, {}) && InvNative(g, None) && r in g.records && !CursorOnSlot(g.native, g.records[r].handle)
    requires c in CursorsOn(g.cursors, g.cursorBindings, g.dbiBindings, r)
    ensures DetachedOn(g, c, r)
  {
    hide InvHeap, InvNative, CursorOnSlot;
    CursorRecord(g, {}, c);
    if g.cursorBindings[c].handle { ActiveIsOnSlot(g, r, c); }
  }

  lemma CountsCursors(g: Graph, r: Id, cs: seq<Id>)
    requires InvHeap(g, {}) && r in g.records && CursorsOf(g, r, cs)
    ensures g.records[r].cursorRefs == |cs|
  {
    hide TxnsOk, DbisOk, LeaseCountsOk, RecordsOk, HandleMapOk, CursorsOk;
    DistinctCount(cs, CursorsOn(g.cursors, g.cursorBindings, g.dbiBindings, r));
  }

  /** The state after a deleting drop that left detached cursors on a committed record. */
  lemma DropStrands(g: Graph, r: Id, n: Lmdb, cs: seq<Id>)
    requires InvHeap(g, {}) && InvNative(g, None) && !g.poisoned && r in g.records && CursorsOf(g, r, cs)
    requires g.records[r].committed && g.records[r].batchRefs == 0 && !CursorOnSlot(g.native, g.records[r].handle)
    requires g.records[r].handle !in n.slots
    ensures Stranded(InvalidateRecord(g, r).(native := n), r, cs)
  {
    hide InvHeap, InvNative, CursorOnSlot;
    CountsCursors(g, r, cs);
    forall c | c in cs ensures DetachedOn(InvalidateRecord(g, r), c, r) { LeftAreDetached(g, r, c); }
  }

  // ----------------------------------------------------------- deleting drops

  /**
   Outside `Droppable` a deleting drop is forbidden at once (a cursor is open on the
   handle), or closing the cursors left behind is.
   */
  lemma DropConsequence(g: Graph, r: Id, t: Id, cs: seq<Id>)
    requires InvMid(g, None, {}) && Tracked(g) && r in g.records && Mapped(g, r)
      && g.records[r].batchRefs == 0
    requires t in g.transactions && t in g.txnBindings && !g.txnBindings[t].readOnly
    requires !g.records[r].committed ==>
      exists b :: b in g.records[r].pending && b in g.dbiBindings && g.dbiBindings[b].pendingTxn == Some(t)
    requires !Droppable(g, r) && CursorsOf(g, r, cs)
    ensures CloseEach(DropInTransaction(g, r, t), cs).native.fault
    ensures CursorOnSlot(g.native, g.records[r].handle) ==> DropInTransaction(g, r, t).native.fault
  {
    hide InvHeap, InvNative, CursorOnSlot, Drop, Dropped, InvalidateRecord, Stranded, CursorsOf;
    var h := g.records[r].handle;
    DropLegal(g, r, t);
    InvalidateFlags(g, Drop(g.native, t, h, true), r);
    if CursorOnSlot(g.native, h) {
      FaultStays(DropInTransaction(g, r, t), cs);
    } else {
      DroppedGone(g.native, h);
      DropStrands(g, r, Dropped(g.native, h), cs);
      CountsCursors(g, r, cs);
      StrandedFaults(DropInTransaction(g, r, t), r, cs);
    }
  }

  lemma DroppedGone(n: Lmdb, h: nat)
    ensures h !in Dropped(n, h).slots
  {}

  /** The native state after the drop with its own transaction: forbidden already, or the handle is gone. */
  lemma InternallyGone(g: Graph, r: Id, t: Id, commit: bool)
    requires InvHeap(g, {}) && InvNative(g, None) && !g.activeWriter.PublicWriter? && t !in g.transactions
    requires r in g.records && Mapped(g, r) && g.records[r].committed
    ensures var n, h := TxnEnd(Drop(TxnBegin(g.native, t, false), t, g.records[r].handle, true), t, commit),
      g.records[r].handle;
      if CursorOnSlot(g.native, h) then n.fault else h !in n.slots
  {
    hide InvHeap, InvNative, TxnEnd, TxnBegin, Drop, WriterOpen, CursorOnSlot, WrittenOk;
    InternalDropLegal(g, r, t);
    if CursorOnSlot(g.native, g.records[r].handle) {
      CursorOnDropFaults(g.native, t, g.records[r].handle, commit);
    } else {
      InternalDrop(g.native, t, g.records[r].handle, true, commit);
    }
  }

  /**
   A deleting drop with its own transaction, outside the condition of
   `DropInternallyKeepsIff`: when the commit fails every wrapper stays open on a lost
   handle; when it succeeds, closing the cursors left behind is forbidden.
   */
  lemma DropInternallyConsequence(g: Graph, r: Id, t: Id, commit: bool, cs: seq<Id>)
    requires InvMid(g, None, {}) && Tracked(g) && !g.activeWriter.PublicWriter? && t !in g.transactions
    requires r in g.records && Mapped(g, r) && g.records[r].committed && g.records[r].batchRefs == 0
    requires !(commit && g.records[r].cursorRefs == 0) && CursorsOf(g, r, cs)
    ensures commit ==> CloseEach(DropInternally(g, r, t, true, true), cs).native.fault
    ensures !commit ==> var g' := DropInternally(g, r, t, true, false);
      && HandleLost(g'.native, g.records[r].handle)
      && g' == g.(native := g'.native)
  {
    hide InvHeap, InvNative, CursorOnSlot, Drop, TxnBegin, TxnEnd, InvalidateRecord, Stranded, CursorsOf, HandleLost;
    var h := g.records[r].handle;
    var n := TxnEnd(Drop(TxnBegin(g.native, t, false), t, h, true), t, commit);
    InternallyGone(g, r, t, commit);
    if !commit {
      LostWhenClosed(n, h);
    } else {
      InvalidateFlags(g, n, r);
      if CursorOnSlot(g.native, h) {
        FaultStays(DropInternally(g, r, t, true, true), cs);
      } else {
        DropStrands(g, r, n, cs);
        CountsCursors(g, r, cs);
        StrandedFaults(DropInternally(g, r, t, true, true), r, cs);
      }
    }
  }

  /** A caller who cannot foresee whether the commit succeeds is safe exactly when only emptying the database. */
  lemma DropInternallySafe(g: Graph, r: Id, t: Id, del: bool)
    requires InvMid(g, None, {}) && Tracked(g) && !g.activeWriter.PublicWriter? && t !in g.transactions
    requires r in g.records && Mapped(g, r) && g.records[r].committed && g.records[r].batchRefs == 0
    ensures (forall commit :: Survives(DropInternally(g, r, t, del, commit))) <==> !del
  {
    hide InvMid, DropInternally;
    DropInternallyKeepsIff(g, r, t, del, false);
    DropInternallyKeepsIff(g, r, t, del, true);
    assert Survives(DropInternally(g, r, t, del, false)) <==> !del;
    if !del {
      forall commit ensures Survives(DropInternally(g, r, t, del, commit)) { if commit {} }
    }
  }

  /** The invariant holds and no forbidden call was made. */
  ghost predicate Survives(g: Graph) { InvMid(g, None, {}) && !g.native.fault }

  // -------------------------------------------------------------------- reset

  /**
   Outside `OnlyCommittedPending` a reset loses the handle of some pending database.
   Its open wrappers still pass every check, in the renewed transaction and after
   its commit.
   */
  lemma ResetConsequence(g: Graph, t: Id) returns (r: Id)
    requires InvMid(g, None, {}) && Tracked(g) && t in g.transactions && t in g.txnBindings
    requires g.txnBindings[t].readOnly && g.txnBindings[t].cursors == {} && !OnlyCommittedPending(g, t)
    ensures r in PendingRecords(g, t) && r in g.records && !g.records[r].committed
    ensures var g1 := ResetTransaction(g, t);
      && HandleLost(g1.native, g.records[r].handle)
      && (forall b :: b in g.records[r].wrappers ==> b in g.txnBindings[t].pendingDbis && DbiForTxn(g1, b, t))
    ensures var g2 := EndNative(ResetTransaction(g, t), t, true);
      && HandleLost(g2.native, g.records[r].handle)
      && r in g2.records && g2.records[r].committed && g2.records[r].handle == g.records[r].handle
      && (forall b :: b in g.records[r].wrappers ==> LiveDbi(g2, b) && g2.dbiBindings[b].pendingTxn == None)
      && (Unreferenced(g2.records[r]) ==> FinalizeRecord(g2, r, true).native.fault)
  {
    hide InvHeap, InvNative, PendingRecords, HandleLost, TxnReset, TxnEnd;
    r :| r in PendingRecords(g, t) && r in g.records && !g.records[r].committed;
    PendingIsPrivate(g, None, t, r);
    NativeTxnOpen(g, None, t);
    ResetCloses(g.native, t, g.records[r].handle);
    LostWhenClosed(ResetTransaction(g, t).native, g.records[r].handle);
    EndKeepsClosed(TxnReset(g.native, t), t, g.records[r].handle);
    LostWhenClosed(EndNative(ResetTransaction(g, t), t, true).native, g.records[r].handle);
    forall b | b in g.records[r].wrappers
      ensures b in g.txnBindings[t].pendingDbis && b in g.dbiBindings && g.dbiBindings[b].record == r
      ensures !g.dbiBindings[b].closed && g.dbiBindings[b].pendingTxn == Some(t)
    {
      PrivateWrapper(g, t, r, b);
    }
    PromotedRecord(g, t, r);
    LostClose(EndNative(ResetTransaction(g, t), t, true), r);
  }

  lemma ResetCloses(n: Lmdb, t: Id, h: nat)
    requires t in n.txns && n.txns[t] && h in n.slots && n.slots[h] == Private(t)
    ensures h !in TxnReset(n, t).slots && TxnReset(n, t).txns == n.txns
  {}

  lemma EndKeepsClosed(n: Lmdb, t: Id, h: nat)
    requires t in n.txns && h !in n.slots
    ensures h !in TxnEnd(n, t, true).slots
  {}

  lemma UncommittedWrapper(g: Graph, r: Id, b: Id)
    requires InvRecords(g, {}) && WrapperSetsOk(g.dbiBindings, g.records)
    requires r in g.records && !g.records[r].committed && b in g.records[r].wrappers
    ensures b in g.records[r].pending && b in g.dbiBindings && g.dbiBindings[b].record == r && !g.dbiBindings[b].closed
    ensures Mapped(g, r)
  {}

  lemma WaitsForOwner(g: Graph, t: Id, r: Id, b: Id)
    requires InvSlots(g) && r in g.records && Mapped(g, r) && !g.records[r].committed
    requires g.records[r].handle in g.native.slots && g.native.slots[g.records[r].handle] == Private(t)
    requires b in g.records[r].pending && b in g.dbiBindings
    ensures g.dbiBindings[b].pendingTxn == Some(t)
  {}

  /** The wrappers of a database private to `t` all wait for `t`. */
  lemma PrivateWrapper(g: Graph, t: Id, r: Id, b: Id)
    requires InvHeap(g, {}) && InvNative(g, None) && t in g.txnBindings && r in PendingRecords(g, t) && r in g.records
    requires !g.records[r].committed && b in g.records[r].wrappers
    ensures b in g.txnBindings[t].pendingDbis && b in g.dbiBindings && g.dbiBindings[b].record == r
    ensures !g.dbiBindings[b].closed && g.dbiBindings[b].pendingTxn == Some(t)
  {
    hide TxnsOk, CursorsOk, CursorCountsOk, LeaseCountsOk, OpenDbisOk, WrapperSetsOk, PendingSetsOk, PendingTxnsOk,
         RecordsOk, HandleMapOk, RecordsExist, ShapeOk, NativeTxnsOk, NativeCursorsOk, SlotsOk, PrivateOk, WrittenOk,
         PendingRecords, InMap;
    PendingIsPrivate(g, None, t, r);
    UncommittedWrapper(g, r, b);
    WaitsForOwner(g, t, r, b);
    PendingOf(g, t);
  }

  lemma PromotedRecord(g: Graph, t: Id, r: Id)
    requires t in g.txnBindings && r in PendingRecords(g, t) && r in g.records
    ensures var g2 := EndNative(ResetTransaction(g, t), t, true);
      && r in g2.records && g2.records[r].committed && g2.records[r].handle == g.records[r].handle
      && g2.poisoned == g.poisoned
      && (forall b :: b in g.txnBindings[t].pendingDbis && b in g.dbiBindings ==>
            b in g2.dbiBindings && g2.dbiBindings[b] == g.dbiBindings[b].(pendingTxn := None))
      && (forall q :: q in g.records ==> q in g2.records)
  {
    hide TxnReset, TxnEnd;
    assert PendingRecords(ResetTransaction(g, t), t) == PendingRecords(g, t);
  }

  lemma LostClose(g: Graph, r: Id)
    requires r in g.records && !g.poisoned && g.records[r].committed && HandleLost(g.native, g.records[r].handle)
    ensures Unreferenced(g.records[r]) ==> FinalizeRecord(g, r, true).native.fault
  {}
}
