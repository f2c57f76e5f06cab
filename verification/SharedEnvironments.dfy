/**
 The shared environment as the mutable object the source keeps per canonical
 path.  Internal methods carry the name of the function they follow; each loop
 walks a snapshot of a set, as the source does.
 */
module SharedEnvironments {
  import opened Common
  import opened NativeLmdb
  import opened Ownership
  import opened OwnershipLemmas
  import opened TransactionLemmas
  import opened DbiLemmas
  import opened DropLemmas
  import opened RetentionLemmas
  import opened EnvironmentLemmas

  class SharedEnvironment {
    var graph: Graph

    /** `Env.open` on a path without a registered environment. */
    constructor (w: Id)
      ensures graph == OpenedEnvironment(w) && Inv(graph)
    {
      graph := OpenedEnvironment(w);
      new;
      OpenedKeeps(w);
    }

    // ------------------------------------------------------ internal steps

    method FinalizeEmptyDbiRecord(r: Id, closeNative: bool)
      requires r in graph.records
      modifies this
      ensures graph == FinalizeRecord(old(graph), r, closeNative)
    {
      var record := graph.records[r];
      if record.wrappers != {} || record.pending != {} || record.cursorRefs != 0 || record.batchRefs != 0 {
        return;
      }
      if InMap(graph.dbiRecords, record.handle, r) {
        graph := graph.(dbiRecords := graph.dbiRecords - {record.handle});
      }
      if closeNative && record.committed && !graph.poisoned {
        graph := graph.(native := DbiClose(graph.native, record.handle));
      }
    }

    method CloseCursorBinding(c: Id, closeNative: bool, closeDbiNative: bool)
      requires c in graph.cursorBindings && graph.cursorBindings[c].dbi in graph.dbiBindings
      requires graph.dbiBindings[graph.cursorBindings[c].dbi].record in graph.records
      modifies this
      ensures graph == CloseCursor(old(graph), c, closeNative, closeDbiNative)
    {
      hide CursorClose, ForgetCursor, FinalizeRecord;
      var cursor := graph.cursorBindings[c];
      if cursor.phase == CursorClosed {
        return;
      }
      if closeNative && cursor.handle && !graph.poisoned {
        graph := graph.(native := CursorClose(graph.native, c));
      }
      var r := graph.dbiBindings[cursor.dbi].record;
      graph := graph.(
        txnBindings := ForgetCursor(graph.txnBindings, cursor.txn, c),
        cursors := graph.cursors - {c},
        cursorBindings := graph.cursorBindings[c := cursor.(handle := false, txn := None, phase := CursorClosed)],
        records := graph.records[r := graph.records[r].(cursorRefs := graph.records[r].cursorRefs - 1)]);
      FinalizeEmptyDbiRecord(r, closeDbiNative);
    }

    /** Closes a reader's native cursors while its transaction can still be dereferenced. */
    method PrepareTransactionCursorsForEnd(t: Id)
      requires InvMid(graph, None, {}) && graph.live && !graph.poisoned && t in graph.txnBindings
      modifies this
      ensures InvMid(graph, None, {})
      ensures Prepared(old(graph), graph, t)
      ensures graph.live && !graph.poisoned && graph.transactions == old(graph).transactions && t in graph.txnBindings
    {
      hide InvMid, InvHeap, CursorClose, Tracked, Detaching, ForgetCursor;
      ghost var o := graph;
      var txn := graph.txnBindings[t];
      if !txn.readOnly {
        return;
      }
      var todo := txn.cursors;
      DetachingNone(graph, t);
      while todo != {}
        invariant todo <= txn.cursors && graph.live && !graph.poisoned
        invariant InvMid(graph, None, {}) && Detaching(o, graph, t, todo)
        decreases todo
      {
        var c :| c in todo;
        HeapOf(graph, None, {});
        DetachingCursor(o, graph, t, todo, c);
        DetachCursorKeeps(graph, None, {}, c);
        DetachOne(o, graph, t, todo, c);
        if graph.cursorBindings[c].handle {
          graph := graph.(native := CursorClose(graph.native, c));
        }
        graph := graph.(
          txnBindings := ForgetCursor(graph.txnBindings, graph.cursorBindings[c].txn, c),
          cursorBindings := graph.cursorBindings[
            c := graph.cursorBindings[c].(handle := false, txn := None, phase := CursorDetached)]);
        todo := todo - {c};
      }
      DetachedAll(o, graph, t);
    }

    /** Settles one binding of a transaction whose pending set has been taken over. */
    method SettlePendingBinding(b: Id, commit: bool)
      requires b in graph.dbiBindings && graph.dbiBindings[b].record in graph.records
      requires graph.dbiBindings[b].closed ==>
        b !in graph.dbis && b !in graph.records[graph.dbiBindings[b].record].wrappers
      modifies this
      ensures graph == SettleBinding(old(graph), b, commit)
    {
      var binding, open := graph.dbiBindings[b], graph.dbis;
      var record := graph.records[binding.record];
      record := record.(pending := record.pending - {b});
      binding := binding.(pendingTxn := None);
      if commit {
        record := record.(committed := true);
      } else if !binding.closed {
        binding := binding.(closed := true);
        record := record.(wrappers := record.wrappers - {b});
        open := open - {b};
      } else {
        assert record.wrappers - {b} == record.wrappers && open - {b} == open;
      }
      graph := graph.(
        dbis := open,
        dbiBindings := graph.dbiBindings[b := binding],
        records := graph.records[binding.record := record]);
    }

    /**
     The loop of `promotePendingDbiBindings` when `commit`, of
     `invalidatePendingDbiBindings` otherwise.
     */
    method SettlePendingBindings(t: Id, commit: bool) returns (touched: set<Id>)
      requires InvDbis(graph) && InvExist(graph) && t in graph.txnBindings
      modifies this
      ensures graph == SettlePending(old(graph), t, commit)
      ensures touched == PendingRecords(old(graph), t)
    {
      hide SettledSoFar, SettleBinding, SettlePending, RecordsOf, DbisOk, RecordsExist;
      var bindings := graph.txnBindings[t].pendingDbis;
      SettledEnds(graph, t, commit);
      graph := graph.(txnBindings := graph.txnBindings[t := graph.txnBindings[t].(pendingDbis := {})]);
      touched := {};
      var todo, done := bindings, {};
      while todo != {}
        invariant todo !! done && todo + done == bindings
        invariant touched == RecordsOf(old(graph).dbiBindings, done)
        invariant graph == SettledSoFar(old(graph), t, done, commit)
        decreases todo
      {
        var b :| b in todo;
        PendingBinding(old(graph), t, b);
        RecordsOfOne(old(graph).dbiBindings, done, b);
        SettledStep(old(graph), t, done, b, commit);
        touched := touched + {graph.dbiBindings[b].record};
        SettlePendingBinding(b, commit);
        todo, done := todo - {b}, done + {b};
      }
      assert done == bindings;
    }

    /** Finalises the records a transaction end has touched, closing what is left unreferenced. */
    method FinalizeDbiRecords(touched: set<Id>, closeNative: bool, ghost ended: Option<Id>)
      requires InvMid(graph, ended, touched) && touched <= graph.records.Keys
      requires Tracked(graph) ==>
        closeNative && forall r :: r in touched ==> Mapped(graph, r) || !graph.records[r].committed
      modifies this
      ensures InvMid(graph, ended, {})
      ensures graph == old(graph).(dbiRecords := graph.dbiRecords, native := graph.native)
      ensures graph.native.written == old(graph).native.written
      ensures Tracked(old(graph)) ==>
        (graph.native.fault <==> !AllMayRelease(old(graph).native, old(graph).records, touched))
      ensures old(graph).poisoned ==> graph.native == old(graph).native
    {
      hide InvMid, FinalizeRecord, MayRelease;
      var todo := touched;
      ghost var done: set<Id> := {};
      while todo != {}
        invariant todo <= touched
        invariant graph == old(graph).(dbiRecords := graph.dbiRecords, native := graph.native)
        invariant InvMid(graph, ended, todo)
        invariant Tracked(graph) ==>
          forall r :: r in todo ==> Mapped(graph, r) || !graph.records[r].committed
        invariant todo + done == touched && (old(graph).native.fault ==> graph.native.fault)
        invariant Tracked(old(graph)) ==>
          (graph.native.fault <==> !AllMayRelease(old(graph).native, old(graph).records, done))
        invariant graph.native.written == old(graph).native.written
        invariant old(graph).poisoned ==> graph.native == old(graph).native
        decreases todo
      {
        var r :| r in todo;
        FinalizeRecordKeeps(graph, ended, todo, r, closeNative);
        FinalizeRecordFrame(graph, r, closeNative);
        FinalizeRecordWritten(graph, r, closeNative);
        FinalizeSticks(graph, r, closeNative);
        SameRelease(old(graph).native, graph.native, graph.records[r]);
        FinalizeEmptyDbiRecord(r, closeNative);
        todo, done := todo - {r}, done + {r};
      }
    }

    /** Closes the wrappers of the cursors LMDB freed with their write transaction. */
    method FinishTransactionCursors(t: Id, ghost ended: Option<Id>)
      requires InvMid(graph, ended, {}) && t in graph.txnBindings
      requires Tracked(graph) ==>
        ended == Some(t) && t in graph.transactions
      requires !graph.poisoned && graph.txnBindings[t].readOnly ==> graph.txnBindings[t].cursors == {}
      requires !graph.poisoned ==> graph.live
      modifies this
      ensures InvMid(graph, ended, {}) && CursorsFinished(old(graph), graph, t)
    {
      hide InvMid, InvHeap, CloseCursor, EndCursors, ForgetCursor, Unlinked, MayCloseCursor, SameButCounts;
      EqualCounts(graph.records);
      var all := graph.txnBindings[t].cursors;
      var todo := all;
      EndNoCursors(graph, t, CursorClosed);
      assert all - all == {} && graph.cursors - {} == graph.cursors;
      while todo != {}
        invariant todo <= all
        invariant InvMid(graph, ended, {})
        invariant graph == old(graph).(
          txnBindings := old(graph).txnBindings[t := old(graph).txnBindings[t].(cursors := todo)],
          cursorBindings := EndCursors(old(graph).cursorBindings, all - todo, CursorClosed),
          cursors := old(graph).cursors - (all - todo),
          records := graph.records, dbiRecords := graph.dbiRecords, native := graph.native)
        invariant old(graph).poisoned ==> graph.native == old(graph).native
        invariant graph.native.written == old(graph).native.written && graph.native.fault == old(graph).native.fault
        invariant all == {} ==> graph.records == old(graph).records
        invariant SameButCounts(old(graph).records, graph.records)
        decreases todo
      {
        var c :| c in todo;
        HeapOf(graph, ended, {});
        ActiveCursor(graph, {}, t, c);
        EndedKeys(old(graph).cursorBindings, all - todo, CursorClosed, c);
        EndOneCursor(old(graph).cursorBindings, old(graph).txnBindings, t, todo, all, c, CursorClosed);
        UnlinkedFields(graph.cursorBindings, c);
        if graph.cursorBindings[c].readOnly && !graph.poisoned {
          assert false; // a reader's cursors were detached before its transaction ended
        } else {
          if Tracked(graph) { MayCloseAfterEnd(graph, t, c); }
          CloseCursorSticks(graph, c, false, true);
          CloseCursorKeeps(graph, ended, {}, c, false, true);
          CloseCursorWritten(graph, c, false, true);
          CloseCursorFrame(graph, c, false, true);
          ClosingCounts(old(graph).records, graph, c, false, true);
          CloseCursorBinding(c, false, true);
        }
        assert all - (todo - {c}) == (all - todo) + {c};
        assert old(graph).cursors - (all - todo) - {c} == old(graph).cursors - (all - (todo - {c}));
        todo := todo - {c};
      }
      assert all - {} == all;
    }

    /** Detaches a reader's cursors, ends the transaction natively and settles the handles it opened. */
    method EndNativeTransaction(t: Id, commit: bool) returns (touched: set<Id>)
      requires InvMid(graph, None, {}) && graph.live && t in graph.transactions && t in graph.txnBindings
      requires commit ==> !graph.poisoned
      modifies this
      ensures touched <= graph.records.Keys && InvMid(graph, Some(t), touched)
      ensures forall r :: r in touched ==> Mapped(graph, r)
      ensures Tracked(graph) == Tracked(old(graph))
      ensures Tracked(graph) ==> (AllMayRelease(graph.native, graph.records, touched)
                                  <==> MayEnd(old(graph), t, commit))
      ensures NativeEnded(old(graph), graph, t, commit)
    {
      hide InvMid, TxnEnd, EndNative, SettlePending, EndCursors, NativeEnded, PendingRecords, InvDbis, InvExist, InMap,
           MayEnd, MayRelease, WrittenByOthers, SettleRecords, Prepared, AllMayRelease;
      ghost var o := graph;
      if graph.poisoned { NotPrepared(o, t); }
      if !graph.poisoned {
        PrepareTransactionCursorsForEnd(t);
      }
      EndNativeStep(o, graph, t, commit);
      if !graph.poisoned {
        graph := graph.(native := TxnEnd(graph.native, t, commit));
      }
      touched := SettlePendingBindings(t, commit);
    }

    /** Closes the remaining cursor wrappers and unlinks a transaction that has ended natively. */
    method CloseTransactionBinding(t: Id)
      requires InvMid(graph, Some(t), {}) && graph.live && t in graph.transactions && t in graph.txnBindings
      requires graph.txnBindings[t].pendingDbis == {}
      requires !graph.poisoned && graph.txnBindings[t].readOnly ==> graph.txnBindings[t].cursors == {}
      modifies this
      ensures InvMid(graph, None, {})
      ensures BindingClosed(old(graph), graph, t)
    {
      hide InvMid, Tracked, CursorsFinished, BindingClosed;
      FinishTransactionCursors(t, Some(t));
      BindingClosedFrom(old(graph), graph, t);
      CloseTransactionKeeps(graph, t);
      var txn := graph.txnBindings[t];
      graph := graph.(
        txnBindings := graph.txnBindings[t := txn.(handle := false, phase := PhaseClosed)],
        transactions := graph.transactions - {t},
        wrappers := if txn.wrapper in graph.wrappers
                    then graph.wrappers[txn.wrapper := graph.wrappers[txn.wrapper] - {t}] else graph.wrappers,
        activeWriter := if graph.activeWriter == PublicWriter(t) then NoWriter else graph.activeWriter);
    }

    /** The native end of a transaction and everything that ends with it. */
    method EndTransactionBinding(t: Id, commit: bool)
      requires InvMid(graph, None, {}) && graph.live && t in graph.transactions && t in graph.txnBindings
      requires commit ==> !graph.poisoned
      modifies this
      ensures InvMid(graph, None, {})
      ensures TransactionEnded(old(graph), graph, t, commit)
      ensures Tracked(old(graph)) ==> (graph.native.fault <==> !MayEnd(old(graph), t, commit))
    {
      hide InvMid, EndCursors, SettleBindings, NativeEnded, TransactionEnded, MayEnd, MayRelease, InMap,
           AllMayRelease, BindingClosed;
      var touched := EndNativeTransaction(t, commit);
      ghost var n := graph;
      NativeEndedCursors(old(graph), n, t, commit);
      FinalizeDbiRecords(touched, true, Some(t));
      ghost var m := graph;
      CloseTransactionBinding(t);
      ClosedFlags(m, graph, t);
      TransactionEndedFrom(old(graph), n, m, graph, t, commit);
    }

    method ReleaseDbiBinding(b: Id, closeNative: bool)
      requires b in graph.dbiBindings && graph.dbiBindings[b].record in graph.records
      modifies this
      ensures graph == ReleaseDbi(old(graph), b, closeNative)
    {
      hide FinalizeRecord;
      var binding := graph.dbiBindings[b];
      if binding.closed {
        return;
      }
      var r := binding.record;
      graph := graph.(
        dbiBindings := graph.dbiBindings[b := binding.(closed := true)],
        dbis := graph.dbis - {b},
        records := graph.records[r := graph.records[r].(wrappers := graph.records[r].wrappers - {b})]);
      if binding.pendingTxn.None? {
        FinalizeEmptyDbiRecord(r, closeNative);
      }
    }

    /** Closes every cursor and database wrapper of an environment whose generation is retired. */
    method InvalidateSharedEnvironmentChildren()
      requires InvMid(graph, None, {}) && !graph.live && graph.transactions == {}
      modifies this
      ensures InvMid(graph, None, {}) && graph.cursors == {} && graph.dbis == {}
      ensures graph == old(graph).(cursors := {}, dbis := {}, cursorBindings := graph.cursorBindings,
        dbiBindings := graph.dbiBindings, records := graph.records, dbiRecords := graph.dbiRecords)
    {
      hide InvMid, InvHeap, CloseCursor, ReleaseDbi, ForgetCursor, Unlinked;
      while graph.cursors != {}
        invariant InvMid(graph, None, {})
        invariant graph == old(graph).(cursors := graph.cursors, cursorBindings := graph.cursorBindings,
          records := graph.records, dbiRecords := graph.dbiRecords)
        decreases graph.cursors
      {
        var c :| c in graph.cursors;
        HeapOf(graph, None, {});
        ChildCursor(graph, c);
        CloseCursorKeeps(graph, None, {}, c, false, false);
        CloseCursorFrame(graph, c, false, false);
        CloseCursorBinding(c, false, false);
      }
      while graph.dbis != {}
        invariant InvMid(graph, None, {})
        invariant graph == old(graph).(cursors := {}, dbis := graph.dbis, cursorBindings := graph.cursorBindings,
          dbiBindings := graph.dbiBindings, records := graph.records, dbiRecords := graph.dbiRecords)
        decreases graph.dbis
      {
        var b :| b in graph.dbis;
        HeapOf(graph, None, {});
        ChildDbi(graph, b);
        ReleaseDbiKeeps(graph, b, false);
        ReleaseDbiFrame(graph, b, false);
        ReleaseDbiBinding(b, false);
      }
    }

    /** `hasBatchDbiLeases`: looks for a retained record in the handle map. */
    method HasBatchDbiLeases() returns (found: bool)
      requires InvHeap(graph, {})
      ensures found <==> Leased(graph.leases)
    {
      hide InvHeap, Leased;
      found := false;
      var todo := graph.dbiRecords.Keys;
      LeasedIffRetained(graph);
      MapExistsAll(graph);
      while todo != {}
        invariant todo <= graph.dbiRecords.Keys
        invariant found <==> exists h ::
          h in graph.dbiRecords.Keys - todo && graph.records[graph.dbiRecords[h]].batchRefs != 0
        decreases todo
      {
        var h :| h in todo;
        if graph.records[graph.dbiRecords[h]].batchRefs != 0 {
          found := true;
        }
        todo := todo - {h};
      }
    }

    /**
     Retires an environment nothing refers to: no cursor is left to close
     natively, and unless poisoned it is unregistered and closed natively.
     */
    method RetireEnvironment()
      requires InvMid(graph, None, {}) && InvLife(graph) && Unused(graph)
      modifies this
      ensures Inv(graph) && !graph.live && graph.poisoned == old(graph).poisoned && graph.leases == old(graph).leases
      ensures forall c :: !Leftover(old(graph).cursors, old(graph).cursorBindings, c)
      ensures graph.native == if graph.poisoned then old(graph).native else EnvClose(old(graph).native)
      ensures Tracked(old(graph)) ==>
        && !graph.native.fault && !graph.native.envOpen
        && (graph.native.leftOpen == {} <==> DatabasesClosed(old(graph)))
      ensures graph.registered == graph.poisoned
    {
      hide InvMid, InvHeap, InvNative, DatabasesClosed;
      HeapOf(graph, None, {});
      NothingOpen(graph);
      if Tracked(graph) { OpenAtClose(graph); }
      Dead(graph);
      graph := graph.(live := false);
      InvalidateSharedEnvironmentChildren();
      HeapOf(graph, None, {});
      EmptyHandleMap(graph);
      if graph.poisoned {
        return;
      }
      if graph.native.fault { FaultSticks(graph.native); }
      Unregister(graph, EnvClose(graph.native));
      graph := graph.(registered := false, native := EnvClose(graph.native));
    }

    method CloseSharedEnvironmentIfUnused()
      requires InvMid(graph, None, {}) && InvLife(graph)
      modifies this
      ensures Inv(graph) && graph.poisoned == old(graph).poisoned && graph.leases == old(graph).leases
      ensures !Unused(old(graph)) ==> graph == old(graph)
      ensures Unused(old(graph)) ==> !graph.live
      ensures old(graph).native.fault ==> graph.native.fault
      ensures Unused(old(graph)) && Tracked(old(graph)) ==>
        !graph.native.fault && (graph.native.leftOpen == {} <==> DatabasesClosed(old(graph)))
      ensures graph.poisoned ==> graph.native == old(graph).native
    {
      hide InvMid, InvHeap;
      if !graph.live {
        return;
      }
      HeapOf(graph, None, {});
      CountsLow(graph);
      var leased := HasBatchDbiLeases();
      if graph.refCount != 0 || graph.activeAsyncOperations != 0 || graph.activeWriter != NoWriter || leased {
        return;
      }
      RetireEnvironment();
    }
  }
}
