/**
 Runs in which the ownership layer itself asks LMDB for a call its header forbids,
 each leaving `EnvironmentRuns.Permitted` or `EnvironmentRuns.Clear` at one step.  The
 exact conditions are in the contracts of `PublicOperations`.
 */
module KnownGaps {
  import opened Common
  import opened NativeLmdb
  import opened Ownership

  /** An environment with one committed database: wrapper 0, record 0, handle 5. */
  function OneDatabase(): Graph {
    OpenCommittedDbi(OpenedEnvironment(0), 0, 5, 0, 7, true, true)
  }

  lemma OneDatabaseIs()
    ensures OneDatabase() == OpenedEnvironment(0).(
      dbiRecords := map[5 := 0], dbiBindings := map[0 := DbiBinding(0, None, false)], dbis := {0},
      records := map[0 := DbiRecord(5, {0}, {}, 0, 0, true)],
      native := OpenedEnvironment(0).native.(slots := map[5 := Shared]))
  {
    var n0 := OpenedEnvironment(0).native;
    var n1 := TxnBegin(n0, 7, false);
    assert !WriterOpen(n0);
    var n2 := DbiOpen(n1, 7, 5);
    assert n2 == n0.(txns := map[7 := false], openers := {7}, slots := map[5 := Private(7)]);
    var n3 := TxnEnd(n2, 7, true);
    assert n3.txns == map[] && n3.openers == {} && n3.cursors == map[] && n3.slots == map[5 := Shared];
  }

  /** The native state with that database open. */
  function OneHandle(): Lmdb {
    Lmdb(true, map[], map[], map[5 := Shared], {}, {}, {}, false, {})
  }

  /** The same environment with writer 1 begun. */
  function OneWriter(): Graph {
    Graph(map[0 := {1}], 1, map[1 := Transaction(true, 0, false, PhaseActive, {}, {})], {1},
          map[0 := DbiBinding(0, None, false)], {0}, map[0 := DbiRecord(5, {0}, {}, 0, 0, true)], map[5 := 0],
          map[], {}, map[], {}, 0, PublicWriter(1), false, true, true, OneHandle().(txns := map[1 := false]))
  }

  lemma WriterBegun()
    ensures 0 in OneDatabase().wrappers && BeginTransaction(OneDatabase(), 0, 1, false) == OneWriter()
  {
    hide OneDatabase;
    OneDatabaseIs();
    assert OneDatabase().native == OneHandle() && OneDatabase().wrappers == map[0 := {}];
    assert OneDatabase().wrappers[0 := {1}] == map[0 := {1}];
    assert {} + {1} == {1};
    assert !WriterOpen(OneHandle());
    assert TxnBegin(OneHandle(), 1, false) == OneWriter().native;
  }

  /** The deleting drop closes the handle while a cursor of the same transaction is on it. */
  lemma DropUnderCursor()
    ensures var g := OpenCursor(OneWriter(), 0, 1, 0);
      && !g.native.fault && 0 in g.records
      && DropInTransaction(g, 0, 1).native.fault
  {
    var g := OpenCursor(OneWriter(), 0, 1, 0);
    var n := OneHandle().(txns := map[1 := false], cursors := map[0 := NativeCursor(1, 5)]);
    assert g.native == n;
    assert n.cursors[0].slot == 5;
    assert Drop(n, 1, 5, true).fault;
  }

  /** A reader's cursor, detached when the reader ended, and writer 1 begun after it. */
  function WriterAfterReader(): Graph {
    OneWriter().(
      cursors := {0}, cursorBindings := map[0 := CursorBinding(false, None, 0, true, CursorDetached)],
      records := map[0 := DbiRecord(5, {0}, {}, 1, 0, true)],
      txnBindings := OneWriter().txnBindings[2 := Transaction(false, 0, true, PhaseClosed, {}, {})])
  }

  /** The same with reader 2 and its cursor 0. */
  function ReaderWithCursor(): Graph {
    Graph(map[0 := {2}], 1, map[2 := Transaction(true, 0, true, PhaseActive, {0}, {})], {2},
          map[0 := DbiBinding(0, None, false)], {0}, map[0 := DbiRecord(5, {0}, {}, 1, 0, true)], map[5 := 0],
          map[0 := CursorBinding(true, Some(2), 0, true, CursorActive)], {0}, map[], {}, 0, NoWriter, false, true, true,
          OneHandle().(txns := map[2 := true], cursors := map[0 := NativeCursor(2, 5)]))
  }

  /** Its cursor closed natively, as before the end of a reader. */
  function ReaderDetached(): Graph {
    ReaderWithCursor().(
      txnBindings := map[2 := Transaction(true, 0, true, PhaseActive, {}, {})],
      cursorBindings := map[0 := CursorBinding(false, None, 0, true, CursorDetached)],
      native := OneHandle().(txns := map[2 := true]))
  }

  /** The reader ended. */
  function ReaderGone(): Graph {
    ReaderDetached().(
      wrappers := map[0 := {}], transactions := {}, native := OneHandle(),
      txnBindings := map[2 := Transaction(false, 0, true, PhaseClosed, {}, {})])
  }

  lemma ReaderOpensCursor()
    ensures 0 in OneDatabase().wrappers
    ensures var g := BeginTransaction(OneDatabase(), 0, 2, true);
      && 2 in g.txnBindings && 0 in g.dbiBindings && g.dbiBindings[0].record in g.records
      && OpenCursor(g, 0, 2, 0) == ReaderWithCursor()
  {
    hide OneDatabase;
    OneDatabaseIs();
    assert OneDatabase().native == OneHandle() && OneDatabase().wrappers == map[0 := {}];
    assert OneDatabase().wrappers[0 := {2}] == map[0 := {2}];
    assert {} + {2} == {2};
    var g := BeginTransaction(OneDatabase(), 0, 2, true);
    assert g.native == OneHandle().(txns := map[2 := true]);
    var h := OpenCursor(g, 0, 2, 0);
    assert h.native == ReaderWithCursor().native;
    assert h.records == ReaderWithCursor().records;
    var none: set<Id> := {};
    assert none + {0} == {0};
    assert g.txnBindings == map[2 := Transaction(true, 0, true, PhaseActive, none, none)];
    assert h.txnBindings == ReaderWithCursor().txnBindings;
    assert h.cursorBindings == ReaderWithCursor().cursorBindings;
  }

  lemma ReaderDetaches()
    ensures 0 in ReaderWithCursor().cursorBindings && DetachCursor(ReaderWithCursor(), 0) == ReaderDetached()
  {
    var g := DetachCursor(ReaderWithCursor(), 0);
    assert g.native == ReaderDetached().native;
    assert {0} - {0} == {};
    assert g.txnBindings == ReaderDetached().txnBindings;
    assert g.cursorBindings == ReaderDetached().cursorBindings;
  }

  /** The end of a transaction without pending databases settles nothing. */
  lemma NothingSettled(g: Graph, t: Id, commit: bool)
    requires t in g.txnBindings && g.txnBindings[t].pendingDbis == {}
    ensures SettlePending(g, t, commit) == g
  {
    assert PendingRecords(g, t) == {};
    assert SettleRecords(g.records, {}, {}, commit) == g.records;
    assert SettleBindings(g.dbiBindings, {}, commit) == g.dbiBindings;
    assert g.dbis - {} == g.dbis;
    assert g.txnBindings[t := g.txnBindings[t].(pendingDbis := {})] == g.txnBindings;
  }

  lemma ReaderEnds()
    ensures 2 in ReaderDetached().txnBindings
    ensures var g := EndNative(ReaderDetached(), 2, false);
      2 in g.txnBindings && CloseTransaction(g, 2) == ReaderGone()
  {
    var o, g := ReaderDetached(), EndNative(ReaderDetached(), 2, false);
    assert g.native == OneHandle();
    NothingSettled(o, 2, false);
    assert {2} - {2} == {};
    var h := CloseTransaction(g, 2);
    assert h.wrappers == map[0 := {}] && h.txnBindings == ReaderGone().txnBindings;
  }

  lemma WriterFollows()
    ensures 0 in ReaderGone().wrappers && BeginTransaction(ReaderGone(), 0, 1, false) == WriterAfterReader()
  {
    assert !WriterOpen(OneHandle());
    assert TxnBegin(OneHandle(), 1, false) == OneWriter().native;
    assert {} + {1} == {1};
    var g := BeginTransaction(ReaderGone(), 0, 1, false);
    assert g.wrappers == map[0 := {1}] && g.txnBindings == WriterAfterReader().txnBindings;
  }

  /** Closing a detached cursor after its database was deleted closes the handle a second time. */
  lemma CursorOutlivesDrop()
    ensures var g := WriterAfterReader();
      && 0 in g.records && !g.native.fault
      && var g1 := DropInTransaction(g, 0, 1);
      && !g1.native.fault
      && 0 in g1.cursorBindings && g1.cursorBindings[0].dbi in g1.dbiBindings
      && g1.dbiBindings[g1.cursorBindings[0].dbi].record in g1.records
      && CloseCursor(g1, 0, true, true).native.fault
  {
    var g := WriterAfterReader();
    var g1 := DropInTransaction(g, 0, 1);
    assert g1.native == Dropped(g.native, 5) && g1.native.slots == map[];
    assert g1.records[0] == DbiRecord(5, {}, {}, 1, 0, true);
  }

  /** A put, and then the only wrapper of the database is closed while the writer is open. */
  lemma CloseAfterPut()
    ensures var g := OneWriter().(native := Write(OneWriter().native, 1, 5));
      && !g.native.fault && 0 in g.dbiBindings && g.dbiBindings[0].record in g.records
      && ReleaseDbi(g, 0, true).native.fault
  {
    var n := Write(OneWriter().native, 1, 5);
    assert n == OneHandle().(txns := map[1 := false], written := {(1, 5)});
    var g := OneWriter().(native := n);
    assert (1, 5) in n.written;
    assert Modified(n, 5);
    assert DbiClose(n, 5).fault;
    assert UnlinkDbi(g, 0).records[0] == DbiRecord(5, {}, {}, 0, 0, true);
  }

  /** Closing the environment with the database still open, as `Env.close` does. */
  lemma DatabaseOpenAtClose()
    ensures var n := EnvClose(DetachWrapper(OneDatabase(), 0).native);
      !n.fault && !n.envOpen && n.leftOpen == {5}
  {
    OneDatabaseIs();
  }

  /** A deleting drop whose commit fails leaves a record whose handle is already closed. */
  lemma FailedDropClosesTwice()
    ensures 0 in OneDatabase().records
    ensures var g := DropInternally(OneDatabase(), 0, 1, true, false);
      && !g.native.fault && 0 in g.dbiBindings && g.dbiBindings[0].record in g.records
      && ReleaseDbi(g, 0, true).native.fault
  {
    OneDatabaseIs();
    var n := OneDatabase().native;
    assert !WriterOpen(n);
    var n1 := TxnBegin(n, 1, false);
    assert n1.txns == map[1 := false];
    assert n1.cursors == map[] && n1.written == {};
    var n2 := Drop(n1, 1, 5, true);
    assert n2 == Dropped(n1, 5) && n2.slots == map[];
    assert TxnEnd(n2, 1, false).slots == map[] && !TxnEnd(n2, 1, false).fault;
  }

  /** A reader that opens a database and resets loses the handle its wrapper still counts on. */
  lemma ResetLosesHandle()
    ensures var g := OpenedEnvironment(0);
      && 0 in g.wrappers
      && var g1 := BeginTransaction(g, 0, 1, true);
      && 1 in g1.txnBindings && 5 !in g1.dbiRecords
      && var g2 := OpenPendingDbi(g1, 0, 5, 0, 1);
      && 1 in g2.txnBindings && !g2.native.fault
      && var g3 := ResetTransaction(g2, 1);
      && 1 in g3.txnBindings && !g3.native.fault
      && var g4 := EndNative(g3, 1, true);
      && !g4.native.fault && 0 in g4.dbiBindings && g4.dbiBindings[0].record in g4.records
      && ReleaseDbi(g4, 0, true).native.fault
  {
    var g := OpenedEnvironment(0);
    var g1 := BeginTransaction(g, 0, 1, true);
    assert g1.native.txns == map[1 := true];
    var g2 := OpenPendingDbi(g1, 0, 5, 0, 1);
    assert g2.native.slots == map[5 := Private(1)];
    var g3 := ResetTransaction(g2, 1);
    assert g3.native.slots == map[];
    var g4 := EndNative(g3, 1, true);
    assert g4.native.slots == map[];
    assert 0 in g3.txnBindings[1].pendingDbis && g4.dbiBindings[0] == DbiBinding(0, None, false);
    assert 0 in PendingRecords(g3, 1);
    assert g4.records[0].pending == {} && g4.records[0].committed;
  }
}
