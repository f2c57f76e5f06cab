/**
 The ownership graph of one shared environment: environment wrappers,
 transactions, database records and their wrappers, cursors, batch leases, the
 writer slot, and the LMDB handles they own.  The functions are the steps that
 `SharedEnvironments` composes with loops; `Inv` is the graph invariant.
 */
module Ownership {
  import opened Common
  import opened NativeLmdb

  datatype TxnPhase = PhaseActive | PhaseReset | PhaseClosed
  datatype CursorPhase = CursorActive | CursorDetached | CursorClosed
  datatype Writer = NoWriter | PublicWriter(txn: Id) | InternalWriter(token: Id)

  datatype Transaction = Transaction(
    handle: bool, wrapper: Id, readOnly: bool, phase: TxnPhase, cursors: set<Id>, pendingDbis: set<Id>)

  datatype DbiRecord = DbiRecord(
    handle: nat, wrappers: set<Id>, pending: set<Id>, cursorRefs: int, batchRefs: int, committed: bool)

  datatype DbiBinding = DbiBinding(record: Id, pendingTxn: Option<Id>, closed: bool)

  datatype CursorBinding = CursorBinding(handle: bool, txn: Option<Id>, dbi: Id, readOnly: bool, phase: CursorPhase)

  datatype Lease = Lease(record: Id, released: bool)

  /** `live` is false once the environment's generation token is retired. */
  datatype Graph = Graph(
    wrappers: map<Id, set<Id>>, // open wrapper -> transactions it owns
    refCount: int,
    txnBindings: map<Id, Transaction>,
    transactions: set<Id>,
    dbiBindings: map<Id, DbiBinding>,
    dbis: set<Id>,
    records: map<Id, DbiRecord>,
    dbiRecords: map<nat, Id>,
    cursorBindings: map<Id, CursorBinding>,
    cursors: set<Id>,
    leases: map<Id, Lease>,
    operations: set<Id>, // unreleased sync and copy operations
    activeAsyncOperations: int,
    activeWriter: Writer,
    poisoned: bool,
    live: bool,
    registered: bool,
    native: Lmdb)

  // ---------------------------------------------------------------- references

  type Transactions = map<Id, Transaction>
  type DbiRecords = map<Id, DbiRecord>
  type DbiBindings = map<Id, DbiBinding>
  type CursorBindings = map<Id, CursorBinding>

  ghost predicate OnRecord(bindings: CursorBindings, dbis: DbiBindings, c: Id, r: Id) {
    c in bindings && bindings[c].dbi in dbis && dbis[bindings[c].dbi].record == r
  }

  /** The cursors not yet closed on record `r`. */
  ghost function CursorsOn(cursors: set<Id>, bindings: CursorBindings, dbis: DbiBindings, r: Id): set<Id> {
    set c | c in cursors && OnRecord(bindings, dbis, c, r)
  }

  /** The unreleased leases on record `r`. */
  ghost function LeasesOn(leases: map<Id, Lease>, r: Id): set<Id> {
    set l | l in leases && leases[l].record == r && !leases[l].released
  }

  predicate Unreferenced(record: DbiRecord) {
    record.wrappers == {} && record.pending == {} && record.cursorRefs == 0 && record.batchRefs == 0
  }

  predicate InMap(dbiRecords: map<nat, Id>, handle: nat, r: Id) {
    handle in dbiRecords && dbiRecords[handle] == r
  }

  predicate Mapped(g: Graph, r: Id)
    requires r in g.records
  {
    InMap(g.dbiRecords, g.records[r].handle, r)
  }

  /** Some batch still holds a lease. */
  predicate Leased(leases: map<Id, Lease>) {
    exists l :: l in leases && !leases[l].released
  }

  // ----------------------------------------------------------------- invariant

  ghost predicate ShapeOk(txnBindings: Transactions, transactions: set<Id>, cursorBindings: CursorBindings,
                          cursors: set<Id>, dbiBindings: DbiBindings, dbis: set<Id>)
  {
    && transactions <= txnBindings.Keys
    && cursors <= cursorBindings.Keys
    && dbis <= dbiBindings.Keys
    && (forall c :: c in cursorBindings ==> cursorBindings[c].dbi in dbiBindings)
  }

  ghost predicate RecordsExist(dbiBindings: DbiBindings, leases: map<Id, Lease>, records: DbiRecords) {
    && (forall b :: b in dbiBindings ==> dbiBindings[b].record in records)
    && (forall l :: l in leases ==> leases[l].record in records)
  }

  ghost predicate HandleMapOk(dbiRecords: map<nat, Id>, records: DbiRecords) {
    forall h :: h in dbiRecords ==> dbiRecords[h] in records && records[dbiRecords[h]].handle == h
  }

  /** Wrappers and transactions point at each other; the one open writer owns the writer slot. */
  ghost predicate TxnsOk(wrappers: map<Id, set<Id>>, refCount: int, txnBindings: Transactions,
                         transactions: set<Id>, activeWriter: Writer)
  {
    && (forall t :: t in txnBindings ==>
          (t in transactions <==> txnBindings[t].handle)
              && (t in transactions <==> txnBindings[t].phase != PhaseClosed))
    && (forall t :: t in transactions && t in txnBindings ==>
          txnBindings[t].wrapper in wrappers && t in wrappers[txnBindings[t].wrapper])
    && (forall w, t :: w in wrappers && t in wrappers[w] ==>
          t in transactions && t in txnBindings && txnBindings[t].wrapper == w)
    && (forall t :: t in txnBindings && txnBindings[t].phase == PhaseReset ==> txnBindings[t].readOnly)
    && (activeWriter.PublicWriter? ==> activeWriter.txn in transactions)
    && (forall t :: t in transactions && t in txnBindings ==>
          (activeWriter == PublicWriter(t) <==> !txnBindings[t].readOnly))
    && refCount == |wrappers|
  }

  /** A cursor holds a native handle exactly while its transaction is active. */
  ghost predicate CursorsOk(cursorBindings: CursorBindings, cursors: set<Id>, txnBindings: Transactions) {
    && (forall c :: c in cursorBindings ==>
          && (c in cursors <==> cursorBindings[c].phase != CursorClosed)
          && (cursorBindings[c].handle <==> cursorBindings[c].phase == CursorActive)
          && (cursorBindings[c].txn.Some? <==> cursorBindings[c].phase == CursorActive))
    && (forall c :: c in cursorBindings && cursorBindings[c].txn.Some? ==>
          && cursorBindings[c].txn.value in txnBindings
          && txnBindings[cursorBindings[c].txn.value].phase == PhaseActive
          && c in txnBindings[cursorBindings[c].txn.value].cursors
          && cursorBindings[c].readOnly == txnBindings[cursorBindings[c].txn.value].readOnly)
    && (forall t, c :: t in txnBindings && c in txnBindings[t].cursors ==>
          c in cursorBindings && cursorBindings[c].txn == Some(t))
  }

  ghost predicate OpenDbisOk(dbiBindings: DbiBindings, dbis: set<Id>) {
    forall b :: b in dbiBindings ==> (b in dbis <==> !dbiBindings[b].closed)
  }

  /** A record's wrapper set is exactly its open bindings. */
  ghost predicate WrapperSetsOk(dbiBindings: DbiBindings, records: DbiRecords) {
    forall r, b :: r in records ==>
      (b in records[r].wrappers <==> b in dbiBindings && dbiBindings[b].record == r && !dbiBindings[b].closed)
  }

  /** A record's pending set is exactly its bindings whose opening transaction has not ended. */
  ghost predicate PendingSetsOk(dbiBindings: DbiBindings, records: DbiRecords) {
    forall r, b :: r in records ==>
      (b in records[r].pending <==> b in dbiBindings && dbiBindings[b].record == r && dbiBindings[b].pendingTxn.Some?)
  }

  /** A transaction's pending set is exactly the bindings waiting for it. */
  ghost predicate PendingTxnsOk(dbiBindings: DbiBindings, txnBindings: Transactions) {
    && (forall t, b :: t in txnBindings ==>
          (b in txnBindings[t].pendingDbis <==> b in dbiBindings && dbiBindings[b].pendingTxn == Some(t)))
    && (forall b :: b in dbiBindings && dbiBindings[b].pendingTxn.Some? ==>
          dbiBindings[b].pendingTxn.value in txnBindings
          && txnBindings[dbiBindings[b].pendingTxn.value].phase != PhaseClosed)
  }

  ghost predicate DbisOk(dbiBindings: DbiBindings, dbis: set<Id>, records: DbiRecords, txnBindings: Transactions) {
    && OpenDbisOk(dbiBindings, dbis)
    && WrapperSetsOk(dbiBindings, records)
    && PendingSetsOk(dbiBindings, records)
    && PendingTxnsOk(dbiBindings, txnBindings)
  }

  ghost predicate CursorCountsOk(records: DbiRecords, cursors: set<Id>, bindings: CursorBindings, dbis: DbiBindings) {
    forall r :: r in records ==> records[r].cursorRefs == |CursorsOn(cursors, bindings, dbis, r)|
  }

  ghost predicate LeaseCountsOk(records: DbiRecords, leases: map<Id, Lease>) {
    forall r :: r in records ==> records[r].batchRefs == |LeasesOn(leases, r)|
  }

  /**
   A record in the handle map is referenced (or about to be finalised, `todo`);
   a record that left the map can never ask for a native close again.
   */
  ghost predicate RecordsOk(records: DbiRecords, dbiRecords: map<nat, Id>, todo: set<Id>) {
    forall r :: r in records ==>
      var record := records[r];
      && (InMap(dbiRecords, record.handle, r) ==> r in todo || !Unreferenced(record))
      && (!InMap(dbiRecords, record.handle, r) ==>
            && record.wrappers == {} && record.pending == {} && record.batchRefs == 0
            && (record.committed ==> record.cursorRefs == 0))
      && (!record.committed ==> record.wrappers <= record.pending && record.batchRefs == 0)
  }

  /** Open native transactions are those of the bindings, less the one `ended` already ended natively. */
  ghost predicate NativeTxnsOk(native: map<Id, bool>, openers: set<Id>, txnBindings: Transactions,
                               transactions: set<Id>, ended: Option<Id>)
  {
    && openers <= native.Keys
    && (forall t :: t in native <==> t in transactions && ended != Some(t))
    && (forall t :: t in native && t in txnBindings ==> native[t] == txnBindings[t].readOnly)
  }

  /** Open native cursors are those of the active bindings, less those `ended` already freed. */
  ghost predicate NativeCursorsOk(cursors: map<Id, NativeCursor>, cursorBindings: CursorBindings,
                                  dbiBindings: DbiBindings, records: DbiRecords, ended: Option<Id>)
  {
    && (forall c :: c in cursors <==>
          c in cursorBindings && cursorBindings[c].txn.Some? && cursorBindings[c].txn != ended)
    && (forall c :: c in cursors && c in cursorBindings && cursorBindings[c].dbi in dbiBindings
                    && dbiBindings[cursorBindings[c].dbi].record in records ==>
          && Some(cursors[c].txn) == cursorBindings[c].txn
          && cursors[c].slot == records[dbiBindings[cursorBindings[c].dbi].record].handle)
  }

  /** An open database handle is owned by exactly the record the handle map names. */
  ghost predicate SlotsOk(slots: map<nat, Slot>, openers: set<Id>, dbiRecords: map<nat, Id>, records: DbiRecords,
                          dbiBindings: DbiBindings)
  {
    && (forall h :: h in slots ==> h in dbiRecords)
    && (forall h :: h in dbiRecords && dbiRecords[h] in records ==>
          var record := records[dbiRecords[h]];
          && (record.committed ==> h in slots && slots[h] == Shared)
          && (!record.committed && record.pending != {} ==> h in slots)
          && (!record.committed && h in slots ==>
                && record.pending != {}
                && slots[h].Private? && slots[h].txn in openers
                && forall b :: b in record.pending && b in dbiBindings ==>
                     dbiBindings[b].pendingTxn == Some(slots[h].txn)))
  }

  /** A cursor on a handle that is not committed belongs to the transaction the handle is private to. */
  ghost predicate PrivateOk(cursors: map<Id, NativeCursor>, openers: set<Id>, slots: map<nat, Slot>,
                            dbiRecords: map<nat, Id>, cursorBindings: CursorBindings, dbiBindings: DbiBindings,
                            records: DbiRecords)
  {
    forall c :: c in cursors && c in cursorBindings && cursorBindings[c].dbi in dbiBindings
                && dbiBindings[cursorBindings[c].dbi].record in records ==>
      var r := dbiBindings[cursorBindings[c].dbi].record;
      (records[r].committed && InMap(dbiRecords, records[r].handle, r)) ||
      (cursors[c].txn in openers && records[r].handle in slots && slots[records[r].handle] == Private(cursors[c].txn))
  }

  /** After the final close nothing is open; while live the path stays registered. */
  ghost predicate InvLife(g: Graph) {
    && (g.live ==> g.registered)
    && (g.poisoned ==> g.registered)
    && (!g.live ==>
          && g.wrappers == map[] && g.transactions == {} && g.cursors == {} && g.dbis == {}
          && g.dbiRecords == map[] && g.operations == {} && g.activeWriter == NoWriter)
    && (!g.live && !g.poisoned ==>
          && !g.registered
          && (!g.native.fault ==>
                && !g.native.envOpen
                && g.native.txns == map[] && g.native.cursors == map[] && g.native.inFlight == {}))
  }

  ghost predicate InvShape(g: Graph) {
    ShapeOk(g.txnBindings, g.transactions, g.cursorBindings, g.cursors, g.dbiBindings, g.dbis)
  }
  ghost predicate InvExist(g: Graph) { RecordsExist(g.dbiBindings, g.leases, g.records) }
  ghost predicate InvMap(g: Graph) { HandleMapOk(g.dbiRecords, g.records) }
  ghost predicate InvTxns(g: Graph) { TxnsOk(g.wrappers, g.refCount, g.txnBindings, g.transactions, g.activeWriter) }
  ghost predicate InvCursors(g: Graph) { CursorsOk(g.cursorBindings, g.cursors, g.txnBindings) }
  ghost predicate InvDbis(g: Graph) { DbisOk(g.dbiBindings, g.dbis, g.records, g.txnBindings) }
  ghost predicate InvCursorCounts(g: Graph) { CursorCountsOk(g.records, g.cursors, g.cursorBindings, g.dbiBindings) }
  ghost predicate InvLeaseCounts(g: Graph) { LeaseCountsOk(g.records, g.leases) }
  ghost predicate InvRecords(g: Graph, todo: set<Id>) { RecordsOk(g.records, g.dbiRecords, todo) }

  /** The JavaScript half of the graph, with `todo` records still to be finalised. */
  ghost predicate InvHeap(g: Graph, todo: set<Id>) {
    && InvShape(g) && InvExist(g) && InvMap(g) && InvTxns(g) && InvCursors(g) && InvDbis(g)
    && InvCursorCounts(g) && InvLeaseCounts(g) && InvRecords(g, todo)
    && g.activeAsyncOperations == |g.operations|
  }

  ghost predicate InvNativeTxns(g: Graph, ended: Option<Id>) {
    NativeTxnsOk(g.native.txns, g.native.openers, g.txnBindings, g.transactions, ended)
  }
  ghost predicate InvNativeCursors(g: Graph, ended: Option<Id>) {
    NativeCursorsOk(g.native.cursors, g.cursorBindings, g.dbiBindings, g.records, ended)
  }
  ghost predicate InvSlots(g: Graph) {
    SlotsOk(g.native.slots, g.native.openers, g.dbiRecords, g.records, g.dbiBindings)
  }
  ghost predicate InvPrivate(g: Graph) {
    PrivateOk(g.native.cursors, g.native.openers, g.native.slots, g.dbiRecords, g.cursorBindings, g.dbiBindings,
              g.records)
  }

  /** Only open writers have modified anything. */
  ghost predicate WrittenOk(written: set<(Id, nat)>, txns: map<Id, bool>) {
    forall p :: p in written ==> p.0 in txns && !txns[p.0]
  }

  /** The native half: the open LMDB handles are exactly those the graph accounts for. */
  ghost predicate InvNative(g: Graph, ended: Option<Id>) {
    && g.native.envOpen && !g.native.fault && g.native.inFlight == g.operations
    && WrittenOk(g.native.written, g.native.txns)
    && InvNativeTxns(g, ended) && InvNativeCursors(g, ended) && InvSlots(g) && InvPrivate(g)
  }

  /** LMDB is in use and no forbidden call was made: the two halves are in step. */
  predicate Tracked(g: Graph) { g.live && !g.poisoned && !g.native.fault }

  ghost predicate InvMid(g: Graph, ended: Option<Id>, todo: set<Id>) {
    && InvHeap(g, todo)
    && (Tracked(g) ==> InvNative(g, ended))
  }

  /** A live environment without wrappers is kept by some operation, writer or lease. */
  ghost predicate InvRetained(g: Graph) {
    g.live && g.refCount == 0 ==>
      g.activeAsyncOperations != 0 || g.activeWriter != NoWriter || Leased(g.leases)
  }

  ghost predicate Inv(g: Graph) {
    InvMid(g, None, {}) && InvLife(g) && InvRetained(g)
  }

  // --------------------------------------------------------------------- steps

  /** A newly opened native environment with its first wrapper attached. */
  function OpenedEnvironment(w: Id): Graph {
    Graph(map[w := {}], 1, map[], {}, map[], {}, map[], map[], map[], {}, map[], {}, 0, NoWriter, false, true, true,
          Lmdb(true, map[], map[], map[], {}, {}, {}, false, {}))
  }

  /** Drops an unreferenced record from the handle map, closing its handle if asked and owned. */
  function FinalizeRecord(g: Graph, r: Id, closeNative: bool): Graph
    requires r in g.records
  {
    var record := g.records[r];
    if !Unreferenced(record) then g
    else
      g.(dbiRecords := if Mapped(g, r) then g.dbiRecords - {record.handle} else g.dbiRecords,
         native := if closeNative && record.committed && !g.poisoned
                   then DbiClose(g.native, record.handle) else g.native)
  }

  /**
   With its record as given, the next finalisation closes no handle whose database
   an open transaction has modified.
   */
  predicate MayRelease(n: Lmdb, record: DbiRecord) {
    Unreferenced(record) && record.committed ==> !Modified(n, record.handle)
  }

  function ForgetCursor(txnBindings: Transactions, t: Option<Id>, c: Id): Transactions {
    if t.Some? && t.value in txnBindings
    then txnBindings[t.value := txnBindings[t.value].(cursors := txnBindings[t.value].cursors - {c})]
    else txnBindings
  }

  /** Natively closes a reader's cursor before its transaction ends; the wrapper stays closable. */
  function DetachCursor(g: Graph, c: Id): Graph
    requires c in g.cursorBindings
  {
    var cursor := g.cursorBindings[c];
    g.(txnBindings := ForgetCursor(g.txnBindings, cursor.txn, c),
       cursorBindings := g.cursorBindings[c := cursor.(handle := false, txn := None, phase := CursorDetached)],
       native := if cursor.handle then CursorClose(g.native, c) else g.native)
  }

  /** The cursor table once each of `cs` was detached, or closed. */
  function EndCursors(bindings: CursorBindings, cs: set<Id>, phase: CursorPhase): CursorBindings {
    map c | c in bindings :: if c in cs then bindings[c].(handle := false, txn := None, phase := phase) else bindings[c]
  }

  /** The JavaScript half of closing a cursor, with its own native close if asked. */
  function UnlinkCursor(g: Graph, c: Id, closeNative: bool): Graph
    requires c in g.cursorBindings && g.cursorBindings[c].dbi in g.dbiBindings
    requires g.dbiBindings[g.cursorBindings[c].dbi].record in g.records
  {
    var cursor := g.cursorBindings[c];
    var r := g.dbiBindings[cursor.dbi].record;
    g.(txnBindings := ForgetCursor(g.txnBindings, cursor.txn, c),
       cursors := g.cursors - {c},
       cursorBindings := g.cursorBindings[c := cursor.(handle := false, txn := None, phase := CursorClosed)],
       records := g.records[r := g.records[r].(cursorRefs := g.records[r].cursorRefs - 1)],
       native := if closeNative && cursor.handle && !g.poisoned then CursorClose(g.native, c) else g.native)
  }

  function CloseCursor(g: Graph, c: Id, closeNative: bool, closeDbiNative: bool): Graph
    requires c in g.cursorBindings && g.cursorBindings[c].dbi in g.dbiBindings
    requires g.dbiBindings[g.cursorBindings[c].dbi].record in g.records
  {
    if g.cursorBindings[c].phase == CursorClosed then g
    else FinalizeRecord(UnlinkCursor(g, c, closeNative), g.dbiBindings[g.cursorBindings[c].dbi].record, closeDbiNative)
  }

  /** The records some of the wrappers `p` belong to. */
  function RecordsOf(bindings: DbiBindings, p: set<Id>): set<Id> {
    set b | b in p && b in bindings :: bindings[b].record
  }

  function PendingRecords(g: Graph, t: Id): set<Id>
    requires t in g.txnBindings
  {
    RecordsOf(g.dbiBindings, g.txnBindings[t].pendingDbis)
  }

  function SettleBindings(bindings: DbiBindings, p: set<Id>, commit: bool): DbiBindings {
    map b | b in bindings ::
      if b !in p then bindings[b]
      else if commit then bindings[b].(pendingTxn := None)
      else bindings[b].(pendingTxn := None, closed := true)
  }

  function SettleRecords(records: DbiRecords, rs: set<Id>, p: set<Id>, commit: bool): DbiRecords {
    map r | r in records ::
      if r !in rs then records[r]
      else if commit then records[r].(pending := records[r].pending - p, committed := true)
      else records[r].(pending := records[r].pending - p, wrappers := records[r].wrappers - p)
  }

  /**
   The wrappers of handles `t` opened stop being pending: a commit promotes
   their records to committed, any other end closes the wrappers.
   */
  function SettlePending(g: Graph, t: Id, commit: bool): Graph
    requires t in g.txnBindings
  {
    var p := g.txnBindings[t].pendingDbis;
    g.(txnBindings := g.txnBindings[t := g.txnBindings[t].(pendingDbis := {})],
       dbis := if commit then g.dbis else g.dbis - p,
       dbiBindings := SettleBindings(g.dbiBindings, p, commit),
       records := SettleRecords(g.records, PendingRecords(g, t), p, commit))
  }

  /** The native end of a transaction together with the fate of the handles it opened. */
  function EndNative(g: Graph, t: Id, commit: bool): Graph
    requires t in g.txnBindings
  {
    var n := if g.poisoned then g.native else TxnEnd(g.native, t, commit);
    SettlePending(g, t, commit).(native := n)
  }

  /** Unlinks a transaction whose cursors are gone from wrapper, environment and writer slot. */
  function CloseTransaction(g: Graph, t: Id): Graph
    requires t in g.txnBindings
  {
    var txn := g.txnBindings[t];
    g.(txnBindings := g.txnBindings[t := txn.(handle := false, phase := PhaseClosed)],
       transactions := g.transactions - {t},
       wrappers := if txn.wrapper in g.wrappers
                   then g.wrappers[txn.wrapper := g.wrappers[txn.wrapper] - {t}] else g.wrappers,
       activeWriter := if g.activeWriter == PublicWriter(t) then NoWriter else g.activeWriter)
  }

  function BeginTransaction(g: Graph, w: Id, t: Id, readOnly: bool): Graph
    requires w in g.wrappers
  {
    g.(txnBindings := g.txnBindings[t := Transaction(true, w, readOnly, PhaseActive, {}, {})],
       transactions := g.transactions + {t},
       wrappers := g.wrappers[w := g.wrappers[w] + {t}],
       activeWriter := if readOnly then g.activeWriter else PublicWriter(t),
       native := TxnBegin(g.native, t, readOnly))
  }

  function ResetTransaction(g: Graph, t: Id): Graph
    requires t in g.txnBindings
  {
    g.(txnBindings := g.txnBindings[t := g.txnBindings[t].(phase := PhaseReset)], native := TxnReset(g.native, t))
  }

  function RenewTransaction(g: Graph, t: Id): Graph
    requires t in g.txnBindings
  {
    g.(txnBindings := g.txnBindings[t := g.txnBindings[t].(phase := PhaseActive)])
  }

  /** Binds wrapper `b` to the record of handle `h`, creating record `newRecord` when there is none. */
  function RegisterDbi(g: Graph, b: Id, h: nat, newRecord: Id, pendingTxn: Option<Id>): Graph
    requires h in g.dbiRecords ==> g.dbiRecords[h] in g.records
    requires pendingTxn.Some? ==> pendingTxn.value in g.txnBindings
  {
    var r := if h in g.dbiRecords then g.dbiRecords[h] else newRecord;
    var record := if h !in g.dbiRecords then DbiRecord(h, {}, {}, 0, 0, pendingTxn.None?)
                  else if pendingTxn.None? then g.records[r].(committed := true) else g.records[r];
    g.(dbiRecords := g.dbiRecords[h := r],
       dbiBindings := g.dbiBindings[b := DbiBinding(r, pendingTxn, false)],
       dbis := g.dbis + {b},
       records := g.records[r := record.(
         wrappers := record.wrappers + {b},
         pending := if pendingTxn.Some? then record.pending + {b} else record.pending)],
       txnBindings := if pendingTxn.None? then g.txnBindings
         else g.txnBindings[pendingTxn.value := g.txnBindings[pendingTxn.value].(
           pendingDbis := g.txnBindings[pendingTxn.value].pendingDbis + {b})])
  }

  /** Opens a database inside caller transaction `t`; LMDB returned handle `h`. */
  function OpenPendingDbi(g: Graph, b: Id, h: nat, newRecord: Id, t: Id): Graph
    requires h in g.dbiRecords ==> g.dbiRecords[h] in g.records
    requires t in g.txnBindings
  {
    RegisterDbi(g.(native := DbiOpen(g.native, t, h)), b, h, newRecord, Some(t))
  }

  /** Opens a database through an internal transaction `t` of its own, which then commits or not. */
  function OpenCommittedDbi(g: Graph, b: Id, h: nat, newRecord: Id, t: Id, create: bool, commit: bool): Graph
    requires h in g.dbiRecords ==> g.dbiRecords[h] in g.records
  {
    var g1 := g.(native := TxnEnd(DbiOpen(TxnBegin(g.native, t, !create), t, h), t, commit));
    if commit then RegisterDbi(g1, b, h, newRecord, None) else g1
  }

  function UnlinkDbi(g: Graph, b: Id): Graph
    requires b in g.dbiBindings && g.dbiBindings[b].record in g.records
  {
    var r := g.dbiBindings[b].record;
    g.(dbiBindings := g.dbiBindings[b := g.dbiBindings[b].(closed := true)],
       dbis := g.dbis - {b},
       records := g.records[r := g.records[r].(wrappers := g.records[r].wrappers - {b})])
  }

  /** Closes wrapper `b`; the last reference to a settled record closes the handle. */
  function ReleaseDbi(g: Graph, b: Id, closeNative: bool): Graph
    requires b in g.dbiBindings && g.dbiBindings[b].record in g.records
  {
    if g.dbiBindings[b].closed then g
    else if g.dbiBindings[b].pendingTxn.Some? then UnlinkDbi(g, b)
    else FinalizeRecord(UnlinkDbi(g, b), g.dbiBindings[b].record, closeNative)
  }

  /** After a deleting drop every wrapper of the record dies and the record leaves the map. */
  function InvalidateRecord(g: Graph, r: Id): Graph
    requires r in g.records
  {
    var record := g.records[r];
    var gone := record.wrappers + record.pending;
    g.(dbiBindings := map b | b in g.dbiBindings ::
         if b in gone then g.dbiBindings[b].(pendingTxn := None, closed := true) else g.dbiBindings[b],
       dbis := g.dbis - gone,
       txnBindings := map t | t in g.txnBindings ::
         g.txnBindings[t].(pendingDbis := g.txnBindings[t].pendingDbis - gone),
       records := g.records[r := record.(wrappers := {}, pending := {})],
       dbiRecords := if Mapped(g, r) then g.dbiRecords - {record.handle} else g.dbiRecords)
  }

  /** `mdb_drop` with delete inside caller transaction `t`, then invalidation. */
  function DropInTransaction(g: Graph, r: Id, t: Id): Graph
    requires r in g.records
  {
    InvalidateRecord(g.(native := Drop(g.native, t, g.records[r].handle, true)), r)
  }

  /** The drop that owns its transaction `t`; the record is invalidated only if that commits. */
  function DropInternally(g: Graph, r: Id, t: Id, del: bool, commit: bool): Graph
    requires r in g.records
  {
    var n := TxnEnd(Drop(TxnBegin(g.native, t, false), t, g.records[r].handle, del), t, commit);
    if del && commit then InvalidateRecord(g.(native := n), r) else g.(native := n)
  }

  function OpenCursor(g: Graph, c: Id, t: Id, b: Id): Graph
    requires t in g.txnBindings && b in g.dbiBindings && g.dbiBindings[b].record in g.records
  {
    var r := g.dbiBindings[b].record;
    g.(cursorBindings :=
       g.cursorBindings[c := CursorBinding(true, Some(t), b, g.txnBindings[t].readOnly, CursorActive)],
       cursors := g.cursors + {c},
       txnBindings := g.txnBindings[t := g.txnBindings[t].(cursors := g.txnBindings[t].cursors + {c})],
       records := g.records[r := g.records[r].(cursorRefs := g.records[r].cursorRefs + 1)],
       native := CursorOpen(g.native, c, t, g.records[r].handle))
  }

  function RetainRecord(g: Graph, l: Id, r: Id): Graph
    requires r in g.records
  {
    g.(leases := g.leases[l := Lease(r, false)],
       records := g.records[r := g.records[r].(batchRefs := g.records[r].batchRefs + 1)])
  }

  function UnlinkLease(g: Graph, l: Id): Graph
    requires l in g.leases && g.leases[l].record in g.records
  {
    var r := g.leases[l].record;
    g.(leases := g.leases[l := Lease(r, true)],
       records := g.records[r := g.records[r].(
         batchRefs := if g.records[r].batchRefs > 0 then g.records[r].batchRefs - 1 else g.records[r].batchRefs)])
  }

  function ReleaseLease(g: Graph, l: Id): Graph
    requires l in g.leases && g.leases[l].record in g.records
  {
    if g.leases[l].released then g
    else FinalizeRecord(UnlinkLease(g, l), g.leases[l].record, g.records[g.leases[l].record].committed && !g.poisoned)
  }

  function AttachWrapper(g: Graph, w: Id): Graph {
    g.(wrappers := g.wrappers[w := {}], refCount := g.refCount + 1)
  }

  function DetachWrapper(g: Graph, w: Id): Graph {
    if w in g.wrappers then g.(wrappers := g.wrappers - {w}, refCount := g.refCount - 1) else g
  }

  function BeginOperation(g: Graph, op: Id): Graph {
    g.(operations := g.operations + {op}, activeAsyncOperations := g.activeAsyncOperations + 1,
       native := g.native.(inFlight := g.native.inFlight + {op}))
  }

  function EndOperation(g: Graph, op: Id): Graph {
    if op !in g.operations then g
    else g.(operations := g.operations - {op}, activeAsyncOperations := g.activeAsyncOperations - 1,
            native := g.native.(inFlight := g.native.inFlight - {op}))
  }

  function ReserveWriter(g: Graph, token: Id): Graph {
    g.(activeWriter := InternalWriter(token))
  }

  function ReleaseWriter(g: Graph, token: Id): Graph {
    if g.activeWriter == InternalWriter(token) then g.(activeWriter := NoWriter) else g
  }

  function Poison(g: Graph): Graph { g.(poisoned := true) }

  /** The guard under which the last reference retires the environment. */
  ghost predicate Unused(g: Graph) {
    g.live && g.refCount == 0 && g.activeAsyncOperations == 0 && g.activeWriter == NoWriter && !Leased(g.leases)
  }

  /** Cursor handles a final close would still have to close natively. */
  predicate Leftover(cursors: set<Id>, bindings: CursorBindings, c: Id) {
    c in cursors && c in bindings && bindings[c].handle && bindings[c].readOnly
  }
}
