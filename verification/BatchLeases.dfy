/**
 Preparing and releasing a batch: one lease per distinct database record,
 however many wrappers name it, and none left behind by a batch that throws.
 */
module BatchLeases {
  import opened Common
  import opened NativeLmdb
  import opened Ownership
  import opened RetentionLemmas
  import opened EnvironmentLemmas
  import opened SharedEnvironments
  import opened PublicOperations
  import opened BatchExecutor

  /**
   One operation: its database and its condition's (if any), whether normalising
   either part throws, and the encoded parts.  A condition without a key of its own
   takes the operation's.
   */
  datatype BatchInput = BatchInput(
    db: Id, conditionDb: Option<Id>, partThrows: bool, conditionThrows: bool,
    key: Bytes, value: Option<Bytes>, ifKey: Option<Bytes>, ifValue: Option<Bytes>, exact: bool)

  /** The leases by record, and the request the executor gets. */
  datatype PreparedBatch = PreparedBatch(leases: map<Id, Id>, released: bool, operations: seq<Operation>)

  /** The handle a lease on wrapper `b` hands to the executor. */
  function TargetOf(g: Graph, b: Id): nat {
    if b in g.dbiBindings && g.dbiBindings[b].record in g.records then HandleOf(g, b) else 0
  }

  function NormalOperation(g: Graph, x: BatchInput): Operation {
    Operation(TargetOf(g, x.db), x.key, x.value,
              if x.conditionDb == None then None
              else Some(Condition(TargetOf(g, x.conditionDb.value), if x.ifKey == None then x.key else x.ifKey.value,
                                  x.ifValue, x.exact)))
  }

  /** The request of a batch whose wrappers are as in `g`. */
  function Normalised(g: Graph, inputs: seq<BatchInput>): (ops: seq<Operation>)
    ensures |ops| == |inputs|
  {
    seq(|inputs|, i requires 0 <= i < |inputs| => NormalOperation(g, inputs[i]))
  }

  /**
   What the executor is asked to do: each operation writes its input's key and value
   to the database of its own wrapper; its condition, if it has one, reads the database
   of the condition's wrapper, at the condition's key if that is given and otherwise at
   the operation's.
   */
  lemma NormalisedMeaning(g: Graph, inputs: seq<BatchInput>)
    requires forall x :: x in inputs ==>
      (x.db in g.dbiBindings && g.dbiBindings[x.db].record in g.records)
      && (x.conditionDb.Some? ==>
            x.conditionDb.value in g.dbiBindings && g.dbiBindings[x.conditionDb.value].record in g.records)
    ensures var ops := Normalised(g, inputs);
      forall i :: 0 <= i < |inputs| ==>
        var x, op := inputs[i], ops[i];
        && op.dbi == g.records[g.dbiBindings[x.db].record].handle && op.key == x.key && op.value == x.value
        && (op.condition.Some? <==> x.conditionDb.Some?)
        && (x.conditionDb.Some? ==>
              && op.condition.value.dbi == g.records[g.dbiBindings[x.conditionDb.value].record].handle
              && op.condition.value.key == (match x.ifKey case Some(k) => k case None => x.key)
              && op.condition.value.value == x.ifValue && op.condition.value.exact == x.exact)
  {}

  /** Handle `h` is open and shared: what the executor may hand to LMDB. */
  predicate OpenHandle(g: Graph, h: nat) { h in g.native.slots && g.native.slots[h] == Shared }

  /** Every handle these operations and their conditions name is open. */
  predicate HandlesOpen(g: Graph, ops: seq<Operation>) {
    forall i :: 0 <= i < |ops| ==>
      OpenHandle(g, ops[i].dbi) && (ops[i].condition.Some? ==> OpenHandle(g, ops[i].condition.value.dbi))
  }

  /** The leases `held`, by record, are unreleased. */
  predicate HeldIn(g: Graph, held: map<Id, Id>) {
    forall r :: r in held ==> held[r] in g.leases && g.leases[held[r]] == Lease(r, false)
  }

  /** The record behind wrapper `b` of `o` is among `rs`. */
  predicate LeasedWrapper(o: Graph, b: Id, rs: set<Id>) {
    b in o.dbiBindings && o.dbiBindings[b].record in o.records && o.dbiBindings[b].record in rs
  }

  /**
   In any state in which the leases are unreleased, whatever else has happened since
   graph `o`, the handles the request names are open and are those of its records.
   */
  lemma LeasedHandlesOpen(o: Graph, g: Graph, held: map<Id, Id>, inputs: seq<BatchInput>)
    requires Inv(g) && Tracked(g) && HeldIn(g, held)
    requires forall r :: r in held && r in o.records ==> r in g.records && g.records[r].handle == o.records[r].handle
    requires forall b :: b in Owners(inputs) ==> LeasedWrapper(o, b, held.Keys)
    ensures HandlesOpen(g, Normalised(o, inputs))
  {
    hide Inv, Owners, OpenHandle;
    forall b | b in Owners(inputs) ensures OpenHandle(g, TargetOf(o, b)) {
      LeasedRecordOpen(g, o.dbiBindings[b].record, held[o.dbiBindings[b].record]);
    }
    forall i | 0 <= i < |inputs|
      ensures OpenHandle(g, TargetOf(o, inputs[i].db))
      ensures inputs[i].conditionDb.Some? ==> OpenHandle(g, TargetOf(o, inputs[i].conditionDb.value))
    {
      InputOwners(inputs, inputs[i]);
    }
  }

  /** An unreleased lease keeps its record's handle open. */
  lemma LeasedRecordOpen(g: Graph, r: Id, l: Id)
    requires Inv(g) && Tracked(g) && l in g.leases && g.leases[l] == Lease(r, false)
    ensures r in g.records && OpenHandle(g, g.records[r].handle)
    ensures g.records[r].handle in g.dbiRecords && g.dbiRecords[g.records[r].handle] == r
  {
    hide TxnsOk, CursorsOk, DbisOk, CursorCountsOk, NativeTxnsOk, NativeCursorsOk, PrivateOk, ShapeOk;
    MidOf(g);
    assert l in LeasesOn(g.leases, r);
    assert g.records[r].batchRefs > 0;
    assert InMap(g.dbiRecords, g.records[r].handle, r);
  }

  /** The wrappers a batch names. */
  function Owners(inputs: seq<BatchInput>): set<Id> {
    (set x | x in inputs :: x.db) + (set x | x in inputs && x.conditionDb.Some? :: x.conditionDb.value)
  }

  predicate Leasable(g: Graph, b: Id) { LiveDbi(g, b) && g.dbiBindings[b].pendingTxn == None }

  /** Some step of normalising the batch throws; `keyThrows` is the check of the first key. */
  predicate Throws(inputs: seq<BatchInput>, keyThrows: bool) {
    (inputs != [] && keyThrows)
    || exists i :: 0 <= i < |inputs| && (inputs[i].partThrows
                                         || (inputs[i].conditionDb.Some? && inputs[i].conditionThrows))
  }

  /** Every wrapper named may be leased by environment wrapper `w`, and normalising throws nowhere. */
  predicate BatchValid(g: Graph, w: Id, inputs: seq<BatchInput>, keyThrows: bool) {
    (forall b :: b in Owners(inputs) ==> w in g.wrappers && Leasable(g, b)) && !Throws(inputs, keyThrows)
  }

  /**
   Which batches are prepared: the empty one always, any other when nothing it is
   normalised from throws and every database it or a condition names is open and settled.
   */
  lemma BatchValidMeans(g: Graph, w: Id, inputs: seq<BatchInput>, keyThrows: bool)
    requires Inv(g)
    ensures BatchValid(g, w, inputs, keyThrows) <==>
      && (inputs != [] ==> w in g.wrappers && !g.poisoned && !keyThrows)
      && forall x :: x in inputs ==>
           && !x.partThrows && x.db in g.dbis && x.db in g.dbiBindings && g.dbiBindings[x.db].pendingTxn == None
           && (x.conditionDb.Some? ==>
                 && !x.conditionThrows && x.conditionDb.value in g.dbis && x.conditionDb.value in g.dbiBindings
                 && g.dbiBindings[x.conditionDb.value].pendingTxn == None)
  {
    hide Inv, LiveDbi, Owners;
    forall b ensures Leasable(g, b) <==>
      b in g.dbis && b in g.dbiBindings && g.dbiBindings[b].pendingTxn == None && !g.poisoned
    {
      UsableMeans(g, b, 0);
      LiveMeans(g, b);
    }
    hide Leasable;
    EveryOwner(inputs);
    if inputs != [] { InputOwners(inputs, inputs[0]); }
  }

  /** Each wrapper named is that of an operation or of a condition. */
  lemma EveryOwner(inputs: seq<BatchInput>)
    ensures forall b :: b in Owners(inputs) <==> exists x :: x in inputs && (x.db == b || x.conditionDb == Some(b))
  {
    forall b ensures b in Owners(inputs) <==> exists x :: x in inputs && (x.db == b || x.conditionDb == Some(b)) {
      if x :| x in inputs && (x.db == b || x.conditionDb == Some(b)) { InputOwners(inputs, x); }
    }
  }

  // -------------------------------------------------------------- accounting

  /** The records with one more lease on each of `rs`. */
  function Raised(records: DbiRecords, rs: set<Id>): DbiRecords {
    map r | r in records :: if r in rs then records[r].(batchRefs := records[r].batchRefs + 1) else records[r]
  }

  /** The leases `held` are the ones added to `before` and not released yet. */
  ghost predicate LeaseTable(before: map<Id, Lease>, leases: map<Id, Lease>, held: map<Id, Id>, next: Id) {
    && (forall l :: l in leases ==> l < next)
    && (forall l :: l in before ==> l in leases && leases[l] == before[l])
    && (forall r :: r in held ==> held[r] in leases && held[r] !in before && leases[held[r]] == Lease(r, false))
    && (forall l :: l in leases && l !in before && !leases[l].released ==>
          leases[l].record in held && held[leases[l].record] == l)
  }

  /** The graph with one more unreleased lease per record in `held`, and nothing else changed. */
  ghost predicate Holding(o: Graph, g: Graph, held: map<Id, Id>, next: Id) {
    && g == o.(leases := g.leases, records := Raised(o.records, held.Keys))
    && held.Keys <= o.records.Keys && LeaseTable(o.leases, g.leases, held, next)
  }

  lemma HoldingNothing(g: Graph, next: Id)
    requires forall l :: l in g.leases ==> l < next
    ensures Holding(g, g, map[], next)
  {
    assert Raised(g.records, {}) == g.records;
  }

  lemma RaisedOne(records: DbiRecords, rs: set<Id>, r: Id)
    requires r in records && r !in rs
    ensures r in Raised(records, rs)
    ensures Raised(records, rs + {r})
         == Raised(records, rs)[r := Raised(records, rs)[r].(batchRefs := Raised(records, rs)[r].batchRefs + 1)]
  {}

  /** Wrappers stay as they are while a batch is prepared. */
  lemma HoldingWrappers(o: Graph, g: Graph, held: map<Id, Id>, next: Id, b: Id)
    requires Holding(o, g, held, next) && Inv(o)
    ensures Leasable(g, b) == Leasable(o, b) && g.wrappers == o.wrappers && g.poisoned == o.poisoned
      && next !in g.leases
    ensures g.records.Keys == o.records.Keys
  {
    hide Inv;
  }

  /** Raising and lowering the count of a record that has a wrapper closes nothing. */
  lemma SpareLease(g: Graph, l: Id, r: Id, b: Id)
    requires InvHeap(g, {}) && b in g.dbiBindings && g.dbiBindings[b].record == r && r in g.records
    requires !g.dbiBindings[b].closed && l !in g.leases
    ensures var g1 := RetainRecord(g, l, r);
      && l in g1.leases && g1.leases[l].record in g1.records && MayReleaseLease(g1, l)
      && ReleaseLease(g1, l) == g.(leases := g.leases[l := Lease(r, true)])
  {
    hide InvHeap;
    HasWrapper(g, r, b);
    var g1 := RetainRecord(g, l, r);
    StaysMapped(g1, l, r);
    assert g1.records[r := g.records[r]] == g.records && g1.leases[l := Lease(r, true)]
        == g.leases[l := Lease(r, true)];
  }

  lemma HasWrapper(g: Graph, r: Id, b: Id)
    requires InvHeap(g, {}) && b in g.dbiBindings && g.dbiBindings[b].record == r && r in g.records
      && !g.dbiBindings[b].closed
    ensures g.records[r].wrappers != {} && g.records[r].batchRefs >= 0
  {
    hide TxnsOk, CursorsOk, ShapeOk, HandleMapOk, PendingTxnsOk, PendingSetsOk, OpenDbisOk, RecordsOk;
    CountsNonnegative(g, r);
    assert b in g.records[r].wrappers;
  }

  lemma WrapperKeepsAlive(g: Graph, w: Id)
    requires Inv(g) && w in g.wrappers
    ensures forall g': Graph :: g'.refCount == g.refCount ==> !Unused(g')
  {
    hide Inv;
    ReferencedIsLive(g);
  }

  // ----------------------------------------------------------------- leasing

  /** The records behind some wrappers. */
  function Named(g: Graph, owners: set<Id>): set<Id> {
    set b | b in owners && b in g.dbiBindings :: g.dbiBindings[b].record
  }

  /** Every one of these records has an open wrapper. */
  ghost predicate OpenRecords(g: Graph, rs: set<Id>) {
    forall r :: r in rs ==> r in g.records && g.records[r].wrappers != {}
  }

  /** Leases are held for exactly the records behind `targets`. */
  ghost predicate Leasing(o: Graph, g: Graph, targets: set<Id>, held: map<Id, Id>, next: Id) {
    Inv(g) && Holding(o, g, held, next) && held.Keys == Named(o, targets) && OpenRecords(o, held.Keys)
  }

  /** The inner `lease` function: one lease per record, a spare one is given back at once. */
  method LeaseOwner(e: SharedEnvironment, w: Id, owner: Id, targets: set<Id>, held: map<Id, Id>, next: Id,
                    ghost o: Graph)
    returns (targets': set<Id>, held': map<Id, Id>, next': Id)
    requires Leasing(o, e.graph, targets, held, next) && Inv(o) && w in o.wrappers && Leasable(o, owner)
    modifies e
    ensures targets' == targets + {owner} && Leasing(o, e.graph, targets', held', next')
  {
    hide Inv, InvHeap, Unused, ReleaseLease, OpenRecords, Named, LeaseTable, Raised, RetainRecord, MayReleaseLease;
    targets', held', next' := targets + {owner}, held, next;
    if owner in targets {
      assert targets' == targets;
      return;
    }
    ghost var g := e.graph;
    HoldingWrappers(o, g, held, next, owner);
    MidOf(g);
    MidOf(o);
    WrapperKeepsAlive(g, w);
    var r := e.graph.dbiBindings[owner].record;
    NamedOne(o, targets, owner, held.Keys);
    var candidate := next;
    next' := next + 1;
    var retained := RetainDbiForBatch(e, w, owner, candidate);
    if r in held {
      SpareLease(g, candidate, r, owner);
      ReleaseBatchDbiLease(e, candidate);
      SpareHolds(o, g, held, candidate, r);
      assert held.Keys == held.Keys + {r};
    } else {
      held' := held[r := candidate];
      OneMoreHolds(o, g, held, candidate, r);
      assert held'.Keys == held.Keys + {r};
    }
  }

  lemma NamedOne(g: Graph, owners: set<Id>, b: Id, rs: set<Id>)
    requires Leasable(g, b) && InvHeap(g, {}) && OpenRecords(g, rs)
    ensures Named(g, owners + {b}) == Named(g, owners) + {g.dbiBindings[b].record}
    ensures OpenRecords(g, rs + {g.dbiBindings[b].record})
  {
    hide InvHeap;
    var r := g.dbiBindings[b].record;
    HasWrapper(g, r, b);
    assert b in owners + {b};
    forall q ensures q in Named(g, owners + {b}) <==> q in Named(g, owners) + {r} {
      if q in Named(g, owners) {
        var c :| c in owners && c in g.dbiBindings && g.dbiBindings[c].record == q;
        assert c in owners + {b};
      }
    }
  }

  lemma TableGrows(before: map<Id, Lease>, leases: map<Id, Lease>, held: map<Id, Id>, l: Id, r: Id)
    requires LeaseTable(before, leases, held, l)
    ensures LeaseTable(before, leases[l := Lease(r, true)], held, l + 1)
    ensures r !in held ==> LeaseTable(before, leases[l := Lease(r, false)], held[r := l], l + 1)
  {}

  lemma SpareHolds(o: Graph, g: Graph, held: map<Id, Id>, l: Id, r: Id)
    requires Holding(o, g, held, l) && r in g.records
    ensures Holding(o, g.(leases := g.leases[l := Lease(r, true)]), held, l + 1)
  {
    hide LeaseTable, Raised;
    TableGrows(o.leases, g.leases, held, l, r);
  }

  lemma OneMoreHolds(o: Graph, g: Graph, held: map<Id, Id>, l: Id, r: Id)
    requires Holding(o, g, held, l) && r in g.records && r in o.records && r !in held
    ensures Holding(o, RetainRecord(g, l, r), held[r := l], l + 1)
  {
    hide LeaseTable, Raised;
    TableGrows(o.leases, g.leases, held, l, r);
    RaisedOne(o.records, held.Keys, r);
    assert held[r := l].Keys == held.Keys + {r};
  }

  // ----------------------------------------------------------------- release

  /** The lease table with some leases released. */
  function Spent(leases: map<Id, Lease>, ls: set<Id>): map<Id, Lease> {
    map l | l in leases :: if l in ls then leases[l].(released := true) else leases[l]
  }

  /** A batch that was just prepared on graph `o` and whose wrappers are all still open. */
  ghost predicate JustPrepared(o: Graph, g: Graph, held: map<Id, Id>, next: Id, w: Id) {
    Inv(o) && w in o.wrappers && Holding(o, g, held, next) && OpenRecords(o, held.Keys)
  }

  /**
   Each lease of a batch is on the record it is kept under, and its release closes nothing a
   transaction has modified.
   */
  ghost predicate MayReleaseBatch(g: Graph, leases: map<Id, Id>) {
    && (forall r :: r in leases ==> leases[r] in g.leases && g.leases[leases[r]].record == r && r in g.records)
    && (g.live ==> forall r :: r in leases ==> MayReleaseLease(g, leases[r]))
  }

  ghost predicate LeasesExist(g: Graph) {
    forall l :: l in g.leases ==> g.leases[l].record in g.records
  }

  lemma InvLeasesExist(g: Graph)
    requires Inv(g)
    ensures LeasesExist(g)
  {
    hide InvNative, InvLife;
    MidOf(g);
  }

  /** The release of one lease concerns no other record. */
  lemma RestMayRelease(o: Graph, g: Graph, leases: map<Id, Id>, r: Id)
    requires MayReleaseBatch(o, leases) && r in leases && g.leases == ReleaseLease(o, leases[r]).leases
    requires g.live ==> o.live && g == ReleaseLease(o, leases[r])
    requires g.poisoned == o.poisoned && LeasesExist(g)
    ensures MayReleaseBatch(g, leases - {r})
  {
    hide FinalizeRecord, MayRelease;
    ReleasedTable(o, leases[r]);
    if g.live {
      ReleasedFrame(o, leases[r]);
      forall q | q in leases - {r} ensures MayReleaseLease(g, leases[q]) {
        assert MayReleaseLease(o, leases[q]);
        SameMayRelease(o.native, g.native, g.records[q].(batchRefs := g.records[q].batchRefs - 1));
      }
    }
  }

  /** One iteration of the release, in step with LMDB or not. */
  lemma OneReleased(o: Graph, g: Graph, leases: map<Id, Id>, r: Id)
    requires MayReleaseBatch(o, leases) && r in leases && Progress(o, g) && LeasesExist(g) && g.poisoned == o.poisoned
    requires g.leases == ReleaseLease(o, leases[r]).leases
    requires !Unused(ReleaseLease(o, leases[r])) ==> g == ReleaseLease(o, leases[r])
    requires Unused(ReleaseLease(o, leases[r])) ==> !g.live
    requires Tracked(o) ==> (g.native.fault <==> !MayReleaseLease(o, leases[r]))
    ensures MayReleaseBatch(g, leases - {r}) && Legal(o, g)
  {
    hide Unused, ReleaseLease, MayReleaseLease, LeasesExist;
    if !Tracked(o) { UntrackedIsLegal(o, g); }
    RestMayRelease(o, g, leases, r);
  }

  lemma SameMayRelease(n: Lmdb, m: Lmdb, record: DbiRecord)
    requires m.written == n.written
    ensures MayRelease(m, record) == MayRelease(n, record)
  {}

  lemma ReleasedFrame(g: Graph, l: Id)
    requires l in g.leases && g.leases[l].record in g.records
    ensures var g' := ReleaseLease(g, l);
      && g'.native.written == g.native.written && g'.records.Keys == g.records.Keys
      && forall q :: q in g.records && q != g.leases[l].record ==> g'.records[q] == g.records[q]
  {
    hide FinalizeRecord;
    if !g.leases[l].released {
      var close := g.records[g.leases[l].record].committed && !g.poisoned;
      FinalizeRecordWritten(UnlinkLease(g, l), g.leases[l].record, close);
      FinalizeRecordFrame(UnlinkLease(g, l), g.leases[l].record, close);
    }
  }

  /** Right after its preparation every record of a batch has an open wrapper. */
  lemma JustPreparedMayRelease(o: Graph, g: Graph, held: map<Id, Id>, next: Id, w: Id)
    requires JustPrepared(o, g, held, next, w)
    ensures MayReleaseBatch(g, held) && forall r :: r in held ==> held[r] in g.leases
  {
    hide Inv;
    forall r | r in held ensures MayReleaseLease(g, held[r]) && r in g.records && g.leases[held[r]].record == r {
      HeldLease(o, g, held, next, r);
      OpenRecordOf(o, g, held.Keys, r, held, next);
    }
  }

  /**
   Releases each lease once, closing what nothing else refers to; a batch already
   released does nothing.  Right after its preparation this undoes it.
   */
  method ReleasePreparedBatch(e: SharedEnvironment, prepared: PreparedBatch, ghost o: Graph, ghost next: Id,
                              ghost w: Id)
    returns (after: PreparedBatch)
    requires Inv(e.graph) && forall r :: r in prepared.leases ==> prepared.leases[r] in e.graph.leases
    modifies e
    ensures Inv(e.graph) && after == prepared.(released := true)
    ensures e.graph.leases == Spent(old(e.graph).leases, if prepared.released then {} else prepared.leases.Values)
    ensures prepared.released ==> e.graph == old(e.graph)
    ensures !prepared.released && JustPrepared(o, old(e.graph), prepared.leases, next, w) ==>
      Holding(o, e.graph, map[], next)
    ensures MayReleaseBatch(old(e.graph), prepared.leases) ==> Legal(old(e.graph), e.graph)
  {
    hide Inv, InvHeap, Unused, ReleaseLease, OpenRecords, Spent, Holding, MayReleaseLease, LeasesExist, Tracked,
         Progress, MayReleaseBatch;
    ghost var clear := MayReleaseBatch(e.graph, prepared.leases);
    after := prepared.(released := true);
    ghost var spare := JustPrepared(o, e.graph, prepared.leases, next, w);
    ghost var before, spent: set<Id> := e.graph.leases, {};
    SpentNone(before);
    if prepared.released {
      return;
    }
    var todo := prepared.leases;
    while todo != map[]
      invariant Inv(e.graph) && todo.Keys <= prepared.leases.Keys
      invariant clear ==> MayReleaseBatch(e.graph, todo) && Legal(old(e.graph), e.graph)
      invariant forall r :: r in todo ==> todo[r] == prepared.leases[r]
      invariant spent == set r | r in prepared.leases && r !in todo :: prepared.leases[r]
      invariant e.graph.leases == Spent(before, spent)
      invariant spare ==> Holding(o, e.graph, todo, next)
      decreases |todo|
    {
      var r :| r in todo;
      ghost var g := e.graph;
      EntityOf(g, before, spent, todo[r]);
      ReleasedOnce(g, before, spent, todo[r]);
      if spare {
        HeldLease(o, g, todo, next, r);
        MidOf(g);
        WrapperKeepsAlive(g, w);
        OpenRecordOf(o, g, prepared.leases.Keys, r, todo, next);
        ReleaseHolds(o, g, todo, next, r);
      }
      ReleaseBatchDbiLease(e, todo[r]);
      if clear {
        InvLeasesExist(e.graph);
        OneReleased(g, e.graph, todo, r);
      }
      Shrinks(todo, r);
      SpentOneMore(prepared.leases, todo, r);
      spent := spent + {todo[r]};
      todo := todo - {r};
    }
    assert spent == set r | r in prepared.leases :: prepared.leases[r];
    AllSpent(prepared.leases, spent);
  }

  lemma SpentNone(leases: map<Id, Lease>)
    ensures Spent(leases, {}) == leases
  {}

  lemma EntityOf(g: Graph, before: map<Id, Lease>, spent: set<Id>, l: Id)
    requires Inv(g) && g.leases == Spent(before, spent) && l in before
    ensures l in g.leases && g.leases[l].record in g.records
  {
    hide TxnsOk, CursorsOk, DbisOk, CursorCountsOk, LeaseCountsOk, HandleMapOk, RecordsOk, InvNative, InvLife;
    MidOf(g);
  }

  lemma ReleasedTable(g: Graph, l: Id)
    requires l in g.leases && g.leases[l].record in g.records
    ensures ReleaseLease(g, l).leases == g.leases[l := g.leases[l].(released := true)]
  {
    hide FinalizeRecord;
    if g.leases[l].released {
      assert g.leases[l].(released := true) == g.leases[l];
    } else {
      FinalizeRecordFrame(UnlinkLease(g, l), g.leases[l].record, g.records[g.leases[l].record].committed
                          && !g.poisoned);
    }
  }

  lemma ReleasedOnce(g: Graph, before: map<Id, Lease>, spent: set<Id>, l: Id)
    requires g.leases == Spent(before, spent) && l in before && l in g.leases && g.leases[l].record in g.records
    ensures ReleaseLease(g, l).leases == Spent(before, spent + {l})
  {
    hide ReleaseLease;
    ReleasedTable(g, l);
    assert Spent(before, spent)[l := Spent(before, spent)[l].(released := true)] == Spent(before, spent + {l});
  }

  lemma SpentOneMore(leases: map<Id, Id>, todo: map<Id, Id>, r: Id)
    requires r in todo && todo.Keys <= leases.Keys && todo[r] == leases[r]
    ensures (set q | q in leases && q !in todo - {r} :: leases[q])
      == (set q | q in leases && q !in todo :: leases[q]) + {todo[r]}
  {
    var all, fewer := set q | q in leases && q !in todo - {r} :: leases[q], set q | q in leases
        && q !in todo :: leases[q];
    assert r in leases && r !in todo - {r};
    forall l ensures l in all <==> l in fewer + {todo[r]} {}
  }

  lemma AllSpent(leases: map<Id, Id>, spent: set<Id>)
    requires spent == set r | r in leases :: leases[r]
    ensures spent == leases.Values
  {
    forall l ensures l in spent <==> l in leases.Values {}
  }

  lemma Shrinks(m: map<Id, Id>, r: Id)
    requires r in m
    ensures |m - {r}| < |m| && (m - {r}).Keys <= m.Keys
  {
    assert (m - {r}).Keys == m.Keys - {r};
    assert |(m - {r}).Keys| < |m.Keys|;
  }

  lemma OpenRecordOf(o: Graph, g: Graph, rs: set<Id>, r: Id, held: map<Id, Id>, next: Id)
    requires OpenRecords(o, rs) && r in rs && Holding(o, g, held, next)
    ensures r in g.records && g.records[r].wrappers != {}
  {}

  lemma HeldLease(o: Graph, g: Graph, held: map<Id, Id>, next: Id, r: Id)
    requires Holding(o, g, held, next) && r in held
    ensures held[r] in g.leases && g.leases[held[r]] == Lease(r, false) && r in g.records && g.wrappers == o.wrappers
  {}

  lemma TableShrinks(before: map<Id, Lease>, leases: map<Id, Lease>, held: map<Id, Id>, next: Id, r: Id)
    requires LeaseTable(before, leases, held, next) && r in held
    ensures LeaseTable(before, leases[held[r] := Lease(r, true)], held - {r}, next)
  {}

  /** The count that was raised is lowered. */
  lemma LoweredOne(records: DbiRecords, rs: set<Id>, r: Id)
    requires r in records && r in rs
    ensures r in Raised(records, rs)
    ensures var up := Raised(records, rs);
      up[r := up[r].(batchRefs := up[r].batchRefs - 1)] == Raised(records, rs - {r})
  {
    var up := Raised(records, rs);
    assert up[r].(batchRefs := up[r].batchRefs - 1) == records[r];
  }

  lemma ReleaseHolds(o: Graph, g: Graph, held: map<Id, Id>, next: Id, r: Id)
    requires Holding(o, g, held, next) && r in held && InvHeap(g, {}) && r in g.records && g.records[r].wrappers != {}
    requires held[r] in g.leases && g.leases[held[r]] == Lease(r, false)
    ensures Holding(o, ReleaseLease(g, held[r]), held - {r}, next)
    ensures ReleaseLease(g, held[r]).refCount == g.refCount
  {
    hide TxnsOk, CursorsOk, DbisOk, CursorCountsOk, ShapeOk, HandleMapOk, RecordsOk, RecordsExist, LeaseTable, Raised,
         LeaseCountsOk;
    var l := held[r];
    ReleaseCounts(g, l);
    TableShrinks(o.leases, g.leases, held, next, r);
    LoweredOne(o.records, held.Keys, r);
    assert (held - {r}).Keys == held.Keys - {r};
    StaysMapped(g, l, r);
  }

  /** A record with an open wrapper survives the release of a lease. */
  lemma StaysMapped(g: Graph, l: Id, r: Id)
    requires l in g.leases && g.leases[l] == Lease(r, false) && r in g.records
    requires g.records[r].wrappers != {} && g.records[r].batchRefs > 0
    ensures ReleaseLease(g, l) == g.(leases := g.leases[l := Lease(r, true)],
                                     records := g.records[r := g.records[r].(batchRefs := g.records[r].batchRefs - 1)])
  {}

  // ----------------------------------------------------------------- prepare

  /** Every wrapper is validated before any lease is taken. */
  method ValidateOwners(e: SharedEnvironment, w: Id, owners: set<Id>) returns (ok: bool)
    ensures ok <==> forall b :: b in owners ==> w in e.graph.wrappers && Leasable(e.graph, b)
  {
    var todo := owners;
    while todo != {}
      invariant todo <= owners && forall b :: b in owners - todo ==> w in e.graph.wrappers && Leasable(e.graph, b)
      decreases todo
    {
      var b :| b in todo;
      if w !in e.graph.wrappers || !Leasable(e.graph, b) {
        return false;
      }
      todo := todo - {b};
    }
    assert owners - todo == owners;
    return true;
  }

  lemma InputOwners(inputs: seq<BatchInput>, x: BatchInput)
    requires x in inputs
    ensures x.db in Owners(inputs) && (x.conditionDb.Some? ==> x.conditionDb.value in Owners(inputs))
  {}

  /** Normalises the operations in order, leasing what each one names; stops where one throws. */
  method LeaseAll(e: SharedEnvironment, w: Id, inputs: seq<BatchInput>, keyThrows: bool, first: Id, ghost o: Graph)
    returns (ok: bool, held: map<Id, Id>, ops: seq<Operation>, ghost targets: set<Id>, next: Id)
    requires Inv(e.graph) && o == e.graph && forall l :: l in o.leases ==> l < first
    requires forall b :: b in Owners(inputs) ==> w in o.wrappers && Leasable(o, b)
    modifies e
    ensures Leasing(o, e.graph, targets, held, next) && ok == !Throws(inputs, keyThrows)
    ensures ok ==> targets == Owners(inputs) && ops == Normalised(o, inputs)
  {
    hide Inv, Leasing, Leasable, Owners, NormalOperation;
    var leased: set<Id> := {};
    held, ops, targets, next := map[], [], {}, first;
    LeasingNothing(o, first);
    OwnersNone();
    if inputs != [] {
      InputOwners(inputs, inputs[0]);
      leased, held, next := LeaseOwner(e, w, inputs[0].db, leased, held, next, o);
      if keyThrows {
        return false, held, ops, leased, next;
      }
    }
    for i := 0 to |inputs|
      invariant (inputs == [] || !keyThrows) && (i == 0 ==> Owners(inputs[..i]) == {})
      invariant Leasing(o, e.graph, leased, held, next) && ops == Normalised(o, inputs[..i])
      invariant leased == Owners(inputs[..i]) + if inputs == [] then {} else {inputs[0].db}
      invariant forall j :: 0 <= j < i ==>
        !inputs[j].partThrows && !(inputs[j].conditionDb.Some? && inputs[j].conditionThrows)
    {
      var x := inputs[i];
      InputOwners(inputs, x);
      OwnersSnoc(inputs[..i], x);
      assert inputs[..i] + [x] == inputs[..i + 1];
      leased, held, next := LeaseOwner(e, w, x.db, leased, held, next, o);
      if x.partThrows {
        return false, held, ops, leased, next;
      }
      if x.conditionDb.Some? {
        leased, held, next := LeaseOwner(e, w, x.conditionDb.value, leased, held, next, o);
        if x.conditionThrows {
          return false, held, ops, leased, next;
        }
      }
      SameTargets(o, e.graph, leased, held, next, x);
      ops := ops + [NormalOperation(e.graph, x)];
    }
    assert inputs[..|inputs|] == inputs;
    return true, held, ops, leased, next;
  }

  /** Taking leases changes no wrapper's handle. */
  lemma SameTargets(o: Graph, g: Graph, targets: set<Id>, held: map<Id, Id>, next: Id, x: BatchInput)
    requires Leasing(o, g, targets, held, next)
    ensures NormalOperation(g, x) == NormalOperation(o, x)
  {
    hide Inv;
    forall b ensures TargetOf(g, b) == TargetOf(o, b) {}
  }

  lemma OwnersNone()
    ensures Owners([]) == {}
  {}

  lemma OwnersSnoc(inputs: seq<BatchInput>, x: BatchInput)
    ensures Owners(inputs + [x])
         == Owners(inputs) + {x.db} + (if x.conditionDb.Some? then {x.conditionDb.value} else {})
  {
    assert forall y :: y in inputs + [x] <==> y in inputs || y == x;
    var all, sum := Owners(inputs + [x]), Owners(inputs) + {x.db}
        + (if x.conditionDb.Some? then {x.conditionDb.value} else {});
    assert x in inputs + [x];
    forall b | b in sum ensures b in all {
      if y :| y in inputs && (y.db == b || (y.conditionDb == Some(b))) { assert y in inputs + [x]; }
    }
  }

  lemma LeasingNothing(g: Graph, next: Id)
    requires Inv(g) && forall l :: l in g.leases ==> l < next
    ensures Leasing(g, g, {}, map[], next)
  {
    hide Inv;
    HoldingNothing(g, next);
  }

  /**
   A prepared batch holds one lease on each record its wrappers belong to; one
   that throws leaves every count, and everything else but spent leases, as it was.
   */
  method PrepareBatchSnapshot(e: SharedEnvironment, w: Id, inputs: seq<BatchInput>, keyThrows: bool, first: Id)
    returns (r: Option<PreparedBatch>, ghost next: Id)
    requires Inv(e.graph) && forall l :: l in e.graph.leases ==> l < first
    modifies e
    ensures Inv(e.graph)
    ensures r.Some? <==> BatchValid(old(e.graph), w, inputs, keyThrows)
    ensures r.Some? ==>
      && r.value.leases.Keys == Named(old(e.graph), Owners(inputs)) && !r.value.released
      && Holding(old(e.graph), e.graph, r.value.leases, next) && OpenRecords(old(e.graph), r.value.leases.Keys)
      && e.graph.records == Raised(old(e.graph).records, Named(old(e.graph), Owners(inputs)))
      && r.value.operations == Normalised(old(e.graph), inputs)
    ensures r.Some? ==>
      && (forall x :: x in inputs ==>
            && x.db in old(e.graph).dbiBindings && old(e.graph).dbiBindings[x.db].record in old(e.graph).records
            && (x.conditionDb.Some? ==>
                  && x.conditionDb.value in old(e.graph).dbiBindings
                  && old(e.graph).dbiBindings[x.conditionDb.value].record in old(e.graph).records))
      && |r.value.operations| == |inputs|
      && forall i :: 0 <= i < |inputs| ==>
           var g, x, op := old(e.graph), inputs[i], r.value.operations[i];
           && op.dbi == g.records[g.dbiBindings[x.db].record].handle && op.key == x.key && op.value == x.value
           && (op.condition.Some? <==> x.conditionDb.Some?)
           && (x.conditionDb.Some? ==>
                 && op.condition.value.dbi == g.records[g.dbiBindings[x.conditionDb.value].record].handle
                 && op.condition.value.key == (match x.ifKey case Some(k) => k case None => x.key)
                 && op.condition.value.value == x.ifValue && op.condition.value.exact == x.exact)
    ensures r.None? ==> e.graph == old(e.graph).(leases := e.graph.leases)
    ensures r.None? ==> forall l :: l in e.graph.leases && l !in old(e.graph).leases ==> e.graph.leases[l].released
  {
    hide Inv, Leasable, Owners, Named, OpenRecords, LeaseTable, Raised, Throws, NormalOperation;
    ghost var o := e.graph;
    next := first;
    var valid := ValidateOwners(e, w, Owners(inputs));
    if !valid {
      assert o.(leases := o.leases) == o;
      return None, first;
    }
    var ok, held, operations, targets, free := LeaseAll(e, w, inputs, keyThrows, first, o);
    next := free;
    if ok {
      ValidInputs(o, w, inputs);
      NormalisedMeaning(o, inputs);
      return Some(PreparedBatch(held, false, operations)), next;
    }
    if inputs != [] {
      WrapperOpen(o, w, inputs);
      assert JustPrepared(o, e.graph, held, next, w);
      JustPreparedMayRelease(o, e.graph, held, next, w);
      var _ := ReleasePreparedBatch(e, PreparedBatch(held, false, []), o, next, w);
    }
    HoldingNone(o, e.graph, held, next, inputs, keyThrows);
    return None, next;
  }

  /** The wrappers of a valid batch have records. */
  lemma ValidInputs(g: Graph, w: Id, inputs: seq<BatchInput>)
    requires forall b :: b in Owners(inputs) ==> w in g.wrappers && Leasable(g, b)
    ensures forall x :: x in inputs ==>
      (x.db in g.dbiBindings && g.dbiBindings[x.db].record in g.records)
      && (x.conditionDb.Some? ==>
            x.conditionDb.value in g.dbiBindings && g.dbiBindings[x.conditionDb.value].record in g.records)
  {
    hide Owners;
    forall x | x in inputs
      ensures Leasable(g, x.db) && (x.conditionDb.Some? ==> Leasable(g, x.conditionDb.value))
    {
      InputOwners(inputs, x);
    }
  }

  lemma WrapperOpen(o: Graph, w: Id, inputs: seq<BatchInput>)
    requires inputs != [] && forall b :: b in Owners(inputs) ==> w in o.wrappers && Leasable(o, b)
    ensures w in o.wrappers
  {
    assert inputs[0] in inputs && inputs[0].db in Owners(inputs);
  }

  /** Holding nothing is having changed nothing. */
  lemma HoldingNone(o: Graph, g: Graph, held: map<Id, Id>, next: Id, inputs: seq<BatchInput>, keyThrows: bool)
    requires Throws(inputs, keyThrows) && (inputs != [] ==> Holding(o, g, map[], next))
    ensures g == o.(leases := g.leases)
    ensures forall l :: l in g.leases && l !in o.leases ==> g.leases[l].released
  {
    assert Raised(o.records, {}) == o.records;
    var none: map<Id, Id> := map[];
    assert none.Keys == {};
  }
}
