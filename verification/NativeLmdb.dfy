/**
 The native side of the ownership layer: which environment, transaction, cursor
 and database handles LMDB considers open, and which calls its header forbids.
 Every call is total; a call the header forbids sets `fault`, which nothing
 ever clears.  The identity of a native transaction or cursor is the identity
 of the JavaScript binding that holds it.
 */
module NativeLmdb {

  type Id = nat

  /** A database handle is private to its opening transaction until that commits. */
  datatype Slot = Shared | Private(txn: Id)

  datatype NativeCursor = NativeCursor(txn: Id, slot: nat)

  datatype Lmdb = Lmdb(
    envOpen: bool,
    txns: map<Id, bool>,            // open transactions; true for read-only
    cursors: map<Id, NativeCursor>, // open cursors
    slots: map<nat, Slot>,          // open database handles
    openers: set<Id>,               // open transactions that have opened a database
    written: set<(Id, nat)>,        // open transactions and the handles whose databases they modified
    inFlight: set<Id>,              // nonblocking sync and copy calls
    fault: bool,
    leftOpen: set<nat>)             // handles still open when the environment was closed

  function Fault(n: Lmdb): Lmdb { n.(fault := true) }

  predicate WriterOpen(n: Lmdb) {
    exists t :: t in n.txns && !n.txns[t]
  }

  predicate CursorOnSlot(n: Lmdb, h: nat) {
    exists c :: c in n.cursors && n.cursors[c].slot == h
  }

  /** Some open transaction has modified the database behind `h`. */
  predicate Modified(n: Lmdb, h: nat) {
    exists p :: p in n.written && p.1 == h
  }

  predicate ModifiedByOther(n: Lmdb, t: Id, h: nat) {
    exists p :: p in n.written && p.0 != t && p.1 == h
  }

  /** A slot a transaction may use: shared, or private to that transaction. */
  predicate Usable(n: Lmdb, t: Id, h: nat) {
    h in n.slots && (n.slots[h] == Shared || n.slots[h] == Private(t))
  }

  function TxnBegin(n: Lmdb, t: Id, readOnly: bool): Lmdb {
    if !n.envOpen || t in n.txns || (!readOnly && WriterOpen(n)) then Fault(n)
    else n.(txns := n.txns[t := readOnly])
  }

  /** Commit publishes private handles, abort closes them; only writers free cursors. */
  function TxnEnd(n: Lmdb, t: Id, commit: bool): Lmdb {
    if t !in n.txns then Fault(n)
    else
      n.(txns := n.txns - {t},
         openers := n.openers - {t},
         written := (set p | p in n.written && p.0 != t),
         cursors := if n.txns[t] then n.cursors
                    else map c | c in n.cursors && n.cursors[c].txn != t :: n.cursors[c],
         slots := map h | h in n.slots && (commit || n.slots[h] != Private(t)) ::
                    if n.slots[h] == Private(t) then Shared else n.slots[h])
  }

  /** Reset aborts a reader like `TxnEnd` but keeps the handle. */
  function TxnReset(n: Lmdb, t: Id): Lmdb {
    if t !in n.txns || !n.txns[t] then Fault(n)
    else n.(slots := map h | h in n.slots && n.slots[h] != Private(t) :: n.slots[h])
  }

  /**
   `h` is the handle LMDB returned: an open one, or a free slot now private to `t`.
   A transaction that opened a database must end before another one may.
   */
  function DbiOpen(n: Lmdb, t: Id, h: nat): Lmdb {
    if t !in n.txns || !(n.openers <= {t}) || (h in n.slots && !Usable(n, t, h)) then Fault(n)
    else if h in n.slots then n.(openers := {t})
    else n.(openers := {t}, slots := n.slots[h := Private(t)])
  }

  /** A put or delete, through the transaction or a cursor of it. */
  function Write(n: Lmdb, t: Id, h: nat): Lmdb {
    if t !in n.txns || n.txns[t] || !Usable(n, t, h) then Fault(n)
    else n.(written := n.written + {(t, h)})
  }

  /**
   A handle may be closed once, only when no cursor refers to it, and not while an
   existing transaction has modified its database.
   */
  function DbiClose(n: Lmdb, h: nat): Lmdb {
    if !n.envOpen || h !in n.slots || n.slots[h] != Shared || CursorOnSlot(n, h) || Modified(n, h) then Fault(n)
    else n.(slots := n.slots - {h})
  }

  function Dropped(n: Lmdb, h: nat): Lmdb {
    n.(slots := n.slots - {h}, written := (set p | p in n.written && p.1 != h))
  }

  /**
   With `del` the database is deleted and its handle closed on the spot, under the
   restrictions of `DbiClose` except that `t` itself may have modified it.
   Without, it is emptied, which modifies it.
   */
  function Drop(n: Lmdb, t: Id, h: nat, del: bool): Lmdb {
    if t !in n.txns || n.txns[t] || !Usable(n, t, h) then Fault(n)
    else if !del then n.(written := n.written + {(t, h)})
    else if CursorOnSlot(n, h) || ModifiedByOther(n, t, h) then Fault(n)
    else Dropped(n, h)
  }

  function CursorOpen(n: Lmdb, c: Id, t: Id, h: nat): Lmdb {
    if t !in n.txns || c in n.cursors || !Usable(n, t, h) then Fault(n)
    else n.(cursors := n.cursors[c := NativeCursor(t, h)])
  }

  /** LMDB 1.0 may dereference the cursor's transaction, so that must still be open. */
  function CursorClose(n: Lmdb, c: Id): Lmdb {
    if c !in n.cursors || n.cursors[c].txn !in n.txns then Fault(n)
    else n.(cursors := n.cursors - {c})
  }

  /** No call clears the fault. */
  lemma FaultSticks(n: Lmdb)
    requires n.fault
    ensures forall t, readOnly :: TxnBegin(n, t, readOnly).fault
    ensures forall t, commit :: TxnEnd(n, t, commit).fault
    ensures forall t :: TxnReset(n, t).fault
    ensures forall t, h :: DbiOpen(n, t, h).fault && Write(n, t, h).fault
    ensures forall t, h, del :: Drop(n, t, h, del).fault
    ensures forall h :: DbiClose(n, h).fault
    ensures forall c, t, h :: CursorOpen(n, c, t, h).fault
    ensures forall c :: CursorClose(n, c).fault
    ensures EnvClose(n).fault
  {}

  /**
   The environment is closed once, with no transaction or cursor open and no call
   in flight.  The header also wants the databases closed; the handles that are
   not are recorded, and go with the environment.
   */
  function EnvClose(n: Lmdb): Lmdb {
    if !n.envOpen || n.txns != map[] || n.cursors != map[] || n.inFlight != {} then Fault(n)
    else n.(envOpen := false, slots := map[], leftOpen := n.slots.Keys)
  }
}
