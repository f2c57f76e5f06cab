/**
 The current-record cache of cursors.  A cached value is a view of LMDB memory,
 good only in the transaction and write epoch it was taken in; the cache must
 never be read outside them, and never differ from the native cursor.
 */
module CursorCache {
  import opened Common

  type Id = nat
  type Bytes = seq<bv8>

  /** A borrowed view of LMDB memory, tagged with where it was taken. */
  datatype View = View(txn: Id, epoch: nat, bytes: Bytes, detached: bool)

  datatype CurrentRecord = CurrentRecord(key: Option<Bytes>, data: Option<View>, fallbackAllowed: bool)

  datatype Phase = Active | Detached | Closed

  /** `native` is what an uncached MDB_GET_CURRENT would return; none when it has nothing to return. */
  datatype Cursor = Cursor(txn: Id, dbi: Id, record: Id, phase: Phase, current: CurrentRecord,
                           native: Option<(Bytes, Bytes)>)

  /** A transaction's epoch counts the native updates made in it and its renewals. */
  datatype Transaction = Transaction(active: bool, readOnly: bool, epoch: nat)

  datatype Failure = CursorClosed | TransactionEnded | DatabaseClosed | NativeError

  /** What LMDB answers to a read; afterwards the cursor is at `position`. */
  datatype Answer = Found(key: Bytes, data: Bytes) | NotFound(position: Option<(Bytes, Bytes)>)
                  | Failed(position: Option<(Bytes, Bytes)>)

  type Positions = map<Id, Option<(Bytes, Bytes)>>

  function Cleared(c: Cursor, fallbackAllowed: bool): Cursor {
    c.(current := CurrentRecord(None, None, fallbackAllowed))
  }

  predicate Cached(c: Cursor) { c.current.key.Some? && c.current.data.Some? && !c.current.data.value.detached }

  /** The view may still be read: same transaction, no update since. */
  predicate Readable(txns: map<Id, Transaction>, view: View) {
    view.txn in txns && txns[view.txn].active && view.epoch == txns[view.txn].epoch
  }

  /** A cursor's cache, if it holds anything, is current. */
  predicate SoundCursor(c: Cursor, txns: map<Id, Transaction>, closedDbis: set<Id>) {
    && (c.phase == Active ==> c.txn in txns && txns[c.txn].active)
    && (c.current.key.Some? <==> c.current.data.Some?)
    && (c.current.data.Some? ==>
          && c.phase == Active && c.dbi !in closedDbis
          && c.current.data.value.txn == c.txn && Readable(txns, c.current.data.value)
          && c.native == Some((c.current.key.value, c.current.data.value.bytes)))
  }

  /** The cursors once those of an ending transaction are cut off from it. */
  function Ended(cursors: map<Id, Cursor>, cs: set<Id>, phase: Phase): map<Id, Cursor> {
    map c | c in cursors :: if c in cs then Cleared(cursors[c], false).(phase := phase) else cursors[c]
  }

  predicate SameWrapper(a: Cursor, b: Cursor) {
    a.txn == b.txn && a.dbi == b.dbi && a.record == b.record && a.phase == b.phase
  }

  predicate SameButCurrent(a: Cursor, b: Cursor) { a == b.(current := a.current) }

  class CursorCaches {
    var txns: map<Id, Transaction>
    var cursors: map<Id, Cursor>
    var closedDbis: set<Id>

    ghost predicate Sound()
      reads this
    {
      forall c :: c in cursors ==> SoundCursor(cursors[c], txns, closedDbis)
    }

    /** No active cursor of transaction `t` holds a cached record. */
    ghost predicate NothingCached(t: Id)
      reads this
    {
      forall c :: c in cursors && cursors[c].txn == t && cursors[c].phase == Active ==> cursors[c].current.data.None?
    }

    constructor ()
      ensures Sound() && txns == map[] && cursors == map[] && closedDbis == {}
    {
      txns, cursors, closedDbis := map[], map[], {};
    }

    // ---------------------------------------------------------- invalidation

    function CursorsOf(t: Id): (cs: set<Id>)
      reads this
      ensures forall c :: c in cs <==> c in cursors && cursors[c].txn == t && cursors[c].phase == Active
    {
      set c | c in cursors && cursors[c].txn == t && cursors[c].phase == Active
    }

    /** Clears the caches of `cs`, one cursor at a time. */
    method Invalidate(cs: set<Id>, fallbackAllowed: bool)
      requires cs <= cursors.Keys
      modifies this`cursors
      ensures cursors == map c | c in old(cursors) ::
        if c in cs then Cleared(old(cursors)[c], fallbackAllowed) else old(cursors)[c]
      ensures old(Sound()) ==> Sound()
    {
      var todo := cs;
      while todo != {}
        invariant todo <= cs && cursors.Keys == old(cursors).Keys
        invariant forall c :: c in cursors ==>
          cursors[c] == if c in cs - todo then Cleared(old(cursors)[c], fallbackAllowed) else old(cursors)[c]
        decreases todo
      {
        var c :| c in todo;
        cursors := cursors[c := Cleared(cursors[c], fallbackAllowed)];
        todo := todo - {c};
      }
    }

    /** `invalidateTransactionCursorCachesForWrite`. */
    method InvalidateForWrite(t: Id)
      modifies this`cursors
      ensures cursors == map c | c in old(cursors) ::
        if c in old(CursorsOf(t)) then Cleared(old(cursors)[c], true) else old(cursors)[c]
      ensures NothingCached(t) && (old(Sound()) ==> Sound())
    {
      Invalidate(CursorsOf(t), true);
    }

    // ------------------------------------------------------------ native side

    /**
     A native update in `t`: every view taken in it goes stale and LMDB may move
     its cursors anywhere.  It is entered only once nothing is cached.
     */
    method NativeUpdate(t: Id, positions: Positions)
      requires t in txns && txns[t].active && NothingCached(t)
      modifies this`txns, this`cursors
      ensures txns == old(txns)[t := old(txns)[t].(epoch := old(txns)[t].epoch + 1)]
      ensures cursors == map c | c in old(cursors) ::
        if c in old(CursorsOf(t)) && c in positions then old(cursors)[c].(native := positions[c]) else old(cursors)[c]
      ensures old(Sound()) ==> Sound() && NothingCached(t)
    {
      ghost var before := CursorsOf(t);
      txns := txns[t := txns[t].(epoch := txns[t].epoch + 1)];
      cursors := map c | c in cursors ::
        if cursors[c].txn == t && cursors[c].phase == Active && c in positions
        then cursors[c].(native := positions[c]) else cursors[c];
    }

    /** Bytes are read out of LMDB memory only while they are valid there. */
    function ReadView(view: View): Bytes
      requires Readable(txns, view) && !view.detached
      reads this
    {
      view.bytes
    }

    // ----------------------------------------------------------------- cursors

    /** The checks of `getCursorHandle`. */
    function Refusal(c: Id): (r: Option<Failure>)
      requires c in cursors
      reads this
      ensures r == None <==> cursors[c].phase.Active? && cursors[c].dbi !in closedDbis
      ensures r == Some(DatabaseClosed) <==> cursors[c].phase.Active? && cursors[c].dbi in closedDbis
      ensures r == Some(TransactionEnded) <==> cursors[c].phase.Detached?
      ensures r == Some(CursorClosed) <==> cursors[c].phase.Closed?
    {
      if cursors[c].phase == Closed then Some(CursorClosed)
      else if cursors[c].phase == Detached then Some(TransactionEnded)
      else if cursors[c].dbi in closedDbis then Some(DatabaseClosed)
      else None
    }

    method OpenCursor(c: Id, t: Id, dbi: Id, record: Id, position: Option<(Bytes, Bytes)>)
      requires Sound() && c !in cursors && t in txns && txns[t].active && dbi !in closedDbis
      modifies this`cursors
      ensures Sound()
        && cursors == old(cursors)[c := Cursor(t, dbi, record, Active, CurrentRecord(None, None, true), position)]
    {
      cursors := cursors[c := Cursor(t, dbi, record, Active, CurrentRecord(None, None, true), position)];
    }

    /** `#navigate`: what is found is cached, anything else empties the cache for good. */
    method Navigate(c: Id, answer: Answer) returns (r: Result<Option<Bytes>, Failure>)
      requires Sound() && c in cursors
      modifies this`cursors
      ensures Sound()
      ensures old(Refusal(c)).Some? ==> r == Err(old(Refusal(c)).value) && cursors == old(cursors)
      ensures old(Refusal(c)).None? ==>
        r == match answer case Found(key, _) => Ok(Some(key)) case NotFound(_) => Ok(None)
            case Failed(_) => Err(NativeError)
      ensures old(Refusal(c)).None? ==> cursors.Keys == old(cursors).Keys && SameWrapper(cursors[c], old(cursors)[c])
      ensures old(cursors[c].phase == Active && cursors[c].dbi !in closedDbis) && answer.Found? ==>
        && r == Ok(Some(answer.key))
        && Cached(cursors[c]) && cursors[c].native == Some((answer.key, answer.data))
        && cursors[c].current.fallbackAllowed
      ensures old(Refusal(c)).None? && !answer.Found? ==>
        cursors[c].current == CurrentRecord(None, None, false) && cursors[c].native == answer.position
      ensures forall d :: d in cursors && d != c ==> cursors[d] == old(cursors)[d]
    {
      var refusal := Refusal(c);
      if refusal.Some? {
        return Err(refusal.value);
      }
      var cursor := cursors[c];
      match answer {
        case Found(key, data) =>
          var view := View(cursor.txn, txns[cursor.txn].epoch, data, false);
          cursors :=
              cursors[c := cursor.(current := CurrentRecord(Some(key), Some(view), true), native := Some((key, data)))];
          return Ok(Some(key));
        case NotFound(position) =>
          cursors := cursors[c := Cleared(cursor.(native := position), false)];
          return Ok(None);
        case Failed(position) =>
          cursors := cursors[c := Cleared(cursor.(native := position), false)];
          return Err(NativeError);
      }
    }

    /**
     `#getCurrent`.  What it returns is what an uncached read would return at this
     moment, and a cached view is only ever read while LMDB vouches for it.
     */
    method GetCurrent(c: Id, nativeFails: bool) returns (r: Result<Option<(Bytes, Bytes)>, Failure>)
      requires Sound() && c in cursors
      modifies this`cursors
      ensures Sound()
      ensures r.Ok? && r.value.Some? ==> old(Refusal(c)) == None && r.value == old(cursors)[c].native
      ensures old(Refusal(c)).Some? ==> r == Err(old(Refusal(c)).value) && cursors == old(cursors)
      ensures old(Refusal(c)).None? ==>
        r == if Cached(old(cursors)[c]) then Ok(old(cursors)[c].native)
             else if !old(cursors)[c].current.fallbackAllowed then Ok(None)
             else if nativeFails then Err(NativeError) else Ok(old(cursors)[c].native)
      ensures cursors.Keys == old(cursors).Keys && cursors[c].native == old(cursors)[c].native
      ensures r.Ok? && r.value.Some? ==> Cached(cursors[c]) && SameButCurrent(cursors[c], old(cursors)[c])
      ensures r.Err? || r.value.None? || Cached(old(cursors)[c]) ==> cursors == old(cursors)
      ensures old(cursors[c].phase == Active && cursors[c].dbi !in closedDbis && Cached(cursors[c])) ==>
        r.Ok? && r.value.Some?
      ensures forall d :: d in cursors && d != c ==> cursors[d] == old(cursors)[d]
    {
      var refusal := Refusal(c);
      if refusal.Some? {
        return Err(refusal.value);
      }
      var cursor := cursors[c];
      if cursor.current.key.None? || cursor.current.data.None? || cursor.current.data.value.detached {
        if !cursor.current.fallbackAllowed {
          return Ok(None);
        }
        if nativeFails {
          return Err(NativeError);
        }
        if cursor.native.None? {
          return Ok(None);
        }
        var (key, data) := cursor.native.value;
        var view := View(cursor.txn, txns[cursor.txn].epoch, data, false);
        cursors := cursors[c := cursor.(current := CurrentRecord(Some(key), Some(view), true))];
        return Ok(Some((key, ReadView(view))));
      }
      return Ok(Some((cursor.current.key.value, ReadView(cursor.current.data.value))));
    }

    /** The user detaches the buffer behind a cached view. */
    method DetachBuffer(c: Id)
      requires Sound() && c in cursors
      modifies this`cursors
      ensures Sound() && cursors.Keys == old(cursors).Keys && !Cached(cursors[c])
      ensures cursors[c].native == old(cursors)[c].native
      ensures forall d :: d in cursors && d != c ==> cursors[d] == old(cursors)[d]
    {
      if cursors[c].current.data.Some? {
        var view := cursors[c].current.data.value.(detached := true);
        cursors := cursors[c := cursors[c].(current := cursors[c].current.(data := Some(view)))];
      }
    }

    /** `Cursor.del`: the siblings may read again, this cursor has no current record. */
    method Delete(c: Id, positions: Positions, nativeFails: bool) returns (r: Result<(), Failure>)
      requires Sound() && c in cursors
      modifies this`txns, this`cursors
      ensures Sound()
      ensures old(Refusal(c)).Some? ==> r == Err(old(Refusal(c)).value) && cursors == old(cursors) && txns == old(txns)
      ensures old(Refusal(c)).None? ==>
        && r == (if nativeFails then Err(NativeError) else Ok(()))
        && cursors.Keys == old(cursors).Keys && cursors[c].current == CurrentRecord(None, None, false)
        && NothingCached(old(cursors)[c].txn)
      ensures old(Refusal(c)).None? ==> forall d :: d in cursors ==>
        && SameWrapper(cursors[d], old(cursors)[d])
        && (d != c ==>
              cursors[d].current == if d in old(CursorsOf(cursors[c].txn)) then CurrentRecord(None, None, true)
                                    else old(cursors)[d].current)
    {
      var refusal := Refusal(c);
      if refusal.Some? {
        return Err(refusal.value);
      }
      var t := cursors[c].txn;
      InvalidateForWrite(t);
      NativeUpdate(t, positions);
      Invalidate({c}, false);
      return if nativeFails then Err(NativeError) else Ok(());
    }

    method CloseCursor(c: Id)
      requires Sound() && c in cursors
      modifies this`cursors
      ensures Sound() && cursors == old(cursors)[c := Cleared(old(cursors)[c], false).(phase := Closed)]
    {
      cursors := cursors[c := Cleared(cursors[c], false).(phase := Closed)];
    }

    // ------------------------------------------------------------ transactions

    method BeginTxn(t: Id, readOnly: bool)
      requires Sound() && t !in txns
      modifies this`txns
      ensures Sound() && txns == old(txns)[t := Transaction(true, readOnly, 0)]
    {
      txns := txns[t := Transaction(true, readOnly, 0)];
    }

    /**
     `put`, `del` and creating a database: the caches go before native code is entered,
     whether it succeeds or not.
     */
    method Write(t: Id, positions: Positions) returns (ok: bool)
      requires Sound()
      modifies this`txns, this`cursors
      ensures Sound() && ok == (t in old(txns) && old(txns)[t].active)
      ensures !ok ==> txns == old(txns) && cursors == old(cursors)
      ensures ok ==> txns == old(txns)[t := old(txns)[t].(epoch := old(txns)[t].epoch + 1)] && NothingCached(t)
      ensures ok ==> cursors.Keys == old(cursors).Keys
      ensures ok ==> forall c :: c in cursors ==> SameWrapper(cursors[c], old(cursors)[c])
      ensures ok ==> forall c :: c in cursors ==>
        cursors[c].current == if c in old(CursorsOf(t)) then CurrentRecord(None, None, true)
            else old(cursors)[c].current
    {
      if t !in txns || !txns[t].active {
        return false;
      }
      InvalidateForWrite(t);
      NativeUpdate(t, positions);
      return true;
    }

    /** The cursors on wrappers `dbis`. */
    function CursorsOnDbis(dbis: set<Id>): (cs: set<Id>)
      reads this
      ensures forall c :: c in cs <==> c in cursors && cursors[c].dbi in dbis && cursors[c].phase != Closed
    {
      set c | c in cursors && cursors[c].dbi in dbis && cursors[c].phase != Closed
    }

    function CursorsOnRecord(record: Id): (cs: set<Id>)
      reads this
      ensures forall c :: c in cs <==> c in cursors && cursors[c].record == record && cursors[c].phase != Closed
    {
      set c | c in cursors && cursors[c].record == record && cursors[c].phase != Closed
    }

    /** Closing wrappers: `Dbi.close` of one, or all of a record after a deleting drop. */
    method CloseDbis(dbis: set<Id>)
      requires Sound()
      modifies this`cursors, this`closedDbis
      ensures Sound() && closedDbis == old(closedDbis) + dbis
      ensures cursors == map c | c in old(cursors) ::
        if c in old(CursorsOnDbis(dbis)) then Cleared(old(cursors)[c], false) else old(cursors)[c]
    {
      Invalidate(CursorsOnDbis(dbis), false);
      closedDbis := closedDbis + dbis;
    }

    /** `clearDbiCursorCurrentRecords`, after a database has been emptied. */
    method ClearRecord(record: Id)
      requires Sound()
      modifies this`cursors
      ensures Sound()
      ensures cursors == map c | c in old(cursors) ::
        if c in old(CursorsOnRecord(record)) then Cleared(old(cursors)[c], false) else old(cursors)[c]
    {
      Invalidate(CursorsOnRecord(record), false);
    }

    /** The open wrappers the cursors of `record` were opened on. */
    function WrappersInUse(record: Id): (dbis: set<Id>)
      reads this
      ensures forall c :: c in cursors && cursors[c].record == record && cursors[c].phase != Closed ==>
        cursors[c].dbi in dbis || cursors[c].dbi in closedDbis
      ensures dbis !! closedDbis
    {
      set c | c in cursors && cursors[c].record == record && cursors[c].phase != Closed && cursors[c].dbi !in closedDbis
        :: cursors[c].dbi
    }

    /**
     `Dbi.drop` inside transaction `t`; `unused` are the wrappers of `record` that have
     no cursor.  Afterwards no cursor on the record holds anything, and after a deleting
     drop all its wrappers are closed.
     */
    method Drop(t: Id, record: Id, unused: set<Id>, del: bool, positions: Positions) returns (ok: bool)
      requires Sound()
      modifies this
      ensures Sound() && ok == (t in old(txns) && old(txns)[t].active)
      ensures !ok ==> txns == old(txns) && cursors == old(cursors) && closedDbis == old(closedDbis)
      ensures ok ==> NothingCached(t) && cursors.Keys == old(cursors).Keys
      ensures ok ==> txns == old(txns)[t := old(txns)[t].(epoch := old(txns)[t].epoch + 1)]
      ensures ok ==> forall c :: c in cursors ==> SameWrapper(cursors[c], old(cursors)[c])
      ensures ok ==> forall c :: c in cursors && cursors[c].record != record && cursors[c].dbi !in closedDbis ==>
        cursors[c].current == if c in old(CursorsOf(t)) then CurrentRecord(None, None, true)
            else old(cursors)[c].current
      ensures ok ==> closedDbis == old(closedDbis) + if del then unused + old(WrappersInUse(record)) else {}
      ensures ok ==> forall c :: c in cursors && cursors[c].record == record && cursors[c].phase != Closed ==>
        && cursors[c].current.key == None && cursors[c].current.data == None
        && (!del || cursors[c].dbi !in old(closedDbis) ==> !cursors[c].current.fallbackAllowed)
        && (del ==> cursors[c].dbi in closedDbis)
    {
      hide SoundCursor;
      if t !in txns || !txns[t].active {
        return false;
      }
      var dbis := WrappersInUse(record);
      var _ := Write(t, positions);
      EmptyRecord(record, dbis, unused, del);
      return true;
    }

    /** What a drop does to the wrappers and cursors of `record`, whose wrappers with cursors are `dbis`. */
    method EmptyRecord(record: Id, dbis: set<Id>, unused: set<Id>, del: bool)
      requires Sound() && dbis !! closedDbis
      requires forall c :: c in cursors && cursors[c].record == record && cursors[c].phase != Closed ==>
        cursors[c].dbi in dbis || cursors[c].dbi in closedDbis
      modifies this`cursors, this`closedDbis
      ensures Sound() && cursors.Keys == old(cursors).Keys
      ensures forall t :: old(NothingCached(t)) ==> NothingCached(t)
      ensures closedDbis == old(closedDbis) + if del then unused + dbis else {}
      ensures forall c :: c in cursors ==> SameButCurrent(cursors[c], old(cursors)[c])
      ensures forall c :: c in cursors && cursors[c].record != record && cursors[c].dbi !in closedDbis ==>
        cursors[c] == old(cursors)[c]
      ensures forall c :: c in cursors && cursors[c].record == record && cursors[c].phase != Closed ==>
        && cursors[c].current.key == None && cursors[c].current.data == None
        && (!del || cursors[c].dbi !in old(closedDbis) ==> !cursors[c].current.fallbackAllowed)
        && (del ==> cursors[c].dbi in closedDbis)
    {
      hide SoundCursor;
      if del {
        CloseDbis(unused + dbis);
        ClosedHoldsNothing();
      } else {
        ClearRecord(record);
        assert closedDbis + {} == closedDbis;
      }
    }

    /** A cursor on a closed wrapper holds nothing. */
    lemma ClosedHoldsNothing()
      requires Sound()
      ensures forall c :: c in cursors && cursors[c].dbi in closedDbis ==>
        cursors[c].current.key == None && cursors[c].current.data == None
    {
      forall c | c in cursors && cursors[c].dbi in closedDbis
        ensures cursors[c].current.key == None && cursors[c].current.data == None
      {
        assert SoundCursor(cursors[c], txns, closedDbis);
      }
    }

    /** Commit, abort or reset: the cursors are emptied and cut off before the transaction ends. */
    method EndTxn(t: Id) returns (ok: bool)
      requires Sound()
      modifies this`txns, this`cursors
      ensures Sound() && ok == (t in old(txns) && old(txns)[t].active)
      ensures !ok ==> txns == old(txns) && cursors == old(cursors)
      ensures ok ==> txns == old(txns)[t := old(txns)[t].(active := false)]
      ensures ok ==> cursors == Ended(old(cursors), old(CursorsOf(t)), if old(txns)[t].readOnly then Detached
                                      else Closed)
    {
      if t !in txns || !txns[t].active {
        return false;
      }
      var phase := if txns[t].readOnly then Detached else Closed;
      var ending := CursorsOf(t);
      var todo := ending;
      while todo != {}
        invariant txns == old(txns) && todo <= ending <= cursors.Keys == old(cursors).Keys
        invariant forall c :: c in cursors ==>
          cursors[c] == if c in ending - todo then Cleared(old(cursors)[c], false).(phase := phase) else old(cursors)[c]
        decreases todo
      {
        var c :| c in todo;
        cursors := cursors[c := Cleared(cursors[c], false).(phase := phase)];
        todo := todo - {c};
      }
      txns := txns[t := txns[t].(active := false)];
      return true;
    }

    /** A renewed reader sees a new snapshot; its old cursors stay detached. */
    method Renew(t: Id)
      requires Sound() && t in txns && txns[t].readOnly && !txns[t].active
      modifies this`txns
      ensures Sound() && txns == old(txns)[t := Transaction(true, true, old(txns)[t].epoch + 1)]
    {
      txns := txns[t := Transaction(true, true, txns[t].epoch + 1)];
    }
  }

  // -------------------------------------------------------------------- runs

  datatype Call =
    | OnBegin(t: Id, readOnly: bool)
    | OnOpen(c: Id, t: Id, dbi: Id, record: Id, position: Option<(Bytes, Bytes)>)
    | OnNavigate(c: Id, answer: Answer)
    | OnGet(c: Id, nativeFails: bool)
    | OnDetach(c: Id)
    | OnDelete(c: Id, positions: Positions, nativeFails: bool)
    | OnCloseCursor(c: Id)
    | OnWrite(t: Id, positions: Positions)
    | OnDrop(t: Id, record: Id, unused: set<Id>, del: bool, positions: Positions)
    | OnCloseDbis(dbis: set<Id>)
    | OnEnd(t: Id)
    | OnRenew(t: Id)

  /** A getter's answer next to what an uncached read would have given. */
  datatype Observation = Observation(got: Option<(Bytes, Bytes)>, uncached: Option<(Bytes, Bytes)>)

  /** Whatever the interleaving, a getter that returns something returns what an uncached read would. */
  method Run(e: CursorCaches, calls: seq<Call>) returns (observations: seq<Observation>)
    requires e.Sound()
    modifies e
    ensures e.Sound()
    ensures forall o :: o in observations ==> o.got.Some? ==> o.got == o.uncached
  {
    hide SoundCursor;
    observations := [];
    for i := 0 to |calls|
      invariant e.Sound()
      invariant forall o :: o in observations ==> o.got.Some? ==> o.got == o.uncached
    {
      match calls[i] {
        case OnBegin(t, readOnly) => if t !in e.txns { e.BeginTxn(t, readOnly); }
        case OnOpen(c, t, dbi, record, position) =>
          if c !in e.cursors && t in e.txns && e.txns[t].active
              && dbi !in e.closedDbis { e.OpenCursor(c, t, dbi, record, position); }
        case OnNavigate(c, answer) => if c in e.cursors { var _ := e.Navigate(c, answer); }
        case OnGet(c, nativeFails) =>
          if c in e.cursors {
            var uncached := e.cursors[c].native;
            var got := e.GetCurrent(c, nativeFails);
            observations := observations + [Observation(if got.Ok? then got.value else None, uncached)];
          }
        case OnDetach(c) => if c in e.cursors { e.DetachBuffer(c); }
        case OnDelete(c, positions, nativeFails) => if c in e.cursors { var _ := e.Delete(c, positions, nativeFails); }
        case OnCloseCursor(c) => if c in e.cursors { e.CloseCursor(c); }
        case OnWrite(t, positions) => var _ := e.Write(t, positions);
        case OnDrop(t, record, unused, del, positions) => var _ := e.Drop(t, record, unused, del, positions);
        case OnCloseDbis(dbis) => e.CloseDbis(dbis);
        case OnEnd(t) => var _ := e.EndTxn(t);
        case OnRenew(t) => if t in e.txns && e.txns[t].readOnly && !e.txns[t].active { e.Renew(t); }
      }
    }
  }
}
