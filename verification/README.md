# deno-lmdb: ownership, batches, cursor cache

This project models the layer that deno-lmdb puts on top of LMDB and proves
what that layer promises. LMDB itself is replaced by a small machine
(`NativeLmdb.dfy`) whose calls have the preconditions of its header: a call the
header forbids sets a `fault` flag that nothing clears. Where the layer makes no
forbidden call that is proved; where it can, the operation says exactly when.

## What is modelled

**The ownership graph** of one shared environment: environment wrappers,
transactions, database records and their wrappers, cursors, batch leases, the
writer slot, pending sync and copy calls, the poison flag, and the LMDB handles
they own.

- `Ownership.dfy` has the tables, the invariant `Inv` and the steps as functions.
- `OwnershipLemmas`, `TransactionLemmas`, `DbiLemmas`, `DropLemmas`,
  `RetentionLemmas` and `EnvironmentLemmas` show table by table what each step keeps.
- `SharedEnvironments.dfy` is the mutable object with the internal loops,
  `PublicOperations.dfy` the operations of `Env`, `Txn`, `Dbi` and `Cursor`, the
  batch hooks and the finalizers, `EnvironmentRuns.dfy` any run of them.
- `OperationEffects.dfy` says table by table what the steps change, and that a handle
  goes exactly when nothing refers to its record any more.
- `KnownGaps.dfy` has concrete runs into forbidden calls, `GapConsequences.dfy` what
  follows in general once an operation leaves the exact conditions.

The invariant ties both sides together: the open LMDB transactions, cursors and
database handles are exactly those the graph accounts for, each database handle
belongs to one referenced record, the one open writer holds the writer slot, and
every count is the size of the set it counts. Its half about LMDB is claimed as
long as no forbidden call was made (`Tracked`), its half about the graph always.

**The batch protocol**: the parent's FIFO client, its Workers, the channels
between them, microtasks, other writers of the parent, Worker failure at any
step, and the database.

- `BatchExecutor.dfy` is the loop that runs one batch in one transaction, proved
  to be a fold over a map database under any script of native failures.
- `BatchProtocol.dfy` gives the client's events as functions, `BatchClients.dfy`
  the client object proved equal to them, `BatchWorkers.dfy` the Worker host.
- `BatchSystem.dfy` is the transition system. A Worker that was given up on keeps
  running; errors may be reported at any time; the native lock is not relied on.
- `BatchInvariant`, `BatchClientLemmas`, `BatchWorkerLemmas`,
  `BatchParentLemmas` and `BatchDeliveryLemmas` prove the system invariant;
  `BatchHistory.dfy` adds what a run remembers (the request behind each job number,
  every change of the database), `BatchRuns.dfy` and `BatchTermination.dfy` draw the
  conclusions for all runs.
- `BatchDispatch.dfy` says when a job reaches a Worker: exactly when the client recovers
  instead, and that a run without host faults serves every job on the Worker at hand.
- `BatchExamples.dfy` follows one job from its Worker to its callback, `BatchJobs.dfy`
  shows that a Worker's small steps add up to `RunJob`, failures included.
- `BatchLeases.dfy` and `CallingThreadBatches.dfy` prepare, run and release a batch
  on the ownership graph.

**The cursor cache** (`CursorCache.dfy`): cached records are views tagged with
their transaction and write epoch, compared with an uncached native cursor.

**Descriptors** (`Descriptors.dfy`): the registry of generation tokens behind
the authority a Worker is started with.

**Codecs** (`Encoding.dfy`): zero-terminated UTF-16LE and unsigned 32-bit keys.

## Findings

- **Closing a modified database.** LMDB forbids closing a handle while an existing
  transaction has modified its database (`native/lmdb.h:1406-1410`). The comment of
  `Dbi.close` says that existing transactions keep the handle alive
  (`src/dbi.ts:110-111`), but the code counts wrappers, pending bindings, cursors and
  leases, not transactions (`src/internal/native_state.ts:1119-1133`). Begin, put,
  `dbi.close()` is `KnownGaps.CloseAfterPut`. For every way to lose the last reference
  the operation's contract has the exact condition: `PublicOperations.CloseDbi`,
  `FinalizeDbi`, `CloseCursorWrapper`, `FinalizeCursor`, `ReleaseBatchDbiLease` and the
  ends of transactions make a forbidden call if and only if the reference is the last
  one and an open transaction has modified the database. The end of a writer never does.
- **Databases open at the final close.** LMDB wants all databases closed before the
  environment (`native/lmdb.h:892-895`); `Env.close` closes none
  (`src/env.ts:640-647`). The run is `KnownGaps.DatabaseOpenAtClose`; by
  `EnvironmentLemmas.OpenAtClose` handles are left open exactly when some database
  wrapper, or some cursor on a committed database, was not closed before.
- **Deleting drop with cursors.** A deleting drop closes the handle at once, also under
  an open cursor (`KnownGaps.DropUnderCursor`), and a cursor that outlives its reader
  closes the handle of a dropped database again (`KnownGaps.CursorOutlivesDrop`,
  `src/internal/native_state.ts:736-750`, `1193-1196`). `DropLemmas.DropInTransactionKeepsIff`
  has the exact condition; outside it `GapConsequences.DropConsequence` leads to a
  forbidden call by closing the cursors left on the database, in any order.
- **Deleting drop whose commit fails.** `Dbi.drop()` with a transaction of its own leaves
  a record whose handle LMDB has closed (`src/dbi.ts:152-170`). The run is
  `KnownGaps.FailedDropClosesTwice`, the exact condition
  `DropLemmas.DropInternallyKeepsIff`. Since no caller can foresee the commit, only
  emptying is safe (`GapConsequences.DropInternallySafe`).
- **Reset of a reader with a pending database.** `Txn.reset()` of a reader that opened a
  database not yet committed lets LMDB close the private handle while the wrapper stays
  pending (`src/txn.ts:415-423`). The run is `KnownGaps.ResetLosesHandle`, the exact
  condition `TransactionLemmas.ResetTransactionKeepsIff`; by
  `GapConsequences.ResetConsequence` the wrapper passes every check on a lost handle.

The last three lose the invariant. `EnvironmentRuns.Permitted` leaves exactly those
calls out of a run, besides identities that are not new; `EnvironmentRuns.Clear` adds
that no call is one LMDB forbids (the first finding, a cursor under a deleting drop,
and LMDB's rule that one transaction at a time opens databases).

## Model

| member | source | states |
|---|---|---|
| `SharedEnvironments.SharedEnvironment.constructor` | src/env.ts:142-181 | a freshly opened environment has one wrapper and satisfies the invariant |
| `SharedEnvironments.SharedEnvironment.FinalizeEmptyDbiRecord` | src/internal/native_state.ts:1119-1133 | an unreferenced record leaves the handle map, and its handle is closed if asked for, committed and not poisoned |
| `SharedEnvironments.SharedEnvironment.CloseCursorBinding` | src/internal/native_state.ts:1172-1198 | closing a cursor wrapper once, with the native closes it may or may not make |
| `SharedEnvironments.SharedEnvironment.PrepareTransactionCursorsForEnd` | src/internal/native_state.ts:1157-1170 | every reader cursor is natively closed while its transaction is open, wrappers stay closable, the invariant holds |
| `SharedEnvironments.SharedEnvironment.SettlePendingBindings` | src/internal/native_state.ts:1063-1105 | a commit promotes exactly the transaction's pending databases, any other end closes exactly those |
| `SharedEnvironments.SharedEnvironment.FinalizeDbiRecords` | src/internal/native_state.ts:1107-1117 | finalising the touched records restores the invariant, touches only handle map and native handles, and is forbidden exactly when one of them is modified by an open transaction |
| `SharedEnvironments.SharedEnvironment.FinishTransactionCursors` | src/internal/native_state.ts:1142-1155 | the writer's cursor wrappers are closed without a native close, LMDB having freed them |
| `SharedEnvironments.SharedEnvironment.EndNativeTransaction` | src/txn.ts:371-384 | cursors first, then the native end, then the fate of pending databases |
| `SharedEnvironments.SharedEnvironment.CloseTransactionBinding` | src/internal/native_state.ts:1005-1011 | the transaction is unlinked from wrapper, environment and writer slot |
| `SharedEnvironments.SharedEnvironment.EndTransactionBinding` | src/internal/native_state.ts:1013-1023 | what the end of a transaction makes of the whole graph, for commit, failed commit and abort, poisoned or not, and exactly when it makes a forbidden call |
| `SharedEnvironments.SharedEnvironment.ReleaseDbiBinding` | src/internal/native_state.ts:1025-1036 | the last reference to a settled record closes its handle; a pending one waits for its transaction |
| `SharedEnvironments.SharedEnvironment.InvalidateSharedEnvironmentChildren` | src/internal/native_state.ts:859-878 | all cursor and database wrappers die without a native call |
| `SharedEnvironments.SharedEnvironment.HasBatchDbiLeases` | src/internal/native_state.ts:1224-1229 | the scan of retained records is true exactly when some lease is unreleased |
| `SharedEnvironments.SharedEnvironment.RetireEnvironment` | src/env.ts:640-647 | no cursor is left to close natively; unless poisoned the environment is unregistered and closed, with exactly the databases not closed before left open |
| `SharedEnvironments.SharedEnvironment.CloseSharedEnvironmentIfUnused` | src/internal/native_state.ts:1209-1222 | the environment retires exactly when no wrapper, operation, writer or lease is left |
| `PublicOperations.BeginTxn` | src/txn.ts:78-98 | accepted exactly when open, not poisoned, and the writer slot is free for a writer; the new transaction is active, owned by its wrapper, and a writer takes the slot |
| `PublicOperations.Commit` | src/txn.ts:371-384 | a committed or failed commit ends the transaction and settles its databases; forbidden exactly when it closes a database another transaction has modified |
| `PublicOperations.Abort` | src/txn.ts:395-405 | abort ends the transaction and invalidates its databases; forbidden exactly as for commit |
| `PublicOperations.Reset` | src/txn.ts:415-423 | a reader keeps its handle and loses its cursors; the invariant is kept if and only if no uncommitted database is pending |
| `PublicOperations.Renew` | src/txn.ts:431-438 | a reset reader becomes active again, and nothing else changes; no other transaction is renewed |
| `PublicOperations.OpenDbiInTransaction` | src/dbi.ts:68-78 | the wrapper is pending on its opening transaction and shares the record of its handle; legal exactly under LMDB's rules for opening |
| `PublicOperations.OpenDbi` | src/dbi.ts:80-104 | the internal open registers a committed database or changes nothing, gives the writer slot back, and is legal exactly when no opener is about |
| `PublicOperations.CloseDbi` | src/dbi.ts:116-121 | closes the wrapper, and the handle when nothing else refers to it; forbidden exactly when an open transaction has modified that database |
| `PublicOperations.DropInTxn` | src/dbi.ts:136-150 | a deleting drop closes every wrapper of the record, emptying counts as a modification; forbidden exactly under an open cursor, invariant kept exactly without cursors in its way |
| `PublicOperations.DropDbi` | src/dbi.ts:152-170 | the drop with its own transaction at all failure points, writer slot given back; forbidden exactly under an open cursor, invariant kept when it empties or deletes, commits and finds no cursor |
| `PublicOperations.WriteInTxn` | src/txn.ts:462-480 | accepted exactly for an active writer and a database it may use; always legal, and the database counts as modified by the transaction |
| `PublicOperations.OpenCursorIn` | src/cursor.ts:78-111 | accepted exactly for an active transaction and a database it may use; the cursor is active in that transaction and counted on its record |
| `PublicOperations.DeleteThroughCursor` | src/cursor.ts:402-423 | accepted exactly for an active cursor of a writer; always legal, and its database counts as modified |
| `PublicOperations.CloseCursorWrapper` | src/cursor.ts:437-445 | a cursor is closed once, its native handle first; forbidden exactly when it is the last reference to a modified database |
| `PublicOperations.RetainDbiForBatch` | src/internal/native_state.ts:660-680 | a live committed database gains one lease |
| `PublicOperations.ReleaseBatchDbiLease` | src/internal/native_state.ts:694-709 | a lease lowers the count once; the last one may retire the environment, and closes the handle, forbidden exactly when an open transaction has modified the database |
| `PublicOperations.BeginAsync` | src/internal/native_state.ts:347-354 | a sync or copy is recorded and counted, and keeps the environment |
| `PublicOperations.EndAsync` | src/internal/native_state.ts:357-364 | it is released once; the environment goes on exactly while a wrapper, another operation, a writer or a lease is left |
| `PublicOperations.ReserveInternalWriter` | src/internal/native_state.ts:487-498 | the writer slot has one owner: accepted exactly when it is free |
| `PublicOperations.ReleaseInternalWriter` | src/internal/native_state.ts:501-511 | only the owner's token frees the slot; the environment goes on exactly while a wrapper, an operation or a lease is left |
| `PublicOperations.AttachEnvironment` | src/env.ts:130-146 | a registered environment is re-attached, even one kept by a pending copy only; a poisoned one never |
| `PublicOperations.AbortOwnedTransactions` | src/internal/native_state.ts:543-558 | exactly the wrapper's transactions end, everything of the others is untouched, and no forbidden call is made when none of them is the last reference to a database modified by another |
| `PublicOperations.CloseEnvironment` | src/env.ts:620-648 | refused exactly while an operation, internal writer or lease is pending; the last wrapper retires the environment, and an open settled database is left open natively |
| `PublicOperations.FinalizeEnvironment` | src/internal/native_state.ts:893-913 | the finalizer refuses nothing; the environment stays live exactly while another wrapper, an operation, an internal writer or a lease is left |
| `PublicOperations.FinalizeTransaction` | src/internal/native_state.ts:915-917 | an unreachable transaction is aborted, forbidden exactly as an abort |
| `PublicOperations.FinalizeDbi` | src/internal/native_state.ts:919-922 | an unreachable database wrapper is released, whatever its state, forbidden exactly as a close |
| `PublicOperations.FinalizeCursor` | src/internal/native_state.ts:924-926 | an unreachable cursor is closed, natively unless poisoned, forbidden exactly as a close |
| `PublicOperations.PoisonEnvironment` | src/internal/native_state.ts:206-217 | the environment is poisoned and nothing else changes, no native call is made, and the invariant of a live environment is kept |
| `PublicOperations.ActiveMeans` | src/internal/native_state.ts:944-951 | a transaction may be used until it ends, is reset, or its environment is poisoned |
| `PublicOperations.UsableMeans` | src/internal/native_state.ts:625-636 | any transaction may use an open settled database, only its opening one a pending one |
| `PublicOperations.RetainedMeans` | src/internal/native_state.ts:712-718 | a database counts as retained exactly while an unreleased lease is on it |
| `PublicOperations.MayDropMeans` | src/dbi.ts:136-170 | the guards of both drops in terms of wrappers, transactions, leases and the writer slot |
| `PublicOperations.ClosableMeans` | src/env.ts:620-639 | a wrapper may be closed exactly when no operation, internal writer or unreleased lease is there |
| `OperationEffects.DbiReleased` | src/internal/native_state.ts:1025-1036 | a closed wrapper is closed and no other table moves; its handle goes exactly when no wrapper, pending binding, cursor or lease refers to the record |
| `OperationEffects.CursorIsClosed` | src/internal/native_state.ts:1172-1198 | a closed cursor has left its transaction and LMDB, and no other has; its handle goes exactly with the last reference |
| `OperationEffects.LeaseIsReleased` | src/internal/native_state.ts:694-704 | a released lease is released and no other is; its handle goes exactly with the last reference |
| `OperationEffects.DbiOpenedIn` | src/internal/native_state.ts:561-612 | a database opened in a transaction waits for it, on the record the handle has or on a new one that is not committed |
| `OperationEffects.DbiOpenedInternally` | src/dbi.ts:80-104 | one opened with its own transaction is settled, its record committed and its handle shared |
| `OperationEffects.DbiDroppedIn` | src/internal/native_state.ts:736-750 | every wrapper of the record is closed and forgotten by its transaction, the record leaves the map, no other wrapper is touched |
| `OperationEffects.DbiDroppedInternally` | src/dbi.ts:152-170 | so it is when the drop's own transaction commits; when it does not, no table changes |
| `OperationEffects.Ended` | src/internal/native_state.ts:1063-1170 | what the end of a transaction does to each wrapper, cursor and record: a commit settles its databases, any other end closes them, cursors are detached from a reader and closed with a writer, and nothing of the others moves |
| `EnvironmentRuns.Run` | src/internal/native_state.ts:859-1245 | over any run of permitted calls the invariant holds, poison is absorbing and silences native calls, a retired environment never changes; after a reported hard failure no begin, commit, renew, open, write, cursor, lease, reservation, sync, copy or attach is accepted again; if every call was clear, no forbidden LMDB call was made |
| `EnvironmentRuns.RunFromOpen` | src/env.ts:117-182 | from the first open on, a run of clear calls is free of forbidden calls, and the native environment is open exactly while live |
| `EnvironmentRuns.ReaderComesBack` | src/txn.ts:415-438 | a reader that is reset and renewed is active again, and a cursor on any settled database is opened in it |
| `EnvironmentRuns.OneLife` | src/env.ts:117-182 | open, write transaction, database, put, cursor, commit, close of both: every call is accepted and nothing is left open natively |
| `EnvironmentRuns.ReferencedHandleIsOpen` | src/internal/native_state.ts:561-612 | while anything refers to a committed record its handle is open and its own |
| `EnvironmentRuns.OpenHandleIsReferenced` | src/internal/native_state.ts:1119-1133 | no open database handle is leaked, and only one record claims it |
| `EnvironmentRuns.SingleWriter` | src/internal/native_state.ts:482-531 | at most one native write transaction, the one in the writer slot |
| `EnvironmentRuns.NativeCursorsAreInside` | src/internal/native_state.ts:427-435 | an open native cursor belongs to an active, natively open transaction |
| `EnvironmentRuns.ClosedIffUnused` | src/internal/native_state.ts:1209-1222 | the native environment is open exactly while a wrapper, operation, writer or lease keeps it |
| `EnvironmentRuns.RetiredIsEmpty` | src/internal/native_state.ts:859-878 | after retirement every wrapper, cursor and lease is closed |
| `TransactionLemmas.EndNativeKeeps` | src/internal/native_state.ts:1063-1105 | the native end of a transaction keeps heap and native machine in step, handles it opened included |
| `TransactionLemmas.ResetTransactionKeepsIff` | src/txn.ts:415-423 | reset keeps the invariant if and only if every pending database of the reader is committed |
| `EnvironmentLemmas.WriterMayEnd` | src/internal/native_state.ts:1063-1105 | the end of a writer closes no database another transaction has modified |
| `EnvironmentLemmas.OpenAtClose` | src/env.ts:640-647 | at the final close LMDB has no database open if and only if every database wrapper and every cursor on a committed database was closed |
| `DropLemmas.DropInTransactionKeepsIff` | src/internal/native_state.ts:736-750 | a deleting drop is legal and keeps the invariant if and only if no cursor is open on the handle and none is left on a committed record |
| `DropLemmas.DropInternallyKeepsIff` | src/dbi.ts:152-170 | the self-contained drop is legal and keeps the invariant if and only if deleting implies commit and no cursor |
| `DropLemmas.LastCursorClosesAgain` | src/internal/native_state.ts:1193-1196 | the last cursor of a dropped committed record closes its handle number again |
| `GapConsequences.DropConsequence` | src/internal/native_state.ts:736-750 | outside its condition a deleting drop is forbidden at once, or closing the cursors left behind, in any order, ends in a forbidden call |
| `GapConsequences.DropInternallyConsequence` | src/dbi.ts:152-170 | outside its condition every wrapper stays open on a lost handle, or closing the cursors left behind ends in a forbidden call |
| `GapConsequences.DropInternallySafe` | src/dbi.ts:152-170 | whatever the commit does, the self-contained drop is safe if and only if it only empties |
| `GapConsequences.ResetConsequence` | src/txn.ts:415-423 | outside the condition for reset some handle is lost: every call LMDB gets for it is forbidden, while its wrappers pass every check before and after the commit |
| `KnownGaps.CursorOutlivesDrop` | src/internal/native_state.ts:736-750 | a concrete run: a reader's cursor is closed after the reader and after a deleting drop, which closes the handle again |
| `KnownGaps.FailedDropClosesTwice` | src/dbi.ts:152-170 | a concrete run whose wrapper close is a second handle close |
| `KnownGaps.ResetLosesHandle` | src/txn.ts:415-423 | a concrete run in which reset loses a pending handle |
| `KnownGaps.CloseAfterPut` | src/internal/native_state.ts:1025-1036 | a concrete run that closes a database its open writer has modified |
| `KnownGaps.DatabaseOpenAtClose` | src/env.ts:640-647 | a concrete run that closes the environment with a database open |
| `KnownGaps.DropUnderCursor` | src/dbi.ts:136-150 | a concrete run in which a deleting drop closes a handle under an open cursor |
| `OwnershipLemmas.FinalizeRecordKeeps` | src/internal/native_state.ts:1119-1133 | finalising a record keeps the graph; a forbidden call is made exactly when the last reference to a modified database goes |
| `OwnershipLemmas.CloseCursorKeeps` | src/internal/native_state.ts:1172-1198 | closing a cursor keeps the graph, and is forbidden exactly when it is the last reference to a modified database |
| `DbiLemmas.OpenPendingDbiKeeps` | src/internal/native_state.ts:561-612 | registering a pending database keeps pending sets, records and private handles in agreement, and is legal exactly under LMDB's rules |
| `DbiLemmas.OpenCommittedDbiKeeps` | src/dbi.ts:80-104 | opening through an internal transaction keeps the graph, commit or not |
| `DbiLemmas.ReleaseDbiKeeps` | src/internal/native_state.ts:1025-1036 | closing a wrapper keeps the graph, and is forbidden exactly when it is the last reference to a modified database |
| `RetentionLemmas.OpenCursorKeeps` | src/internal/native_state.ts:776-802 | a new cursor is counted once on its record and lives in its transaction |
| `RetentionLemmas.ReleaseLeaseKeeps` | src/internal/native_state.ts:694-704 | releasing a lease keeps counts equal to unreleased leases, and is forbidden exactly when it is the last reference to a modified database |
| `BatchExecutor.EvaluateCondition` | src/batch/executor.ts:386-413 | null wants an absent key, a value wants a present one that starts with it or is it, a size error is a result |
| `BatchExecutor.ConditionMeaning` | src/batch/executor.ts:386-413 | the result of a condition in terms of the map: presence, length and each byte |
| `BatchExecutor.ExecuteOperation` | src/batch/executor.ts:247-290 | one operation has the effect and result of the specification, or throws |
| `BatchExecutor.OperationMeaning` | src/batch/executor.ts:247-290 | which result a put, a deletion of a present or absent key, a failed condition and a size error give, and what each does to the map |
| `BatchExecutor.ExecuteOperations` | src/batch/executor.ts:246-291 | the loop is the fold, results are defined exactly on the completed prefix and reported in order |
| `BatchExecutor.ExecuteBatch` | src/batch/executor.ts:226-300 | one transaction: committed fold exactly when begin, operations and commit succeed, otherwise unchanged database with one abort and none after a commit attempt |
| `BatchExecutor.Run` | src/batch/executor.ts:246-291 | the fold stops exactly where an operation throws |
| `BatchExecutor.RunConcat` | src/batch/executor.ts:246-291 | running two batches in a row is running their concatenation |
| `BatchExecutor.LastWriterWins` | src/batch/executor.ts:256-290 | a key ends with the value of the last operation on it that succeeded |
| `BatchExecutor.Untouched` | src/batch/executor.ts:256-290 | a key no operation succeeded on keeps its value |
| `BatchExecutor.ReplayRuns` | src/batch/executor.ts:246-291 | a script that deals out the fates of a run, call by call, makes the loop run it |
| `BatchExecutor.Replay` | src/batch/executor.ts:226-300 | any run that does not throw is reproduced by `ExecuteBatch` on a database of its own, under a constructed script |
| `BatchLeases.LeaseOwner` | src/batch/executor.ts:152-167 | one lease per record whatever alias names it |
| `BatchLeases.PrepareBatchSnapshot` | src/batch/executor.ts:138-201 | success raises the count of each distinct record by one and yields the normalised operations with their records' handles; a throw leaves the graph as it was but for spent leases |
| `BatchLeases.NormalisedMeaning` | src/batch/executor.ts:354-384 | each operation has its input's key, value and its wrapper's handle; its condition has the handle of its own wrapper, its own key or else the operation's, its value and mode |
| `BatchLeases.BatchValidMeans` | src/batch/executor.ts:138-201 | a batch is prepared exactly when nothing throws and every database it names is open and settled |
| `BatchLeases.ReleasePreparedBatch` | src/batch/executor.ts:204-223 | each lease is released once, repeated release does nothing, it undoes a preparation, and is legal when no release is the last reference to a modified database |
| `BatchLeases.LeasedHandlesOpen` | src/internal/native_state.ts:660-680 | in any state in which a batch's leases are unreleased, every handle its operations and conditions name is open |
| `CallingThreadBatches.CountCompleted` | src/env.ts:413-416 | the scan counts exactly the completed prefix |
| `CallingThreadBatches.RunHere` | src/env.ts:404-441 | no error exactly when begin, fold and commit succeed; results and progress are the completed prefix, the database is the fold or unchanged |
| `CallingThreadBatches.BatchWrite` | src/env.ts:370-441 | the calling-thread batch throws, or runs the normalised inputs with the slot reserved and every handle open, and completes as the fold; no lease or reservation outlives it |
| `CallingThreadBatches.OneOperation` | src/env.ts:370-441 | a batch of one operation that LMDB fails nowhere writes or deletes its record exactly when the record at the condition's key is as asked, and reports the result |
| `BatchClients.BatchWorkerClient.Enqueue` | src/batch/client.ts:69-106 | refused exactly when closed or poisoned; otherwise queued or activated |
| `BatchClients.BatchWorkerClient.Close` | src/batch/client.ts:108-119 | only an idle client closes |
| `BatchClients.BatchWorkerClient.Activate` | src/batch/client.ts:121-131 | with the slot free a running Worker is given the job at once, one that is starting keeps it for later, and without one a new Worker is started; a taken slot or a throw fails every retained job |
| `BatchClients.BatchWorkerClient.PostJob` | src/batch/client.ts:169-182 | the job reaches the inbox and is recorded as dispatched |
| `BatchClients.BatchWorkerClient.HandleMessage` | src/batch/client.ts:184-239 | what each Worker message makes of client, slot, leases and callbacks; any violation of the protocol recovers when nothing was posted and poisons otherwise, failing every retained job |
| `BatchClients.BatchWorkerClient.Finish` | src/batch/client.ts:241-271 | leases and slot go, the next job is activated, then the callback runs |
| `BatchClients.BatchWorkerClient.FailUnexpectedly` | src/batch/client.ts:273-306 | every retained job is called back with the poison error, in order |
| `BatchClients.BatchWorkerClient.FailProtocol` | src/batch/client.ts:308-314 | recover if nothing is dispatched, poison otherwise |
| `BatchClients.BatchWorkerClient.RecoverUndispatched` | src/batch/client.ts:316-349 | every retained job becomes a due callback, leases and slot are released |
| `BatchClients.BatchWorkerClient.WorkerError` | src/batch/client.ts:145-165 | an error of the current Worker recovers or poisons |
| `BatchClients.BatchWorkerClient.ApplyDeltas` | src/batch/client.ts:377-393 | all deltas apply, or one is malformed or duplicate |
| `BatchClients.BatchWorkerClient.HasEveryResult` | src/batch/client.ts:395-401 | true exactly when every operation has a result |
| `BatchWorkers.WorkerScope.HandleStart` | src/batch/worker.ts:26-37 | a second start ends the Worker |
| `BatchWorkers.WorkerScope.FinishInitialize` | src/batch/worker.ts:51-73 | ready is posted exactly when initialization succeeds |
| `BatchWorkers.WorkerScope.RunJob` | src/batch/worker.ts:75-108 | one progress message per result, then `complete` exactly when begin, fold and commit succeed; a hard failure answers nothing |
| `BatchClientLemmas.HandledKeeps` | src/batch/client.ts:184-239 | whatever a Worker sends, shape, order of jobs and the posted record are kept |
| `BatchClientLemmas.DeltasApplied` | src/batch/client.ts:377-393 | the results of a message are applied exactly when each is a safe integer for another operation that has none yet, and then exactly those are filled in |
| `BatchClientLemmas.FailAllAt` | src/batch/client.ts:273-306 | each job of the list is called back in its place with the failure and no results |
| `BatchClientLemmas.FinishedKeeps` | src/batch/client.ts:241-271 | finishing keeps them through the activation of the next job |
| `BatchClientLemmas.EnqueuedKeeps` | src/batch/client.ts:69-106 | enqueueing keeps them |
| `BatchClientLemmas.FailedProtocolKeeps` | src/batch/client.ts:273-349 | recovery and poisoning keep them |
| `BatchDeliveryLemmas.DeliverStep` | src/batch/client.ts:184-239 | no message of a Worker following the protocol poisons the environment |
| `BatchRuns.NextKeeps` | src/batch/client.ts:121-349 | every step of client, Workers, channels and other writers keeps the system invariant |
| `BatchRuns.ReachableOk` | src/batch/client.ts:121-349 | it holds after any run |
| `BatchRuns.CallbacksInOrder` | src/batch/client.ts:241-349 | callback i is that of the i-th job; called back, due and retained jobs are all jobs, in order; leases are held exactly for retained jobs |
| `BatchRuns.CallbacksGrow` | src/batch/client.ts:241-349 | a callback made is never taken back |
| `BatchRuns.NeverPostedLater` | src/batch/client.ts:316-349 | a job failed by recovery is never posted, before or after |
| `BatchRuns.WritersExclude` | src/internal/native_state.ts:487-531 | a Worker's native write transaction excludes every other writer, poisoned or not |
| `BatchDispatch.RecoversIff` | src/batch/client.ts:316-349 | a client fails its retained jobs undispatched exactly for a taken slot, a throwing start or post, or a Worker lost before it was given a job |
| `BatchDispatch.RecoveredIsToldSo` | src/batch/client.ts:338-349 | a recovered job is called back in its turn with the error that it was not dispatched |
| `BatchDispatch.AnswerStepEffect` | src/batch/client.ts:241-271 | the answered job is called back, and the next queued one has been posted to the same Worker |
| `BatchDispatch.NeverTurnedAway` | src/batch/client.ts:121-131 | over any run without host faults, error events and other writers no callback is ever that of an undispatched job |
| `BatchDispatch.SmoothRun` | src/batch/client.ts:69-271 | over any favourable run every job called back was served, none failed |
| `BatchDispatch.SmoothRunsServeAll` | src/batch/client.ts:69-271 | such a run that cannot be made longer has served every job, and its Worker is idle |
| `BatchDispatch.ServingRun` | src/batch/client.ts:69-271 | from every state it reaches there is a continuation that serves every job |
| `BatchDispatch.IdleIsSmooth` | src/batch/client.ts:69-106 | a favourable run may start from any reachable state with an idle client, the slot free for batches and no dead Worker |
| `BatchDispatch.InitiallySmooth` | src/batch/client.ts:43-55 | a favourable run may start from a new client without a Worker |
| `BatchDispatch.IdleBatchServed` | src/batch/client.ts:69-131 | a batch enqueued on an idle client, new or with a running Worker, is called back without error, committed as requested with its fold's results, on the same Worker if there was one |
| `BatchRuns.CallbacksTellTheTruth` | src/batch/client.ts:184-271 | no error means that the very request enqueued under that number was committed, exactly once, with the fold's results, as a link of the chain of database changes; Worker error and not dispatched mean not committed |
| `BatchRuns.WorkerRefinesCallingThread` | src/env.ts:370-441 | for every callback without error there is a script under which the calling thread, on that job's request and the database its commit found, reports no error, the same results and the same database |
| `BatchHistory.CommitsWereAsked` | src/batch/client.ts:69-106 | over any run each commit is of the operations its job was enqueued with |
| `BatchHistory.RunChanges` | src/batch/worker.ts:75-108 | over any run the database is the first one with every change applied in turn, and the batches among the changes are the commits |
| `BatchSystem.CodesAreFixed` | src/types.ts:218-227 | the four results travel as the numbers 0 to 3, each as its own |
| `BatchRuns.PoisonedIff` | src/batch/client.ts:145-165 | poisoned exactly when the current Worker fails while a job is dispatched and unanswered |
| `BatchRuns.PoisonIsAbsorbing` | src/batch/client.ts:273-306 | after poison nothing is posted, started or begun in the parent |
| `BatchRuns.OpenTransactionIsIsolated` | src/batch/worker.ts:75-108 | the database does not change under an open transaction but by its own commit |
| `BatchExamples.OperationsRun` | src/batch/worker.ts:75-108 | stepping through a job's operations is running the fold over them |
| `BatchExamples.JobSucceeds` | src/batch/client.ts:184-271 | in any reachable state a job LMDB accepts, whose Worker does not fail, is called back next with the results of its fold and committed once, whatever is queued behind it |
| `BatchExamples.BatchSucceeds` | src/batch/client.ts:69-106 | the first batch of a new client, if LMDB accepts it, is called back with the results of its fold and committed once |
| `BatchJobs.StepsAreRunJob` | src/batch/worker.ts:75-108 | step by step a Worker sends and leaves what `RunJob` does, whether the begin, an operation, the commit or nothing fails |
| `BatchJobs.StepsOfHardFailure` | src/batch/worker.ts:75-108 | the deliberate hard failure sends nothing and leaves a dead Worker with its transaction open |
| `BatchTermination.InternalStepDescends` | src/batch/client.ts:121-349 | every effective step of the protocol lowers a measure |
| `BatchTermination.InternalRunsEnd` | src/batch/client.ts:121-349 | so no run of such steps is longer than the measure |
| `BatchTermination.CurrentGoesOn` | src/batch/client.ts:121-349 | while a job is retained the current Worker's next step, whatever LMDB and the host answer, does something; a failure report is needed only for a dead or hanging Worker |
| `BatchTermination.OrdinaryRunsFinish` | src/batch/client.ts:121-349 | any run of ordinary steps that cannot be made longer has called every job back, holds nothing, and leaves its Worker idle |
| `BatchTermination.FinishingRun` | src/batch/client.ts:121-349 | from every state there is a run of ordinary steps after which everything is called back |
| `CursorCache.CursorCaches.Navigate` | src/cursor.ts:447-475 | what is found is cached, anything else empties the cache without fallback |
| `CursorCache.CursorCaches.GetCurrent` | src/cursor.ts:477-510 | exact outcome, and a record returned is what an uncached read returns now |
| `CursorCache.CursorCaches.Delete` | src/cursor.ts:402-423 | siblings lose their caches before the native delete, this cursor also its fallback |
| `CursorCache.CursorCaches.CloseCursor` | src/cursor.ts:437-445 | a closed cursor holds no record |
| `CursorCache.CursorCaches.InvalidateForWrite` | src/internal/native_state.ts:1200-1207 | nothing of the transaction stays cached |
| `CursorCache.CursorCaches.NativeUpdate` | src/txn.ts:462-480 | native updates are entered only with nothing cached in their transaction |
| `CursorCache.CursorCaches.Write` | src/txn.ts:331-357 | put, delete and create empty exactly the caches of their transaction, fallback allowed |
| `CursorCache.CursorCaches.Drop` | src/dbi.ts:136-150 | a drop empties the transaction's caches and every cursor on the record; a deleting one closes all wrappers of the record |
| `CursorCache.CursorCaches.CloseDbis` | src/internal/native_state.ts:1049-1053 | closing wrappers empties their cursors |
| `CursorCache.CursorCaches.EndTxn` | src/internal/native_state.ts:1142-1170 | an ended or reset transaction leaves no cached view |
| `CursorCache.Run` | src/cursor.ts:402-528 | over any interleaving a getter that returns something returns what an uncached read would |
| `Descriptors.DescriptorRegistry.Issue` | src/batch/protocol.ts:121-153 | issued exactly below the limit for an open, unpoisoned environment; one token more in use |
| `Descriptors.DescriptorRegistry.CountOutstanding` | src/batch/protocol.ts:128-131 | the loop counts the outstanding descriptors of the capability |
| `Descriptors.DescriptorRegistry.Validate` | src/batch/protocol.ts:163-189 | exact acceptance; an authenticated descriptor is used up whatever the answer, a clone uses up nothing |
| `Descriptors.DescriptorRegistry.RemoveIssued` | src/batch/protocol.ts:214-220 | record, authenticator, list entry and token go together |
| `Descriptors.DescriptorRegistry.RevokeDescriptors` | src/batch/protocol.ts:105-111 | exactly the environment's descriptors go |
| `Descriptors.DescriptorRegistry.Poison` | src/internal/native_state.ts:206-217 | all earlier descriptors are revoked and the generation changes once |
| `Descriptors.DescriptorRegistry.Retire` | src/internal/native_state.ts:191-198 | the environment's descriptors and its token are released once, other environments are untouched |
| `Descriptors.Run` | src/batch/protocol.ts:98-220 | over any run each descriptor validates at most once, and live tokens are descriptors plus generations not retired |
| `Descriptors.IssueKeeps` | src/batch/protocol.ts:143-152 | issuing keeps tokens, owners, authenticators and the limit of 64 in step |
| `Descriptors.RemoveKeeps` | src/batch/protocol.ts:214-220 | so does removing |
| `Encoding.EncodeString` | src/encoding.ts:11-18 | the loop writes exactly the specified bytes |
| `Encoding.DecodeString` | src/encoding.ts:21-46 | chunked decoding equals unchunked decoding at every length, and rejects exactly the unterminated |
| `Encoding.LittleEndian` | src/encoding.ts:11-18 | each unit's low byte comes first |
| `Encoding.EncodedEnds` | src/encoding.ts:11-18 | an encoding ends with a zero unit |
| `Encoding.DecodeEncoded` | src/encoding.ts:11-46 | every sequence of code units survives the round trip |
| `Encoding.EncodeDecoded` | src/encoding.ts:11-46 | every accepted byte sequence is the encoding of its decoding |
| `Encoding.Uint32RoundTrip` | src/encoding.ts:99-120 | every unsigned 32-bit number survives the round trip |
| `Encoding.Uint32RoundTripBack` | src/encoding.ts:99-120 | every four bytes survive it the other way |
| `Encoding.Uint32LittleEndian` | src/encoding.ts:99-120 | the lowest byte of a number comes first |
| `Encoding.FlagsOnlyFilter` | src/encoding.ts:73-96 | key flags decide acceptance, never the bytes |
| `Encoding.KeysRoundTrip` | src/encoding.ts:72-96 | a key of any kind is read back from its bytes, and only numbers that are not of 32 bits have none |
| `Encoding.KeysAreInjective` | src/encoding.ts:73-96 | two keys of one kind with the same bytes are equal |

## Left out

- Library loading, the FFI symbol table, pointers and scratch `MDB_val` storage: foreign calls, replaced by the machine in `NativeLmdb.dfy` and the scripted calls in `BatchExecutor.dfy`.
- LMDB's trees, snapshots, comparators, duplicates and put flags: the database is a map, and a call that LMDB may refuse is refused by an arbitrary script.
- Native handle identity is that of the wrapper that holds it, and a deferred database close is made when the record is finalised instead of at the end of the calling function.
- The main (unnamed) database is treated like any other, so that creating a database does not count as a modification; a put that LMDB refuses modifies nothing.
- `EnvClose` in `NativeLmdb.dfy` records the databases still open instead of faulting on them, since every `Env.close` with an open database would (see Findings).
- A deleting drop may follow a modification by its own transaction: LMDB's rule on modified databases is read as one about the other transactions.
- The graph is one field of its object: with one field per table the solver's resources do not suffice. Loops and updates in place are kept; aliasing between tables is by identity, not by reference.
- Weak references and garbage collection: a finalizer may run at any time.
- `Env.open` and `Env.close` of a wrapper that never opened, path canonicalisation, option validation, error texts, error serialisation, statistics, version probing.
- PublicOperations.OpenDbi: the branch in which registration throws after the commit is left out, registration of a handle LMDB returned cannot fail.
- PublicOperations.PoisonEnvironment: the invariant is claimed for a live environment only, since a batch client is closed before its environment is retired.
- PublicOperations.CloseEnvironment: of the tables of databases and cursors it says what stays, the invariant says the rest; that it makes no forbidden call is claimed for any order of the aborts, which is stricter than the order of insertion.
- EnvironmentRuns.Run: calls outside `Permitted` are skipped, namely those that lose the invariant (see Findings) and those with identities in use.
- The batch system has its own writer slot, leases and poison flag, not those of the ownership graph; messages are abstract and putFlags are not carried.
- User code in progress callbacks does not alter the results array it is shown.
- BatchWorkers.WorkerScope.RunJob: progress messages are posted when the synchronous run is over, in the order in which results completed.
- CursorCache.CursorCaches.Navigate: LMDB is taken at its header's word that a successful read returns both key and data; views handed to user code are not tracked.
- Descriptors.DescriptorRegistry.Poison: revokes before it sets the flag, which nothing can observe.
- IEEE-754 and boolean values, decoding of keys for the user, `NaN` and infinities as numeric keys, key-kind inference of the batch options.
