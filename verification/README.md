# CubeSQL Go driver: ownership, transactions and binding

This project models the three layers of the CubeSQL Go driver and proves what they keep together: the safe core
(`cubesql`), the private native layer under it (`internal/csdk` with its C bridge) and the `database/sql` adapter on top
(`database/cubesql`).

| file | what it models |
|---|---|
| `Interleaving*.dfy` | any number of goroutines sharing one core connection, as a step system over mutexes and native calls |
| `NativeLocks.dfy`, `AdapterLocks.dfy` | the mutexes of the native layer under that step system, and those of the adapter over it |
| `Session.dfy`, `AdapterProtocol.dfy`, `AdapterRuns.dfy`, `AdapterHistory.dfy`, `AdapterTheorems.dfy`, `AdapterCommits.dfy`, `AdapterFates.dfy` | the adapter over an abstract server session, one step a driver call, and what whole runs guarantee |
| `SafeCore.dfy` | `Conn`, `Stmt`, `Rows` and `Tx` as classes, method by method |
| `Layers.dfy`, `CallTraces.dfy`, `CoreShapes.dfy` | what one operation changes and which native calls it makes, proved of the step system, and the former of the classes too |
| `SqlAdapter.dfy`, `AdapterCalls.dfy` | the adapter as classes, each method one step of `AdapterProtocol`; and any list of calls on them, a run of it |
| `Native.dfy`, `NativeBind.dfy` | `csdk.Conn`, `Stmt`, `Rows`, `Bind` and contexts |
| `BindGraph.dfy`, `BindRuns.dfy` | the C bind graph on an explicit heap, and its whole life |
| `Parameters.dfy`, `IntegerText.dfy`, `Cursor.dfy`, `ReadBack.dfy`, `Errors.dfy`, `Basics.dfy` | argument meaning, integer text, the cursor automaton and its drain, bound values read back, error kinds |

## How the parts fit

`SafeCore` proves each core method against the ownership invariant `Conn.Valid` and against the session relations of
`Session.dfy` (`CoreExec`, `CoreBegin`, `CoreFinishTx`, ...). `AdapterProtocol.Step` composes those relations into driver
calls; every method of `SqlAdapter` ensures its `Step` and leaves every driver.Tx and the cursor fit for further calls, and
`AdapterCalls.Live` puts any list of calls together: what it ensures is a run, so the theorems of `AdapterTheorems`,
`AdapterCommits` and `AdapterFates` speak about these methods. `link.lapses` in `SafeCore` counts native calls, closes excepted, that no passed
context check cleared since the native call before; that a method leaves it unchanged is the preflight discipline. `Answered(err)` under a background context
says that a method passed its guards and reports what the native layer said; `Attempted(err)` says the same of a method whose
arguments may be refused too. `ReadBack` joins the two ends, what is bound and what a column converts to.

`Interleaving` restates the same methods as steps, because what it proves is about their interleavings. `Layers` and `CoreShapes`
join the two: an uninterrupted operation of the one and the method of the other change the open flag, the transaction, the statement
and the cursor in the same way. The transition functions of `Interleaving` follow the source: `ConnGuard`, `NextInConn`, `NextTemp`,
`NextResult` and `NextHandle` are cubesql/conn.go 40-57 and 79-276; `NextBoundary` and `NextTx` are cubesql/tx.go 19-89 and 164-204; `NextEnterStmt` to `NextResetPrepare` are
cubesql/stmt.go 20-257; `NextEnterRows` to `NextOwed` are cubesql/rows.go 122-148 and cubesql/stmt.go 237-257; the public
metric calls and Ping are cubesql/conn.go 290-316. A goroutine blocked behind a waiting writer counts as blocked, as Go's
`RWMutex` has it. `NativeLocks` adds the mutexes of `csdk.Conn` and `csdk.Bind` below, and `AdapterLocks` shows that every path
through every adapter method is such a run, so the theorems hold with the adapter on top.

## Environment assumptions

- A native call returns, with any result. A native close destroys its handle whatever it reports
  (internal/csdk/csdk.go 428-434, internal/csdk/bridge.c 372-381).
- A native commit or rollback that reports an error applied all pending work or none of it. Error 7030 from a rollback means
  that no database is selected, hence that nothing is pending. A native begin that reports an error gives the client no transaction.
- A native execution that succeeds adds its statement to the pending work; one that fails may have.
- SQL text is opaque: it does not begin, commit, roll back or change database.
- A native seek is `cubesql_cursor_seek` on a client-side cursor, which starts at row 1 and takes -2 to -5 for next, first, last and
  previous; it may fail without effect. Row and column counts come from C ints.
- The SDK may overwrite the three arrays handed to `cubesql_bind` in any way; it reads the value buffers, numbers and text with
  their terminator, but does not write or free them.
- `database/sql` makes the calls on one driver connection one at a time.
- Finite doubles are identified with the text `%.17g` prints for them.

## What turned out not to hold

- Transactions are atomic over every run in which no call follows a failed `Close` (`AllOrNothing`), which is how `database/sql`
  uses a connection. With calls after a failed `Close` they are not: `Close` forgets `activeTx` even when its rollback reported an
  error, without breaking the connection, and a statement may then run under the half-finished transaction
  (`CloseCanSplitATransaction`). `CloseSplitsExactly` says when this can happen, both ways, by what the caller of `Close` can see: an
  active transaction with unresolved statements on a usable open connection without children. It holds at every state before the
  first failed `Close` (`RunSplitsExactly`), and nothing else splits a transaction in any run (`SplitNeedsFailedClose`).
- A `Commit` that returns nil need not mean that the transaction is durable. A `ResetSession` or `Close` rolls back the active
  transaction; when that took effect but reported an error, the driver.Tx can still commit what is left, with nil.
  `NilCommitLosesExactly` says when, both ways; without such an error a nil `Commit` is durable (`NilCommitIsDurable`, in every run).
- An `Exec` that reports an error may be durable. Its automatic commit can take effect and report an error; exactly when the call had to
  commit by itself (`FailedExecIsDurableExactly`). Or its statement stays pending, and becomes durable exactly by an `Exec` with an
  automatic commit or the own `Commit` of the live transaction (`PendingBecomesDurableExactly`, over runs `DurableByACommit`; an example
  is `FailedExecMayBecomeDurable`). A reset that returns nil ends that (`PendingBeforeResetIsGone`).
- Lengths and row numbers are converted to C ints. A `ZeroBlob` of 2^32 bytes is bound as an empty BLOB (`HugeZeroBlobIsEmpty`), and
  `Seek(2^32 + 1)` can succeed and leave the cursor past its end, as can `Seek(2^32 - 3)`, which the SDK takes for "first"
  (`SeekWrapsAround`). `TruncatedIsDenoted`, `SeekLandsExactly` and `SeekMissesExactly` give the exact conditions.
- `Connect` selects no database when none is configured, while `ResetSession` always calls `SetDatabaseContext`, with the empty name
  then; in terms of the selected database the two agree (`ResetRefinesConnect`).

## Model

| member | source | states |
|---|---|---|
| `InterleavingTheorems.ResultsAreExclusive` | cubesql/conn.go:322-337 | in every interleaving of any number of goroutines, the metrics read for a Result follow their own execution with no native call of anyone between |
| `InterleavingTheorems.HoldersAreApart` | cubesql/conn.go:12-17 | in every run no two goroutines hold a mutex of the core or of the adapter in conflicting modes |
| `InterleavingTheorems.CountsCoupled` | cubesql/conn.go:348-370 | between operations `cubesql.Conn.children`, `csdk.Conn.children` and the number of live statements and open cursors are the same |
| `InterleavingTheorems.UncountedOnlyUnderConn` | cubesql/stmt.go:149-160 | in the middle of operations, a handle that is live while `children` is 0 belongs to a goroutine that holds `conn.mu` for it |
| `InterleavingTheorems.HoldersAreBusy` | cubesql/conn.go:201-216 | whoever is responsible for a handle is inside an operation; while the handle is not counted that goroutine is inside `conn.mu`, or the handle is a cursor drawn by `Stmt.query` under its own, counted statement |
| `InterleavingTheorems.SingleVm` | cubesql/stmt.go:194-219 | in every reachable state, halfway through Reset and the empty-BLOB path included, at most one prepared VM and one cursor are live and `children` is at most 2 |
| `InterleavingTheorems.LiveShape` | cubesql/conn.go:264-275 | two handles are live together only as a statement and its own cursor |
| `InterleavingTheorems.DefensiveBranchesAreDead` | cubesql/conn.go:361-370 | the clamp in `releaseChild`, a failing `addChild`, native `ErrBusy` from Close, the closed and inactive checks in `finish`, and a busy `releaseRow` are never reached |
| `InterleavingTheorems.NoHandleCrossesBoundary` | cubesql/conn.go:91-97 | every live statement and cursor was opened in the current transaction and database epoch |
| `InterleavingTheorems.TxActiveMeansOneTx` | cubesql/tx.go:31-41 | `txActive` holds exactly when one unfinished Tx exists, and it is the only one |
| `InterleavingTheorems.OnlyTheOwnerFinishes` | cubesql/tx.go:76-81 | from its Begin to its successful finish, only the Tx itself can issue Commit or Rollback, and nothing can issue SetDatabase, Begin or a disconnect |
| `InterleavingTheorems.FinishesOnce` | cubesql/tx.go:171-204 | a Tx completes successfully at most once |
| `InterleavingTheorems.RankRises` | cubesql/stmt.go:123-162 | a goroutine that holds a mutex and waits for another waits for one of higher rank |
| `InterleavingTheorems.DeadlockFree` | cubesql/stmt.go:237-257 | in every reachable state with an operation in progress some busy goroutine is not blocked by the mutexes of core and adapter, waiting writers included |
| `InterleavingTheorems.UnblockedCanStep` | cubesql/stmt.go:222-235 | a busy goroutine that is not blocked has a step that changes its own state |
| `InterleavingSafety.ApartIsExclusion` | cubesql/conn.go:12-17 | the per-thread form of mutual exclusion says exactly that no mutex is held in conflicting modes |
| `InterleavingRuns.InvStep` | cubesql/conn.go:348-370 | one step of any goroutine keeps the whole invariant: locks, responsibility for handles, counts, epochs, ownership, trace |
| `InterleavingRuns.Reachable` | cubesql/conn.go:19-38 | the invariant holds in every state of every run from a freshly opened connection |
| `NativeLocks.FullReachable` | internal/csdk/csdk.go:290-314 | adding the mutexes of `csdk.Conn` and `csdk.Bind`, taken around native calls and nested in a one-shot execution: every reachable state keeps the whole invariant, and one goroutine at most is inside `csdk.Conn.mu` |
| `NativeLocks.FullDeadlockFree` | internal/csdk/csdk.go:299-305 | in every reachable state with an operation in progress some busy goroutine is not blocked, the two native mutexes included |
| `NativeLocks.FullUnblockedCanStep` | internal/csdk/csdk.go:290-314 | a busy goroutine that no mutex of any layer blocks has a step that changes where it stands |
| `AdapterLocks.MethodIsLegal` | database/cubesql/conn.go:32-189 | every adapter method, with any number of bind and column steps and the `Columns` and `ColumnTypes` of `newRows`, takes its mutexes in rank order around its core operations |
| `AdapterLocks.ShorterIsLegal` | database/cubesql/conn.go:149-171 | so does every shorter path through it: early returns, untaken branches, shorter loops |
| `AdapterLocks.CoreCallsAreCovered` | database/cubesql/conn.go:149-189 | on every path through a method, each core operation is asked for while the connection mutex of the adapter is held (for Commit and Rollback, the mutex of the driver.Tx) |
| `AdapterLocks.OperationEndsAsWritten` | database/cubesql/tx.go:48-57 | in every interleaving, an operation such a path asks for ends, if it ends, with exactly the adapter mutexes the path says, and until then holds those it was started with |
| `AdapterLocks.OperationRuns` | database/cubesql/conn.go:100-109 | a goroutine that nobody hinders carries an admitted operation through by its own steps, with every native call going well or by giving up |
| `AdapterLocks.EveryPathRuns` | database/cubesql/tx.go:18-57 | every path through every adapter method, each of its operations going well or given up as the path says, is realised by steps of the core: any run with the other goroutines between operations continues with it, and nothing is held at its end |
| `Layers.UninterruptedOperation` | cubesql/stmt.go:20-220 | an operation of the step system that is not interrupted, whatever the other goroutines are in the middle of, either fails and changes nothing that a connection owns (a failed Reset may close its statement) or changes exactly what it should; if its guards hold and nothing fails it succeeds |
| `Layers.CarriedSucceeds` | cubesql/conn.go:104-179 | an operation that a path asks to go well executes or crosses its boundary and has its effect, in every state its guards let through, which are those of `GuardsExactly` |
| `Layers.DoableExactly` | cubesql/conn.go:104-121 | what can be done at all, by what is open: executing, querying and preparing with a transaction open too; closing, changing database and finishing without a Tx only when nothing is |
| `Layers.GuardsExactly` | cubesql/conn.go:193-203 | in every reachable state the guards let an operation through if and only if it can be done there, and is asked of the live transaction, statement or cursor; for a statement, while no goroutine is halfway through opening or closing a cursor |
| `Layers.RefusedChangesNothing` | cubesql/tx.go:64-89 | an operation whose guards do not hold makes no native call and changes nothing |
| `Layers.GivenUpChangesNothing` | cubesql/context.go:5-15 | an operation other than a close whose context has ended changes nothing |
| `Layers.ExecPathCommits` | database/cubesql/conn.go:149-171 | on a free connection the good path of Exec executes its statement, then commits, and leaves the connection as it was |
| `CallTraces.CallsExactly` | cubesql/conn.go:104-155 | whatever the other goroutines are in the middle of, an operation whose guards hold and that goes well makes exactly its native calls, in their order: an execution and then its two metric reads, with or without a temporary statement prepared and bound before and closed after; a query and the description of its cursor; the old VM closed before the new one is prepared; the commit or the rollback that was asked for; the statement closed after its cursor exactly when it goes along |
| `CallTraces.ExecPathCalls` | database/cubesql/conn.go:149-171 | the good path of Exec on a free connection makes one execution, reads its two metrics at once and then commits; no other call but those of a temporary statement |
| `CoreShapes.Exec` | cubesql/conn.go:104-179 | the class method changes what the connection owns as the operation of the step system does |
| `CoreShapes.Prepare` | cubesql/conn.go:249-276 | the same for Prepare |
| `CoreShapes.QueryPlain` | cubesql/conn.go:193-216 | the same for a query without arguments |
| `CoreShapes.QueryPrepared` | cubesql/conn.go:218-242 | a query with arguments is a preparation and a statement query that closes with its cursor, or it changes nothing |
| `CoreShapes.Close` | cubesql/conn.go:40-57 | the same for Close of an open connection |
| `CoreShapes.Begin` | cubesql/tx.go:19-42 | the same for Begin |
| `CoreShapes.FinishImplicit` | cubesql/tx.go:64-89 | the same for Commit and Rollback without a Tx |
| `CoreShapes.FinishTx` | cubesql/tx.go:164-204 | the same for Commit and Rollback of a Tx |
| `CoreShapes.CloseStmt` | cubesql/stmt.go:20-40 | the close of a live statement without cursor is done whatever it reports |
| `CoreShapes.QueryStmt` | cubesql/stmt.go:116-163 | the same for a statement query; after a failure its statement may be closed by an operation of its own |
| `CoreShapes.Reset` | cubesql/stmt.go:171-220 | the same for Reset, which on failure may close its statement |
| `CoreShapes.CloseRows` | cubesql/rows.go:122-148 | the close of an open cursor is done whatever it reports, and takes the statement along exactly when asked |
| `AdapterRuns.RanKeepsWhole` | database/cubesql/conn.go:158-163 | a statement keeps every transaction in one piece unless it is applied under a transaction part of whose work is already resolved, and then it does not |
| `AdapterRuns.ApplyKeepsWhole` | cubesql/tx.go:190-201 | resolving all pending work at once, also with an error reported, keeps every transaction in one piece |
| `AdapterRuns.StepKeeps` | database/cubesql/conn.go:149-171 | every driver call keeps the adapter invariant (a non-nil `activeTx` is the live core Tx; logs ordered and disjoint; transactions in one piece), and only a failed Close can expose a connection |
| `AdapterTheorems.RunSteady` | database/cubesql/conn.go:149-189 | the adapter invariant holds in every state of a run that executes nothing on an exposed connection |
| `AdapterTheorems.RunUnexposed` | database/cubesql/conn.go:50-70 | in a run without calls after a failed Close no connection is exposed while a call follows |
| `AdapterTheorems.AllOrNothing` | database/cubesql/tx.go:18-46 | over any run in which no call follows a failed Close: once one statement of a transaction is durable, every statement run under it is |
| `AdapterTheorems.PoolNeverExposes` | database/cubesql/conn.go:50-70 | never using a connection after Close, as the pool does, keeps it unexposed |
| `AdapterTheorems.AtomicityExactly` | database/cubesql/conn.go:60-63 | an Exec or a Query can split a transaction if and only if the connection is usable and open without children and its live transaction already has resolved work, which the server alone can see |
| `AdapterTheorems.CloseCanSplitATransaction` | database/cubesql/conn.go:60-69 | a concrete run with calls after a failed Close in which one statement of a transaction is dropped and another becomes durable |
| `AdapterTheorems.CloseExposes` | database/cubesql/conn.go:60-69 | a Close can leave the connection usable over a transaction with resolved work only if it was called with an active transaction that had unresolved statements, on a usable open connection without children, and it reported an error |
| `AdapterTheorems.CloseSplitsExactly` | database/cubesql/conn.go:60-69 | a Close and one more Exec or Query can split a transaction if and only if at the Close the connection is usable, open and without children, and its active transaction has unresolved statements |
| `AdapterTheorems.SteadySoFar` | database/cubesql/conn.go:149-189 | in every run, up to the first failed Close, the adapter invariant holds and the connection is not exposed |
| `AdapterTheorems.RunSplitsExactly` | database/cubesql/conn.go:50-70 | the exact condition at every state of every run up to its first failed Close |
| `AdapterTheorems.SplitNeedsFailedClose` | database/cubesql/conn.go:50-70 | in every run whatever, a split transaction comes from a failed Close of a connection in that condition and an Exec or Query after it |
| `AdapterTheorems.DurableInIssueOrder` | database/cubesql/conn.go:149-171 | in every run, durable work is in the order it was issued and no dropped work is durable |
| `AdapterHistory.StepLater` | database/cubesql/conn.go:149-171 | no driver call loses work, makes durable work undone, adds durable work without issuing a commit, or gives a transaction number twice |
| `AdapterTheorems.RunLater` | database/cubesql/conn.go:120-142 | the same over any stretch of a run |
| `AdapterTheorems.OnlyItsOwnCommit` | database/cubesql/tx.go:18-34 | while a core transaction is live, no commit is issued and nothing becomes durable except through that transaction's own Commit |
| `AdapterTheorems.ResetSucceeds` | database/cubesql/conn.go:120-142 | from any state at all, a ResetSession that returns nil leaves the configured database, nothing pending, no transaction, no children, `activeTx` nil and the connection unbroken |
| `AdapterTheorems.ResetRefinesConnect` | database/cubesql/driver.go:46-61 | after a ResetSession that returns nil the connection equals a newly connected one in everything but its history |
| `AdapterTheorems.PendingBeforeResetIsGone` | database/cubesql/conn.go:133-136 | work pending when a connection was reset never becomes durable later in the run |
| `AdapterCommits.NilCommit` | database/cubesql/tx.go:18-34 | a Commit that returns nil makes durable what was pending and leaves nothing of the transaction pending; all of it is durable if and only if none of it was dropped before |
| `AdapterCommits.StepDrops` | database/cubesql/conn.go:50-70 | every call that drops work of a transaction ends it, or is a Close or ResetSession that abandons it |
| `AdapterCommits.NilCommitLosesExactly` | database/cubesql/conn.go:120-142 | a transaction that has lost nothing so far can lose work in one call and still commit with nil if and only if the call is a Close or ResetSession with it active and statements of it unresolved, on an open connection without children |
| `AdapterCommits.NilCommitLost` | database/cubesql/conn.go:120-142 | in every run, a transaction that committed with nil has lost work if and only if an earlier Close or ResetSession that abandoned it reported an error and did drop work of it |
| `AdapterCommits.NilCommitIsDurable` | database/cubesql/tx.go:18-34 | in every run without such an error, a nil Commit makes every statement ever run under the transaction durable, for good, and none is run later |
| `AdapterTheorems.BadConnIsSafe` | database/cubesql/conn.go:221-229 | a call that returns `driver.ErrBadConn` has issued neither an execution nor a commit |
| `AdapterTheorems.AttemptIssues` | database/cubesql/conn.go:149-189 | one attempt at a statement issues at most one execution, none when it says retry, one when an Exec succeeds |
| `AdapterTheorems.AtMostOnce` | docs/adr/0005-database-sql-adapter.md:33-35 | for any number of retries on exactly `driver.ErrBadConn`, over any connections in any states, a statement is executed at most once |
| `AdapterTheorems.AutomaticCommit` | database/cubesql/conn.go:164-170 | a successful Exec outside a transaction makes durable what was pending, then its own statement, and leaves nothing pending |
| `AdapterTheorems.NoCommitInside` | database/cubesql/conn.go:158-170 | inside an active transaction an Exec commits nothing, and a successful one adds its statement to that transaction |
| `AdapterTheorems.NoExecutionWithoutCommit` | database/cubesql/conn.go:164-168 | when no commit was issued, the execution itself failed or never happened and the caller was told: cancellation cannot separate an execution from its commit |
| `AdapterTheorems.FailedExecMayBecomeDurable` | database/cubesql/conn.go:164-168 | a concrete run in which a statement whose automatic commit failed stays pending, and a later success on the session makes it durable |
| `AdapterTheorems.FailedExecIsDurableExactly` | database/cubesql/conn.go:164-170 | an Exec that reports an error can have made its statement durable if and only if the connection was usable, open, without children and without any transaction, so that it had to commit by itself |
| `AdapterTheorems.CommitsGuard` | database/cubesql/conn.go:149-171 | no call makes anything durable except such an Exec and the own Commit of the live transaction on an open connection without children |
| `AdapterTheorems.PendingBecomesDurableExactly` | database/cubesql/tx.go:18-34 | unresolved work, of failed statements too, can become durable by the next call if and only if that call is such an Exec or such a Commit |
| `AdapterTheorems.DurableByACommit` | database/cubesql/conn.go:164-170 | in every run, work that was pending and is durable later became so during such an Exec or such a Commit, and was pending until then |
| `AdapterFates.FinishBreaksExactly` | database/cubesql/tx.go:24-29 | a driver.Tx finished for the first time, by Commit or by Rollback, leaves its connection broken if and only if it was broken or the caller got any error, one that the rollback after a failed commit made up for included |
| `AdapterFates.ObservedBreaksExactly` | database/cubesql/conn.go:205-219 | Begin, Exec, Query, Next and the close of a cursor break the connection if and only if they return a closed, network, protocol or timeout error |
| `AdapterFates.RetriedBreaksExactly` | database/cubesql/conn.go:221-229 | Prepare and Ping of a usable connection change nothing but its usability, break it if and only if they return `driver.ErrBadConn`, and never show a breaking error |
| `AdapterFates.ResetBreaksExactly` | database/cubesql/conn.go:120-142 | ResetSession breaks a usable connection if and only if it fails, and then says retry; Close breaks nothing |
| `AdapterFates.UnusableRefuses` | database/cubesql/conn.go:205-212 | a closed or broken connection answers retry (or a refusal of the arguments) and nothing happens to it |
| `AdapterFates.UsableIsTried` | database/cubesql/conn.go:173-189 | Exec, Query and Begin of a usable connection never say retry |
| `AdapterFates.BrokenStays` | database/cubesql/conn.go:111-118 | in every run a broken connection stays broken |
| `AdapterFates.CloseLetsGoExactly` | database/cubesql/conn.go:64-69 | Close lets go of the core connection if and only if that has closed, and returns nil only then |
| `AdapterFates.RunKnowsItsTx` | database/cubesql/conn.go:86-97 | in every run up to the first failed Close, the adapter has an active transaction if and only if the core has, the same one |
| `AdapterFates.FinishedOnce` | database/cubesql/tx.go:18-22 | in every run, a driver.Tx that was committed or rolled back once answers ErrTxDone for good and does nothing |
| `AdapterCalls.Client.Ask` | database/cubesql/conn.go:50-189 | any call on the connection, on any driver.Tx it ever gave or on its open cursor is one step of the protocol, after which any call can be made again |
| `AdapterCalls.Client.Begin` | database/cubesql/conn.go:76-98 | the new driver.Tx joins those begun before, and it and all of them can still be committed and rolled back |
| `AdapterCalls.Live` | database/cubesql/driver.go:46-61 | a connection that is made and then asked any list of calls under any contexts, failed, closed and broken connections included, goes through a run of the protocol that answers the list in order |
| `SqlAdapter.NamedValues` | database/cubesql/conn.go:261-271 | converts all arguments in order, or fails exactly when one is named or not convertible |
| `SqlAdapter.CheckedExactly` | database/cubesql/conn.go:231-259 | an argument is refused if and only if it is named, not convertible or of a type the core does not bind; a bool is the integer 1 or 0, anything else is passed on |
| `SqlAdapter.Conn.Prepare` | database/cubesql/conn.go:32-48 | is the Prepare call of the protocol; the statement it makes keeps the text, which the server has accepted; only the server or the arguments make a free, usable connection refuse |
| `SqlAdapter.Conn.Validate` | database/cubesql/conn.go:38-46 | prepares this very text and closes it again, which leaves the core connection as it was |
| `SqlAdapter.Conn.Close` | database/cubesql/conn.go:50-70 | is the Close call of the protocol: `activeTx` is forgotten even when its rollback failed, both errors are joined, and it has closed exactly when no transaction or child is left |
| `SqlAdapter.Conn.BeginTx` | database/cubesql/conn.go:76-98 | is the Begin call of the protocol; options are refused exactly when unsupported, a success is a driver.Tx that can be committed and rolled back, a failure leaves the transaction alone, and a free, usable connection fails only with an error of the server |
| `SqlAdapter.Conn.Ping` | database/cubesql/conn.go:100-109 | is the Ping call of the protocol; a success has asked the server |
| `SqlAdapter.Conn.ResetSession` | database/cubesql/conn.go:120-142 | is the Reset call of the protocol; on a usable connection that knows its transaction and has no children, under a background context, only the server makes it fail |
| `SqlAdapter.Conn.Exec` | database/cubesql/conn.go:149-171 | is the Exec call of the protocol; refuses exactly a list with a named or unconvertible argument; a success has sent the converted arguments by position, with their meaning when every length fits, and returns the metrics of that execution; otherwise only the server or the arguments make it fail |
| `SqlAdapter.Conn.AutoCommit` | database/cubesql/conn.go:164-168 | under a background context the commit is certain to be issued on a free connection, and only the server can refuse it |
| `SqlAdapter.Conn.Observe` | database/cubesql/conn.go:214-219 | breaks the connection exactly for closed, network, protocol and timeout errors |
| `SqlAdapter.Statement.Close` | database/cubesql/stmt.go:18-27 | lets go of the connection |
| `SqlAdapter.Conn.Query` | database/cubesql/conn.go:173-189 | is the Query call of the protocol; refuses exactly a list with a named or unconvertible argument; a success is the live cursor of the connection, over a statement exactly when there are arguments, which were sent by position |
| `SqlAdapter.Conn.FinishTransaction` | database/cubesql/tx.go:48-57 | clears `activeTx` only for its own transaction, and restores the adapter invariant |
| `SqlAdapter.Transaction.Commit` | database/cubesql/tx.go:18-34 | is the Commit call of the protocol: a failed commit is followed by a rollback, breaks the connection, and returns both errors joined; on a connection without children exactly one commit is issued; a further call is possible and gives ErrTxDone |
| `SqlAdapter.Transaction.Rollback` | database/cubesql/tx.go:36-46 | is the Rollback call of the protocol, certain to be issued on a connection without children; a further call is possible and gives ErrTxDone |
| `SqlAdapter.Statement.Exec` | database/cubesql/stmt.go:35-42 | re-enters the connection with the stored text and the arguments, as `Conn.Exec` does, and is ErrClosed once closed |
| `SqlAdapter.Rows.Next` | database/cubesql/rows.go:51-78 | is one delivery of the drain: the converted row, io.EOF, or an error, in the position of the core cursor; an error is the server's, the cursor's own, or that a column of the row does not convert |
| `SqlAdapter.Rows.Fill` | database/cubesql/rows.go:67-76 | fills the destination with the converted columns of the current row in order |
| `SqlAdapter.Rows.Close` | database/cubesql/rows.go:41-49 | gives back the cursor and the statement behind it; idempotent |
| `SqlAdapter.Connect` | database/cubesql/driver.go:46-61 | returns a new, connected, unbroken connection on the configured database, or an error |
| `SafeCore.ResultFor` | cubesql/conn.go:322-337 | metric failures end up in the Result, and metrics without an error are those of the last execution; under a background context only the server fails them |
| `SafeCore.NewRows` | cubesql/rows.go:72-120 | for any number of columns and any failing step: a described cursor, or an error with the native cursor closed and the native count restored; every native call preceded by a passed context check |
| `SafeCore.Conn.constructor` | cubesql/conn.go:25-38 | an opened connection satisfies the ownership invariant |
| `SafeCore.Conn.Close` | cubesql/conn.go:40-57 | closes exactly a connection without children or transaction; native ErrBusy cannot occur |
| `SafeCore.Conn.Ping` | cubesql/conn.go:63-73 | keeps the ownership invariant and the preflight discipline, children or not; a success has asked the server |
| `SafeCore.Conn.SetDatabase` | cubesql/conn.go:79-98 | selects the database only on a free connection; on any guard failure nothing changes |
| `SafeCore.Conn.Begin` | cubesql/tx.go:19-42 | on success the new Tx is the one unfinished transaction |
| `SafeCore.Conn.FinishImplicit` | cubesql/tx.go:64-89 | commits or rolls back all pending work only when no Tx or child stands in the way |
| `SafeCore.Conn.ExecPlain` | cubesql/conn.go:119-127 | at most one native execution, whose outcome is the one reported |
| `SafeCore.Conn.SetAll` | cubesql/conn.go:138-145 | an argument list of any length ends up in the temporary statement position by position |
| `SafeCore.Conn.ExecPrepared` | cubesql/conn.go:128-155 | through a temporary VM that is closed whatever happens |
| `SafeCore.Conn.FillAll` | cubesql/conn.go:165-172 | an argument list of any length ends up in the bind graph position by position; a list longer than a C int holds cannot succeed |
| `SafeCore.Conn.ExecBound` | cubesql/conn.go:156-178 | through a bind graph that is freed whatever happens, which no empty byte slice reaches |
| `SafeCore.Conn.HasEmptyBlob` | cubesql/conn.go:339-346 | true exactly when some argument is an empty byte slice |
| `SafeCore.Conn.Exec` | cubesql/conn.go:104-179 | at most one execution, cleared by a context check, reported as it ended; a context error means none was issued; on both paths the parameters sent denote the arguments; a ZeroBlob succeeds only beside an empty byte slice, and Unsupported is returned only for one without; on an open connection without children only the server or the arguments make it fail; nothing leaks |
| `SafeCore.Conn.Prepare` | cubesql/conn.go:249-276 | the statement becomes the one child, or nothing changes |
| `SafeCore.Conn.QueryPlain` | cubesql/conn.go:193-216 | the cursor becomes the one child, or nothing native stays open |
| `SafeCore.Conn.QueryPrepared` | cubesql/conn.go:218-242 | for any argument list and any failing step, the double close included: a statement that lives with its cursor, or ownership as before |
| `SafeCore.Conn.Query` | cubesql/conn.go:185-243 | a cursor without a statement exactly when there are no arguments, and otherwise over the arguments by position, with their meaning when every length fits; on an open connection without children only the server or the arguments make it fail |
| `SafeCore.Conn.ReleaseChild` | cubesql/conn.go:361-370 | decrements, clamped at zero |
| `SafeCore.Conn.AddChild` | cubesql/conn.go:348-359 | increments unless the connection is closed |
| `SafeCore.Conn.ExactHandles` | internal/csdk/csdk.go:339-353 | under the invariant the native layer holds exactly the handles of the live statement and cursor, at most two |
| `SafeCore.Stmt.Close` | cubesql/stmt.go:20-40 | closes a statement without cursor once, and gives back its share of both counts |
| `SafeCore.Stmt.Bind` | cubesql/stmt.go:42-49 | binds one parameter, or leaves all of them as they were |
| `SafeCore.Stmt.Exec` | cubesql/stmt.go:79-106 | at most one execution with the bound parameters, under both mutexes |
| `SafeCore.Stmt.Query` | cubesql/stmt.go:116-163 | the cursor belongs to the statement and the connection, or both are as before, or with `closeWithRows` the statement is closed; the addChild failure is unreachable |
| `SafeCore.Stmt.QueryOnce` | cubesql/conn.go:222-242 | after any failure statement, cursor and counts are gone |
| `SafeCore.Stmt.Reset` | cubesql/stmt.go:171-220 | on success a fresh VM without parameters; after its guards a failure leaves the statement closed and its child released exactly once |
| `SafeCore.Stmt.ReleaseRow` | cubesql/stmt.go:237-257 | gives back the cursor count and, with `closeStatement`, the statement |
| `SafeCore.Rows.Close` | cubesql/rows.go:122-148 | of an unpublished, published or closed cursor: the handle is closed once, both counts are restored, the statement goes along exactly when asked |
| `SafeCore.Rows.Next` | cubesql/rows.go:181-207 | one step of the cursor automaton, with its sticky error |
| `SafeCore.Rows.Seek` | cubesql/rows.go:213-237 | a success is what the cursor automaton says: the position is the row asked for and the sticky error is cleared; on failure nothing moves |
| `SafeCore.Rows.Value` | cubesql/rows.go:301-316 | a copied cell of the current row; without one, ErrClosed or ErrInvalidArgument as the position says |
| `SafeCore.Rows.Scan` | cubesql/rows.go:268-299 | fills destinations in order from the current row; a failure leaves the remaining ones as they were, and one that is caused by no context, no position, no count and no server is ErrScan at a column that does not convert |
| `SafeCore.Tx.Admit` | cubesql/tx.go:164-189 | on a live transaction the closed and inactive guards never fail |
| `SafeCore.Tx.Finish` | cubesql/tx.go:164-204 | finishes its own transaction once; a failure keeps it owned; under a background context without children the native call is certain |
| `SafeCore.Tx.Exec` | cubesql/tx.go:95-108 | executes under this transaction with the arguments by position and returns the metrics of that execution, or ErrTxDone |
| `Cursor.NextVisitsTheRest` | cubesql/rows.go:181-207 | from any position, Next visits exactly the remaining rows once each in order, then stays at the end |
| `Cursor.SeekThenRest` | cubesql/rows.go:213-237 | after a successful Seek(k) to an int32, iteration visits exactly k+1..total, whatever error was sticky |
| `Cursor.SeekLandsExactly` | cubesql/rows.go:213-237 | a successful Seek stands on a row of the cursor if and only if its argument is below 2^31 |
| `Cursor.SeekMissesExactly` | third_party/cubesql-sdk/cubesql.c:283-301 | which arguments succeed without standing on a row: exactly those from 2^31 on whose low 32 bits are the number of a row, or one of the four relative seeks of the SDK with a row to go to |
| `Cursor.SeekWrapsAround` | internal/csdk/csdk.go:376-392 | Seek(2^32 + 1) and Seek(2^32 - 3) on a one-row cursor succeed and leave it past the end |
| `Cursor.StickyErrorFreezes` | cubesql/rows.go:199-206 | an error keeps the position frozen and every Next false until a Seek succeeds |
| `Cursor.Int64Destination` | cubesql/rows.go:350-356 | an int64 destination takes a printed integer exactly when it is in range, and never a NULL |
| `Cursor.IntegerColumn` | database/cubesql/rows.go:84-89 | an integer column holding a printed int64 is read back as that int64 by both packages |
| `Cursor.ConvertExactly` | database/cubesql/rows.go:67-76 | a row converts if and only if each of its columns does, and then to the conversions in order |
| `Cursor.DrainDeliversTheList` | database/cubesql/rows.go:51-78 | without failures, draining a cursor of any length delivers rows 1..total converted, once each in order, then end-of-file forever |
| `Cursor.DeliveryDecreases` | database/cubesql/rows.go:58-65 | each delivered row decreases `total - current` |
| `Parameters.TruncatedIsDenoted` | cubesql/bind.go:37-63 | an argument reaches the server with its documented meaning if and only if its length fits a C int |
| `Parameters.ListIsDenoted` | cubesql/bind.go:16-63 | the same for whole argument lists |
| `Parameters.HugeZeroBlobIsEmpty` | internal/csdk/csdk.go:477-484 | a ZeroBlob of 2^32 bytes is bound as an empty BLOB |
| `Parameters.IntSlotMeans` | internal/csdk/bridge.c:285-291 | an int64 survives being printed into its slot and read back |
| `NativeBind.SlotMeansArgument` | cubesql/bind.go:16-35 | a filled slot means to the server what its argument says |
| `ReadBack.ReadBackExactly` | database/cubesql/rows.go:79-105 | an argument of any kind that was bound and is stored in a column of a kind for it comes back from the adapter, and from a Scan into `*any`, as the value it was, if and only if its length fits a C int |
| `ReadBack.SlotReadBack` | cubesql/rows.go:390-411 | the same for what a slot of the one-shot graph means |
| `ReadBack.RowReadBack` | database/cubesql/rows.go:67-76 | a row of stored arguments is delivered by the adapter as those arguments, in order |
| `ReadBack.ScanReadBack` | cubesql/rows.go:350-388 | a stored argument scans into the destinations made for its type |
| `ReadBack.RawReadBack` | cubesql/rows.go:366-388 | text and byte destinations take any cell unchanged, whatever the column; unknown destinations take none |
| `ReadBack.NumberReadBack` | cubesql/rows.go:350-365 | integer and float destinations take a cell if and only if it is such a number, whatever the column |
| `ReadBack.NullReadBack` | cubesql/rows.go:322-348 | a NULL is nil, for exactly the destinations that have a nil |
| `ReadBack.WireKinds` | third_party/cubesql-sdk/cubesql.h:100-106 | each Go type goes out under its own bind kind |
| `NativeBind.GoBind.Set` | cubesql/bind.go:16-35 | fills its slot or changes none; Unsupported only for empty byte slices and ZeroBlob |
| `NativeBind.GoBind.Close` | internal/csdk/csdk.go:229-242 | frees the graph once; idempotent |
| `NativeBind.NewGoBind` | internal/csdk/csdk.go:218-227 | a graph of unset slots, or an error and nothing allocated |
| `BindGraph.NewBind` | internal/csdk/bridge.c:257-271 | a graph of unset slots, or null without a leak after any failing allocation |
| `BindGraph.Bind.Close` | internal/csdk/bridge.c:273-283 | frees every block of the graph exactly once, also of a half-built graph |
| `BindGraph.Bind.SetBytes` | internal/csdk/bridge.c:45-72 | a success changes one slot to a copy of the bytes; a failure changes none; memory outside the graph is untouched |
| `BindGraph.Bind.SetInt64` | internal/csdk/bridge.c:285-291 | the length check after printing never fails |
| `BindGraph.Bind.SetDouble` | internal/csdk/bridge.c:293-299 | fails only for a bad index, missing memory, or a text that does not fit |
| `BindGraph.Bind.SetBlob` | internal/csdk/bridge.c:307-312 | an empty BLOB is refused |
| `BindGraph.Bind.AllSet` | internal/csdk/bridge.c:326-328 | true exactly when no slot is unset |
| `BindGraph.Bind.CopyArrays` | internal/csdk/bridge.c:329-341 | three equal copies, or nothing left allocated |
| `BindGraph.Bind.Execute` | internal/csdk/bridge.c:318-347 | whatever the SDK does to the arrays it is given, the retained graph is unchanged and what was sent is its contents |
| `BindGraph.StoreKeepsOwners` | internal/csdk/bridge.c:66-71 | storing a fresh block after freeing the old one keeps one owner per block |
| `BindGraph.TextSurvives` | internal/csdk/bridge.c:285-291 | the text of an integer survives being stored as bytes |
| `BindRuns.Live` | internal/csdk/bridge.c:257-347 | over any sequence of sets and executions on a graph of any size, any allocation of which may fail: nothing leaks, and each execution sends what the successful sets before it put there |
| `BindRuns.QuietOpsKeepSlots` | internal/csdk/bridge.c:329-342 | executions and failed sets do not change what the next execution sends |
| `Native.NativeConn.Close` | internal/csdk/csdk.go:113-129 | refuses while handles are open |
| `Native.NativeConn.Exec` | internal/csdk/csdk.go:137-146 | one execution whose outcome is the one reported, or none for empty text or a closed handle |
| `Native.NativeConn.Ping` | internal/csdk/csdk.go:131-135 | changes no session state |
| `Native.NativeConn.SetDatabase` | internal/csdk/csdk.go:148-157 | a success selects the database, a failure may have |
| `Native.NativeConn.Begin` | internal/csdk/csdk.go:159-163 | a success starts the one transaction |
| `Native.NativeConn.Commit` | internal/csdk/csdk.go:165-169 | a success makes all pending work durable, a failure all or none of it |
| `Native.NativeConn.Rollback` | internal/csdk/csdk.go:171-175 | a success drops all pending work, a failure all or none of it |
| `Native.NativeConn.Metric` | internal/csdk/csdk.go:526-540 | the metric of the last execution, or an error |
| `Native.NativeStmt.Exec` | internal/csdk/csdk.go:486-490 | one execution with the parameters bound so far |
| `Native.NativeRows.NumRows` | internal/csdk/csdk.go:355-359 | the number of rows, or an error |
| `Native.NativeRows.NumColumns` | internal/csdk/csdk.go:361-365 | the number of columns, or an error |
| `Native.NativeRows.ColumnType` | internal/csdk/csdk.go:367-374 | the type of a column, or an error |
| `Native.NativeRows.Field` | internal/csdk/csdk.go:394-401 | a copied cell, or an error |
| `Native.NativeConn.ExecBind` | internal/csdk/csdk.go:290-314 | sends the meaning of the slots, or reports an error |
| `Native.NativeConn.Prepare` | internal/csdk/csdk.go:316-337 | a new counted handle, or an error |
| `Native.NativeConn.Query` | internal/csdk/csdk.go:195-216 | a new counted cursor, or an error |
| `Native.NativeStmt.Close` | internal/csdk/csdk.go:419-436 | destroys the handle and its count once, whatever it reports |
| `Native.NativeStmt.Set` | cubesql/bind.go:37-63 | binds what the argument says up to its length as C sees it; an empty byte slice becomes a zero-length BLOB |
| `Native.NativeStmt.Query` | internal/csdk/csdk.go:492-508 | a new counted cursor, or an error |
| `Native.NativeRows.Close` | internal/csdk/csdk.go:339-353 | destroys the cursor and its count once |
| `Native.NativeRows.Seek` | internal/csdk/csdk.go:376-392 | moves to what the SDK makes of the C int: a row, or one of four relative seeks; only to a row of an open cursor |
| `Native.Context.Error` | cubesql/context.go:5-15 | once done a context stays done; a passed check clears the way for one native call |
| `IntegerText.DigitsLength` | internal/csdk/bridge.c:285-291 | a number has at most k digits if and only if it is below 10^k |
| `IntegerText.DecimalFits` | internal/csdk/bridge.c:285-291 | every int64 prints to at most 20 characters, so the length-error branch is unreachable |
| `IntegerText.PrintParse` | cubesql/rows.go:351-356 | parsing a printed integer gives it back if it is an int64, the minimum included, and fails otherwise |
| `IntegerText.ParsePrint` | database/cubesql/rows.go:84-89 | what parses is an int64 |
| `IntegerText.OnlyDigitsParse` | database/cubesql/rows.go:84-89 | no text with anything but digits after its first character parses as an integer |
| `IntegerText.PlusAndZeros` | database/cubesql/rows.go:84-89 | a plus sign and leading zeros change nothing |
| `Errors.BreaksExactly` | cubesql/errors.go:118-146 | of the driver's own errors ErrClosed alone discards an adapter connection; an SDK error does exactly for timeout, network and protocol codes or phrases without an authentication failure |
| `Errors.HarmlessKinds` | cubesql/errors.go:118-146 | which of the other SDK errors are authentication, authorization and server errors |
| `Errors.NoDatabaseIsHarmless` | database/cubesql/conn.go:144-147 | the rollback error a reset tolerates does not discard the connection |

## Left out

- The CubeSQL SDK: sockets, encryption, compression and the cgo mechanics; it appears as native calls with any allowed outcome.
- DSN parsing and `Options` validation: thin over libraries.
- Float text: `%.17g` and `ParseFloat` are library behaviour; which texts parse is a parameter.
- Reading an empty BLOB apart from NULL: the SDK loses the distinction before this code sees it.
- Cancellation of a native call in progress: native calls cannot be interrupted; a context is a flag that never goes back.
- Column names, reflection metadata, `Columns`, `ColumnTypes`, `NumRows` and error text.
- The phrase tables of `classifyError`: which phrases occur in a message is a parameter of `Errors.Classify`.
- The `database/sql` pool: only its retry rule, its reset before reuse and its silence after Close are modelled.
- `Tx.QueryContext`, `Tx.PrepareContext`, the adapter statement's `QueryContext` and `positionalValues`: the same forwarding as the modelled `Exec` ones. `AdapterCalls` calls the connection itself, not through a driver.Stmt.
- Nil receivers: handles exist in the model.
- Mutexes of `Rows` values not yet returned to a caller: nobody else can reach them, so they are not in the step system.
- Native.NativeConn.Query: the result set is any table whose sizes fit a C int; what the SQL text selects is not modelled.
- Native.NativeStmt.Set: which accepted values the SDK then refuses is any choice, because the SDK is not part of this model.
- SafeCore.Rows.Seek: a native seek to a row may also fail, as any native call may.
- BindGraph.Bind.SetDouble: takes the printed text instead of the double, because float printing is left out.
