/**
  The core connection as a concurrent step system.

  Any finite number of goroutines share one `cubesql.Conn` with all its statements, cursors and
  transactions. One step of a goroutine is one mutex acquisition, one mutex release, one native
  call, or one group of field updates made under a mutex the goroutine holds. The private
  `internal/csdk` mutex is held around exactly one native call at a time, so a native call is one step
  (`NativeLocks` adds these mutexes).
  Mutexes of `Rows` values that have not been returned to a caller are never contended and are left out.

  `Next` is total: every nondeterminism (native results, cancellation, loop lengths, which operation
  a goroutine starts) comes from a `Choice`.
 */
module Interleaving {
  import opened Basics

  /** Goroutines, handles, transactions and epochs by number. */
  type Id = int

  // ---------------------------------------------------------------- locks

  datatype Lock =
    | AdapterStmtMu(id: Id)   // database/cubesql stmt.mu
    | AdapterTxMu(id: Id)     // database/cubesql transaction.mu
    | AdapterConnMu            // database/cubesql conn.mu
    | TxMu(id: Id)
    | RowsMu(id: Id)
    | StmtMu(id: Id)
    | ConnMu

  datatype Mode = Free | Shared | Exclusive

  /** The order in which nested mutexes are taken. */
  function Rank(l: Lock): nat {
    match l
    case AdapterStmtMu(_) => 0
    case AdapterTxMu(_) => 1
    case AdapterConnMu => 2
    case TxMu(_) => 3
    case RowsMu(_) => 4
    case StmtMu(_) => 5
    case ConnMu => 6
  }

  predicate Conflict(a: Mode, b: Mode) {
    a != Free && b != Free && (a == Exclusive || b == Exclusive)
  }

  // ---------------------------------------------------------------- native calls

  datatype Call =
    | Execute
    | ResultAffected     // AffectedRows read for the Result of an execution
    | ResultLastId       // LastInsertID read for the Result of an execution
    | PublicMetric       // AffectedRows, LastInsertID or Changes called by the user
    | Ping
    | Prepare
    | BindValue
    | Select
    | Describe           // row count, column count, column name, column type
    | Fetch              // seek or field
    | CloseVm
    | CloseCursor
    | Disconnect
    | SetDatabase
    | Begin(tx: Id, began: bool)
    | Finish(owner: Option<Id>, commit: bool, finished: bool)

  datatype Event = Event(tid: Id, call: Call)

  // ---------------------------------------------------------------- program counters

  datatype ConnOp = ConnExec | ConnQuery | ConnPrepare | ConnClose | ConnSetDatabase | ConnBegin | ConnFinish(commit: bool)

  datatype StmtOp = StmtBind | StmtExec | StmtClose | StmtQuery(closeWithRows: bool) | StmtReset

  /** Which handle ran the execution whose Result is being built. */
  datatype Source = Direct | Temporary(vm: Id) | OfStmt(stmt: Id)

  /** Where a goroutine stands. `Enter...` and `...Conn` states wait for a mutex. */
  datatype Pc =
    | Idle
    | TakeOuter(lock: Lock)
    | EnterConn(op: ConnOp)
    | InConn(op: ConnOp)
    | TempReady(vm: Id)
    | Executed(source: Source)
    | Affected(source: Source)
    | TempClose(vm: Id)
    | Prepared(vm: Id)
    | Selected(cursor: Id)
    | EnterShared(ping: bool)
    | InShared(ping: bool)
    | EnterTx(tx: Id, commit: bool)
    | TxConn(tx: Id, commit: bool)
    | TxBoth(tx: Id, commit: bool)
    | EnterStmt(stmt: Id, stmtOp: StmtOp)
    | InBind(stmt: Id)
    | ExecConn(stmt: Id)
    | InExec(stmt: Id)
    | CloseVmOf(stmt: Id, vm: Id)
    | ReleaseStmt(stmt: Id)
    | InQuery(stmt: Id, closeStmt: bool)
    | Drawing(stmt: Id, cursor: Id, closeStmt: bool)
    | AddChild(stmt: Id, cursor: Id, closeStmt: bool)
    | AddFailed(stmt: Id, cursor: Id)
    | Publish(stmt: Id, cursor: Id, closeStmt: bool)
    | ResetConn(stmt: Id)
    | InReset(stmt: Id)
    | ResetClose(stmt: Id, vm: Id)
    | ResetPrepare(stmt: Id)
    | EnterRows(rows: Id, close: bool)
    | InRows(rows: Id)
    | CloseCursorOf(rows: Id, cursor: Id, parent: Option<Id>, closeStmt: bool)
    | ReleaseRows(rows: Id, parent: Option<Id>, closeStmt: bool)
    | EnterOwed(rows: Id, stmt: Id, closeStmt: bool)
    | Unlock

  /** A goroutine: the mutexes it holds and its program counter. `outer` holds adapter mutexes and read-locked `TxMu`s. */
  datatype Thread = Thread(outer: set<Lock>, tx: Option<Id>, rows: Option<Id>, stmt: Option<Id>, conn: Mode, pc: Pc)

  // ---------------------------------------------------------------- shared state

  datatype Stmt = Stmt(native: Option<Id>, rows: int, registered: bool)
  datatype Rows = Rows(native: Option<Id>, parent: Option<Id>, closeStmt: bool)

  /** Defensive branches of the source that are meant to be unreachable. */
  datatype Anomaly = ClampHit | AddChildFailed | NativeBusy | FinishClosed | FinishInactive | ReleaseBusy | CountUnderflow

  /** Auxiliary: who is responsible for the connection's single prepared VM. Never read by a guard. */
  datatype VmSlot =
    | NoVm
    | InHand(tid: Id, vm: Id)                          // created under conn.mu, not counted
    | Owned(stmt: Id, vm: Id)
    | Detached(tid: Id, stmt: Id, left: Option<Id>)   // handle cleared, still counted

  /** Auxiliary: who is responsible for the connection's single cursor. Never read by a guard. */
  datatype CursorSlot =
    | NoCursor
    | Drawn(tid: Id, cursor: Id, parent: Option<Id>)  // live, not counted
    | Added(tid: Id, cursor: Id, stmt: Id)            // counted, not yet published
    | Open(rows: Id, cursor: Id)
    | Fading(tid: Id, rows: Id, left: Option<Id>, parent: Option<Id>)  // handle cleared, still counted
    | Owing(tid: Id, rows: Id, stmt: Id)              // count dropped, stmt.rows not yet dropped

  /** Everything the goroutines share. */
  datatype Memory = Memory(
    open: bool, txActive: bool, children: int,          // cubesql.Conn
    nativeChildren: int,                                // csdk.Conn
    vms: map<Id, Id>, cursors: map<Id, Id>,         // live native handles and the epoch they were opened in
    stmts: map<Id, Stmt>, rows: map<Id, Rows>, txs: map<Id, bool>,  // txs: the done flag
    epoch: Id, nextId: Id,
    vm: VmSlot, cursor: CursorSlot,
    trace: seq<Event>, odd: set<Anomaly>)

  datatype State = State(threads: map<Id, Thread>, memory: Memory)

  /** What one step makes of the shared state and of the stepping goroutine. */
  datatype Move = Move(memory: Memory, th: Thread)

  // ---------------------------------------------------------------- lock observations

  /** How a goroutine holds a mutex. */
  function Holds(th: Thread, l: Lock): Mode {
    match l
    case TxMu(x) => if th.tx == Some(x) then Exclusive else if l in th.outer then Shared else Free
    case RowsMu(r) => if th.rows == Some(r) then Exclusive else Free
    case StmtMu(m) => if th.stmt == Some(m) then Exclusive else Free
    case ConnMu => th.conn
    case _ => if l in th.outer then Exclusive else Free
  }

  /** The mutex a goroutine waits for next, if it is at an acquisition. */
  function Wants(pc: Pc): Option<(Lock, Mode)> {
    match pc
    case TakeOuter(l) => Some((l, if l.TxMu? then Shared else Exclusive))
    case EnterConn(_) => Some((ConnMu, Exclusive))
    case EnterShared(_) => Some((ConnMu, Shared))
    case EnterTx(x, _) => Some((TxMu(x), Exclusive))
    case TxConn(_, _) => Some((ConnMu, Exclusive))
    case EnterStmt(m, _) => Some((StmtMu(m), Exclusive))
    case ExecConn(_) => Some((ConnMu, Exclusive))
    case ReleaseStmt(_) => Some((ConnMu, Exclusive))
    case AddChild(_, _, _) => Some((ConnMu, Exclusive))
    case ResetConn(_) => Some((ConnMu, Exclusive))
    case EnterRows(r, _) => Some((RowsMu(r), Exclusive))
    case ReleaseRows(_, _, _) => Some((ConnMu, Exclusive))
    case EnterOwed(_, m, _) => Some((StmtMu(m), Exclusive))
    case _ => None
  }

  ghost predicate CanTake(s: State, t: Id, l: Lock, m: Mode) {
    forall u :: u in s.threads && u != t ==> !Conflict(m, Holds(s.threads[u], l))
  }

  /** A goroutine may step when the mutex it waits for, if any, is available. */
  ghost predicate Enabled(s: State, t: Id) {
    && t in s.threads
    && var w := Wants(s.threads[t].pc);
       (w.Some? ==> CanTake(s, t, w.value.0, w.value.1))
  }

  /** `u` keeps `t` from a mutex: it holds it, or it is a waiting writer, which in Go keeps new readers out. */
  predicate InTheWay(th: Thread, other: Thread) {
    var w := Wants(th.pc);
    && w.Some?
    && (|| Conflict(w.value.1, Holds(other, w.value.0))
        || (w.value.1 == Shared && Wants(other.pc) == Some((w.value.0, Exclusive))))
  }

  ghost predicate Blocked(s: State, t: Id)
    requires t in s.threads
  {
    exists u :: u in s.threads && u != t && InTheWay(s.threads[t], s.threads[u])
  }

  /** In the middle of an operation, or holding a mutex between two of them. */
  predicate Busy(th: Thread) {
    th.pc != Idle || th.outer != {}
  }

  // ---------------------------------------------------------------- steps

  datatype Op =
    | Take(lock: Lock)
    | Drop(lock: Lock)
    | RunConn(connOp: ConnOp)
    | RunShared(ping: bool)
    | RunTx(tx: Id, commit: bool)
    | RunStmt(stmt: Id, stmtOp: StmtOp)
    | RunRows(rows: Id, close: bool)

  /** Which way a branch goes that depends on a context check, a loop length or an allocation. */
  datatype Branch = Abort | Again | Ahead

  datatype Choice = Choice(ok: bool, branch: Branch, op: Op)

  predicate IsOuter(l: Lock) { Rank(l) <= 3 }

  function Go(s: Memory, th: Thread, pc: Pc): Move {
    Move(s, th.(pc := pc))
  }

  function Note(s: Memory, t: Id, call: Call): Memory {
    s.(trace := s.trace + [Event(t, call)])
  }

  function Odd(s: Memory, a: Anomaly): Memory {
    s.(odd := s.odd + {a})
  }

  /** A native prepare returned a new VM; the goroutine has it in hand. */
  function GrabVm(s: Memory, t: Id): Memory {
    Note(s, t, Prepare).(vms := s.vms[s.nextId := s.epoch], nativeChildren := s.nativeChildren + 1, nextId := s.nextId + 1,
       vm := InHand(t, s.nextId))
  }

  /** A temporary VM is closed by the goroutine that has it in hand. */
  function ReturnVm(s: Memory, t: Id, v: Id): Memory {
    Note(s, t, CloseVm).(vms := s.vms - {v}, nativeChildren := s.nativeChildren - 1, vm := NoVm)
  }

  /** The VM in hand becomes a registered, counted statement. */
  function Register(s: Memory, v: Id): Memory {
    s.(children := s.children + 1, stmts := s.stmts[s.nextId := Stmt(Some(v), 0, true)],
       vm := Owned(s.nextId, v), nextId := s.nextId + 1)
  }

  /** `stmt.native = nil`, before the native close. */
  function Detach(s: Memory, t: Id, m: Id, st: Stmt, v: Id): Memory {
    s.(stmts := s.stmts[m := st.(native := None)], vm := Detached(t, m, Some(v)))
  }

  /** `native.Close()` on a detached statement. */
  function CloseDetached(s: Memory, t: Id, m: Id, v: Id): Memory {
    Note(s, t, CloseVm).(vms := s.vms - {v}, nativeChildren := s.nativeChildren - 1, vm := Detached(t, m, None))
  }

  /** A detached statement gets a freshly prepared VM. */
  function Reattach(s: Memory, t: Id, m: Id, st: Stmt): Memory {
    Note(s, t, Prepare).(vms := s.vms[s.nextId := s.epoch], nativeChildren := s.nativeChildren + 1, nextId := s.nextId + 1,
       stmts := s.stmts[m := st.(native := Some(s.nextId))], vm := Owned(m, s.nextId))
  }

  /** A native select returned a new cursor; the goroutine has it in hand. */
  function GrabCursor(s: Memory, t: Id, parent: Option<Id>): Memory {
    Note(s, t, Select).(cursors := s.cursors[s.nextId := s.epoch], nativeChildren := s.nativeChildren + 1, nextId := s.nextId + 1,
       cursor := Drawn(t, s.nextId, parent))
  }

  /** A native cursor is closed. */
  function DropCursor(s: Memory, t: Id, k: Id, next: CursorSlot): Memory {
    Note(s, t, CloseCursor).(cursors := s.cursors - {k}, nativeChildren := s.nativeChildren - 1, cursor := next)
  }

  /** `releaseChild` under its own lock of conn.mu, clamp included. */
  function ReleaseChild(s: Memory): Memory {
    s.(children := if s.children > 0 then s.children - 1 else s.children,
       odd := if s.children > 0 then s.odd else s.odd + {ClampHit})
  }

  /** `stmt.registered = false` and `releaseChild`. */
  function ReleaseDetached(s: Memory, m: Id, st: Stmt): Memory {
    ReleaseChild(s.(stmts := s.stmts[m := st.(registered := false)], vm := NoVm))
  }

  /** `if stmt.registered { ...; stmt.conn.children-- }` in a failed Reset, which has no clamp. */
  function Unregister(s: Memory, m: Id): Memory {
    if m in s.stmts && s.stmts[m].registered then
      var s1 := s.(stmts := s.stmts[m := s.stmts[m].(registered := false)], children := s.children - 1, vm := NoVm);
      if s.children <= 0 then Odd(s1, CountUnderflow) else s1
    else s
  }

  /** The cursor in hand becomes a counted `Rows` without a statement. */
  function PublishDirect(s: Memory, k: Id): Memory {
    s.(children := s.children + 1, rows := s.rows[s.nextId := Rows(Some(k), None, false)],
       cursor := Open(s.nextId, k), nextId := s.nextId + 1)
  }

  /** The counted cursor becomes a `Rows` of its statement. */
  function PublishOfStmt(s: Memory, k: Id, m: Id, close: bool): Memory {
    var st := if m in s.stmts then s.stmts[m] else Stmt(None, 0, false);
    s.(rows := s.rows[s.nextId := Rows(Some(k), Some(m), close)], stmts := s.stmts[m := st.(rows := st.rows + 1)],
       cursor := Open(s.nextId, k), nextId := s.nextId + 1)
  }

  /** `rows.native`, `rows.parentConn`, `rows.parentStmt` and `rows.closeStmt` are cleared. */
  function Fade(s: Memory, t: Id, r: Id, w: Rows): Memory {
    s.(rows := s.rows[r := Rows(None, None, false)], cursor := Fading(t, r, w.native, w.parent))
  }

  /** A call that ends or changes the transaction or the database begins a new epoch. */
  function Cross(s: Memory, t: Id, call: Call, txActive: bool, txs: map<Id, bool>): Memory {
    Note(s, t, call).(epoch := s.epoch + 1, nextId := s.nextId + 1, txActive := txActive, txs := txs)
  }

  /** `addChild` under its own lock of conn.mu. */
  function AddCounted(s: Memory, t: Id, k: Id, m: Id): Memory {
    s.(children := s.children + 1, cursor := Added(t, k, m))
  }

  /** `releaseChild` for a closed cursor. */
  function ReleaseFaded(s: Memory, next: CursorSlot): Memory {
    ReleaseChild(s).(cursor := next)
  }

  /** `stmt.rows--` in `releaseRow`. */
  function PayOwed(s: Memory, m: Id, st: Stmt): Memory {
    s.(stmts := s.stmts[m := st.(rows := if st.rows > 0 then st.rows - 1 else st.rows)], cursor := NoCursor)
  }

  /** From between operations: take or drop an outer mutex, or start a core operation. */
  function NextIdle(s: Memory, th: Thread, c: Choice): Move {
    match c.op
    case Take(l) =>
      Go(s, th, if IsOuter(l) && forall h :: h in th.outer ==> Rank(h) < Rank(l) then TakeOuter(l) else Idle)
    case Drop(l) => Move(s, th.(outer := th.outer - {l}))
    case RunConn(op) => Go(s, th, EnterConn(op))
    case RunShared(ping) => Go(s, th, EnterShared(ping))
    case RunTx(x, commit) =>
      Go(s, th, if forall h :: h in th.outer ==> Rank(h) < Rank(TxMu(x)) then EnterTx(x, commit) else Idle)
    case RunStmt(m, op) => Go(s, th, EnterStmt(m, op))
    case RunRows(r, close) => Go(s, th, EnterRows(r, close))
  }

  /** Deferred unlocks, innermost first. */
  function NextUnlock(s: Memory, th: Thread): Move {
    if th.conn != Free then Move(s, th.(conn := Free))
    else if th.stmt.Some? then Move(s, th.(stmt := None))
    else if th.rows.Some? then Move(s, th.(rows := None))
    else if th.tx.Some? then Move(s, th.(tx := None))
    else Go(s, th, Idle)
  }

  /** Guards evaluated right after conn.mu is locked. */
  predicate ConnGuard(s: Memory, op: ConnOp) {
    && s.open
    && s.children == 0
    && (op.ConnClose? || op.ConnSetDatabase? || op.ConnBegin? || op.ConnFinish? ==> !s.txActive)
  }

  function NextEnter(s: Memory, t: Id, th: Thread, c: Choice): Move {
    match th.pc
    case EnterConn(op) => Go(s, th.(conn := Exclusive), if ConnGuard(s, op) then InConn(op) else Unlock)
    case EnterShared(ping) =>
      Go(s, th.(conn := Shared), if s.open && (ping || s.children == 0) then InShared(ping) else Unlock)
    case InShared(ping) =>
      if c.branch == Abort then Go(s, th, Unlock) else Go(Note(s, t, if ping then Ping else PublicMetric), th, Unlock)
    case _ => Move(s, th)
  }

  /** The first native call of an operation inside one conn.mu section, after its last context check. */
  function NextInConn(s: Memory, t: Id, th: Thread, op: ConnOp, c: Choice): Move {
    if c.branch == Abort && !op.ConnClose? then Go(s, th, Unlock)
    else if op.ConnExec? || op.ConnPrepare? || op.ConnQuery? then NextOpen(s, t, th, op, c)
    else NextBoundary(s, t, th, op, c)
  }

  function NextOpen(s: Memory, t: Id, th: Thread, op: ConnOp, c: Choice): Move {
    match op
    case ConnExec =>
      if c.branch == Ahead then
        (if c.ok then Go(GrabVm(s, t), th, TempReady(s.nextId))
         else Go(Note(s, t, Prepare), th, Unlock))
      else Go(Note(s, t, Execute), th, if c.ok then Executed(Direct) else Unlock)
    case ConnPrepare =>
      if c.ok then Go(GrabVm(s, t), th, Prepared(s.nextId))
      else Go(Note(s, t, Prepare), th, Unlock)
    case ConnQuery =>
      if c.ok then Go(GrabCursor(s, t, None), th, Selected(s.nextId))
      else Go(Note(s, t, Select), th, Unlock)
    case _ => Move(s, th)
  }

  /** Calls that end or change the transaction or the database, or the connection. */
  function NextBoundary(s: Memory, t: Id, th: Thread, op: ConnOp, c: Choice): Move {
    match op
    case ConnClose =>
      Go(if s.nativeChildren != 0 then Odd(s, NativeBusy) else Note(s, t, Disconnect).(open := false), th, Unlock)
    case ConnSetDatabase => Go(Cross(s, t, SetDatabase, s.txActive, s.txs), th, Unlock)
    case ConnBegin =>
      var call := Begin(s.nextId, c.ok);
      Go(if c.ok then Cross(s, t, call, true, s.txs[s.nextId := false]) else Cross(s, t, call, false, s.txs), th, Unlock)
    case ConnFinish(commit) => Go(Cross(s, t, Finish(None, commit, c.ok), s.txActive, s.txs), th, Unlock)
    case _ => Move(s, th)
  }

  /** After `resultForContext`: the deferred close of a temporary VM, or the unlocks. */
  function AfterResult(source: Source): Pc {
    if source.Temporary? then TempClose(source.vm) else Unlock
  }

  /** Execution through a temporary VM. */
  function NextTemp(s: Memory, t: Id, th: Thread, c: Choice): Move {
    match th.pc
    case TempReady(v) =>
      (match c.branch
       case Abort => Go(s, th, TempClose(v))
       case Again => Go(Note(s, t, BindValue), th, if c.ok then TempReady(v) else TempClose(v))
       case Ahead => Go(Note(s, t, Execute), th, if c.ok then Executed(Temporary(v)) else TempClose(v)))
    case TempClose(v) => Go(ReturnVm(s, t, v), th, Unlock)
    case _ => Move(s, th)
  }

  /** The metrics read for a Result. */
  function NextResult(s: Memory, t: Id, th: Thread, c: Choice): Move {
    match th.pc
    case Executed(source) =>
      if c.branch == Abort then Go(s, th, AfterResult(source))
      else Go(Note(s, t, ResultAffected), th, Affected(source))
    case Affected(source) =>
      Go(if c.branch == Abort then s else Note(s, t, ResultLastId), th, AfterResult(source))
    case _ => Move(s, th)
  }

  /** Handles created inside one conn.mu section become children of the connection. */
  function NextHandle(s: Memory, t: Id, th: Thread, c: Choice): Move {
    match th.pc
    case Prepared(v) => Go(Register(s, v), th, Unlock)
    case Selected(k) =>
      (match c.branch
       case Abort => Go(DropCursor(s, t, k, NoCursor), th, Unlock)
       case Again => Go(Note(s, t, Describe), th, Selected(k))
       case Ahead => Go(PublishDirect(s, k), th, Unlock))
    case _ => Move(s, th)
  }

  function NextTx(s: Memory, t: Id, th: Thread, c: Choice): Move {
    match th.pc
    case EnterTx(x, commit) =>
      Go(s, th.(tx := Some(x)), if x in s.txs && !s.txs[x] then TxConn(x, commit) else Unlock)
    case TxConn(x, commit) =>
      var locked := th.(conn := Exclusive);
      if !s.open then Go(Odd(s, FinishClosed), locked, Unlock)
      else if !s.txActive then Go(Odd(s, FinishInactive), locked, Unlock)
      else Go(s, locked, if s.children != 0 then Unlock else TxBoth(x, commit))
    case TxBoth(x, commit) =>
      if c.branch == Abort then Go(s, th, Unlock)
      else
        var call := Finish(Some(x), commit, c.ok);
        Go(if c.ok then Cross(s, t, call, false, s.txs[x := true]) else Cross(s, t, call, true, s.txs), th, Unlock)
    case _ => Move(s, th)
  }

  /** Guards evaluated right after stmt.mu is locked. */
  function NextEnterStmt(s: Memory, t: Id, th: Thread, m: Id, op: StmtOp): Move {
    if m !in s.stmts || s.stmts[m].native.None? || s.stmts[m].rows != 0 then Go(s, th, Unlock)
    else
      match op
      case StmtBind => Go(s, th, InBind(m))
      case StmtExec => Go(s, th, ExecConn(m))
      case StmtQuery(close) => Go(s, th, InQuery(m, close))
      case StmtReset => Go(s, th, ResetConn(m))
      case StmtClose =>
        var v := s.stmts[m].native.value;
        Go(Detach(s, t, m, s.stmts[m], v), th, CloseVmOf(m, v))
  }

  function NextStmt(s: Memory, t: Id, th: Thread, c: Choice): Move {
    match th.pc
    case InBind(m) => Go(if c.branch == Abort then s else Note(s, t, BindValue), th, Unlock)
    case ExecConn(m) => Go(s, th.(conn := Exclusive), if s.open then InExec(m) else Unlock)
    case InExec(m) =>
      if c.branch == Abort then Go(s, th, Unlock)
      else Go(Note(s, t, Execute), th, if c.ok then Executed(OfStmt(m)) else Unlock)
    case _ => Move(s, th)
  }

  /** `native.Close()` on a detached statement, then its share of the child count. */
  function NextCloseVm(s: Memory, t: Id, th: Thread, c: Choice): Move {
    match th.pc
    case CloseVmOf(m, v) => Go(CloseDetached(s, t, m, v), th, ReleaseStmt(m))
    case ReleaseStmt(m) =>
      if m in s.stmts && s.stmts[m].registered then
        Go(ReleaseDetached(s, m, s.stmts[m]), th, Unlock)
      else Go(s, th, Unlock)
    case _ => Move(s, th)
  }

  function NextQuery(s: Memory, t: Id, th: Thread, c: Choice): Move {
    match th.pc
    case InQuery(m, close) =>
      if c.branch == Abort then Go(s, th, Unlock)
      else if c.ok then
        Go(GrabCursor(s, t, Some(m)), th, Drawing(m, s.nextId, close))
      else Go(Note(s, t, Select), th, Unlock)
    case Drawing(m, k, close) =>
      (match c.branch
       case Abort => Go(DropCursor(s, t, k, NoCursor), th, Unlock)
       case Again => Go(Note(s, t, Describe), th, Drawing(m, k, close))
       case Ahead => Go(s, th, AddChild(m, k, close)))
    case _ => Move(s, th)
  }

  /** The cursor of a statement becomes a child of the connection and of the statement. */
  function NextPublish(s: Memory, t: Id, th: Thread, c: Choice): Move {
    match th.pc
    case AddChild(m, k, close) =>
      if !s.open then Go(Odd(s, AddChildFailed), th, AddFailed(m, k))
      else Go(AddCounted(s, t, k, m), th, Publish(m, k, close))
    case AddFailed(m, k) => Go(DropCursor(s, t, k, NoCursor), th, Unlock)
    case Publish(m, k, close) => Go(PublishOfStmt(s, k, m, close), th, Unlock)
    case _ => Move(s, th)
  }

  function NextReset(s: Memory, t: Id, th: Thread, c: Choice): Move {
    match th.pc
    case ResetConn(m) => Go(s, th.(conn := Exclusive), if s.open then InReset(m) else Unlock)
    case InReset(m) =>
      if c.branch == Abort || m !in s.stmts || s.stmts[m].native.None? then Go(s, th, Unlock)
      else
        var v := s.stmts[m].native.value;
        Go(Detach(s, t, m, s.stmts[m], v), th, ResetClose(m, v))
    case _ => Move(s, th)
  }

  /** The old VM is closed before the replacement is prepared. */
  function NextResetClose(s: Memory, t: Id, th: Thread, m: Id, v: Id, c: Choice): Move {
    var s1 := CloseDetached(s, t, m, v);
    if c.ok then Go(s1, th, ResetPrepare(m)) else Go(Unregister(s1, m), th, Unlock)
  }

  function NextResetPrepare(s: Memory, t: Id, th: Thread, m: Id, c: Choice): Move {
    if c.branch == Abort then Go(Unregister(s, m), th, Unlock)
    else if c.ok && m in s.stmts then Go(Reattach(s, t, m, s.stmts[m]), th, Unlock)
    else Go(Unregister(Note(s, t, Prepare), m), th, Unlock)
  }

  /** Guards evaluated right after rows.mu is locked. */
  function NextEnterRows(s: Memory, t: Id, th: Thread, r: Id, close: bool): Move {
    if r !in s.rows || s.rows[r].native.None? then Go(s, th, Unlock)
    else if !close then Go(s, th, InRows(r))
    else
      var w := s.rows[r];
      Go(Fade(s, t, r, w), th, CloseCursorOf(r, w.native.value, w.parent, w.closeStmt))
  }

  function NextRows(s: Memory, t: Id, th: Thread, r: Id, c: Choice): Move {
    if c.branch == Abort then Go(s, th, Unlock)
    else Go(Note(s, t, Fetch), th, if c.branch == Again then InRows(r) else Unlock)
  }

  /** `native.Close()` on a cleared cursor, then its share of the child count. */
  function NextCloseCursor(s: Memory, t: Id, th: Thread, c: Choice): Move {
    match th.pc
    case CloseCursorOf(r, k, parent, close) =>
      Go(DropCursor(s, t, k, Fading(t, r, None, parent)), th, ReleaseRows(r, parent, close))
    case ReleaseRows(r, parent, close) =>
      (match parent
       case None => Go(ReleaseFaded(s, NoCursor), th, Unlock)
       case Some(m) => Go(ReleaseFaded(s, Owing(t, r, m)), th, EnterOwed(r, m, close)))
    case _ => Move(s, th)
  }

  /** `releaseRow` after it has locked stmt.mu. */
  function NextOwed(s: Memory, t: Id, th: Thread, m: Id, close: bool): Move {
    if m !in s.stmts then Go(s, th, Unlock)
    else
      var s1 := PayOwed(s, m, s.stmts[m]);
      var st := s1.stmts[m];
      if !close || st.native.None? then Go(s1, th, Unlock)
      else if st.rows != 0 then Go(Odd(s1, ReleaseBusy), th, Unlock)
      else Go(Detach(s1, t, m, st, st.native.value), th, CloseVmOf(m, st.native.value))
  }

  predicate AtEnter(pc: Pc) { pc.EnterConn? || pc.EnterShared? || pc.InShared? }
  predicate AtTemp(pc: Pc) { pc.TempReady? || pc.TempClose? }
  predicate AtResult(pc: Pc) { pc.Executed? || pc.Affected? }
  predicate AtHandle(pc: Pc) { pc.Prepared? || pc.Selected? }
  predicate AtTx(pc: Pc) { pc.EnterTx? || pc.TxConn? || pc.TxBoth? }
  predicate AtStmt(pc: Pc) { pc.InBind? || pc.ExecConn? || pc.InExec? }
  predicate AtCloseVm(pc: Pc) { pc.CloseVmOf? || pc.ReleaseStmt? }
  predicate AtQuery(pc: Pc) { pc.InQuery? || pc.Drawing? }
  predicate AtPublish(pc: Pc) { pc.AddChild? || pc.AddFailed? || pc.Publish? }
  predicate AtReset(pc: Pc) { pc.ResetConn? || pc.InReset? }
  predicate AtCloseCursor(pc: Pc) { pc.CloseCursorOf? || pc.ReleaseRows? }

  /** One step of goroutine `t`. */
  function Next(s: Memory, t: Id, th: Thread, c: Choice): Move {
    if AtEnter(th.pc) then NextEnter(s, t, th, c)
    else if AtTemp(th.pc) then NextTemp(s, t, th, c)
    else if AtResult(th.pc) then NextResult(s, t, th, c)
    else if AtHandle(th.pc) then NextHandle(s, t, th, c)
    else if AtTx(th.pc) then NextTx(s, t, th, c)
    else if AtStmt(th.pc) then NextStmt(s, t, th, c)
    else if AtCloseVm(th.pc) then NextCloseVm(s, t, th, c)
    else if AtQuery(th.pc) then NextQuery(s, t, th, c)
    else if AtPublish(th.pc) then NextPublish(s, t, th, c)
    else if AtReset(th.pc) then NextReset(s, t, th, c)
    else if AtCloseCursor(th.pc) then NextCloseCursor(s, t, th, c)
    else
      match th.pc
      case InConn(op) => NextInConn(s, t, th, op, c)
      case EnterStmt(m, op) => NextEnterStmt(s, t, th.(stmt := Some(m)), m, op)
      case ResetClose(m, v) => NextResetClose(s, t, th, m, v, c)
      case ResetPrepare(m) => NextResetPrepare(s, t, th, m, c)
      case EnterRows(r, close) => NextEnterRows(s, t, th.(rows := Some(r)), r, close)
      case InRows(r) => NextRows(s, t, th, r, c)
      case EnterOwed(r, m, close) => NextOwed(s, t, th.(stmt := Some(m)), m, close)
      case TakeOuter(l) => Move(s, th.(outer := th.outer + {l}, pc := Idle))
      case Unlock => NextUnlock(s, th)
      case _ => NextIdle(s, th, c)
  }

  /** A connection just opened. */
  ghost predicate InitMemory(s: Memory) {
    && s.open && !s.txActive && s.children == 0 && s.nativeChildren == 0
    && s.vms == map[] && s.cursors == map[] && s.stmts == map[] && s.rows == map[] && s.txs == map[]
    && s.vm == NoVm && s.cursor == NoCursor && s.trace == [] && s.odd == {}
  }

  /** Any finite set of goroutines, all between operations. */
  ghost predicate Init(s: State) {
    && InitMemory(s.memory)
    && forall t :: t in s.threads ==> s.threads[t] == Thread({}, None, None, None, Free, Idle)
  }

  ghost predicate StepBy(s: State, s': State, t: Id, c: Choice) {
    && Enabled(s, t)
    && var m := Next(s.memory, t, s.threads[t], c);
       s' == State(s.threads[t := m.th], m.memory)
  }

  ghost predicate Step(s: State, s': State) {
    exists t, c :: StepBy(s, s', t, c)
  }

  ghost predicate IsRun(run: seq<State>) {
    && |run| > 0
    && Init(run[0])
    && forall i :: 0 <= i < |run| - 1 ==> Step(run[i], run[i + 1])
  }
}
