/**
  One operation of the step system, carried out by a goroutine that nobody interrupts, seen from outside: what it does to
  the open flag, the transaction, the statement and the cursor. `CoreShapes` proves the same of the classes.
 */
module Layers {
  import opened Basics
  import opened Interleaving
  import opened InterleavingSafety
  import opened InterleavingSteps
  import opened InterleavingRuns
  import opened AdapterLocks

  /** What a core connection owns. `closes`: its cursor takes the statement along when it closes. */
  datatype Shape = Shape(open: bool, tx: bool, stmt: bool, cursor: bool, closes: bool)

  predicate Bare(a: Shape) { a.open && !a.stmt && !a.cursor }

  predicate Single(a: Shape) { a.open && a.stmt && !a.cursor }

  /** `ConnOp`s on success. */
  predicate ConnDone(op: ConnOp, a: Shape, b: Shape) {
    && Bare(a)
    && match op
       case ConnExec => b == a
       case ConnQuery => b == a.(cursor := true, closes := false)
       case ConnPrepare => b == a.(stmt := true)
       case ConnClose => !a.tx && b == a.(open := false)
       case ConnSetDatabase => !a.tx && b == a
       case ConnBegin => !a.tx && b == a.(tx := true)
       case ConnFinish(_) => !a.tx && b == a
  }

  predicate StmtDone(op: StmtOp, a: Shape, b: Shape) {
    && Single(a)
    && match op
       case StmtClose => b == a.(stmt := false)
       case StmtQuery(close) => b == a.(cursor := true, closes := close)
       case _ => b == a
  }

  predicate RowsDone(close: bool, a: Shape, b: Shape) {
    && a.open && a.cursor
    && b == if close then Shape(a.open, a.tx, a.stmt && !a.closes, false, false) else a
  }

  /** A successful operation. */
  predicate Done(op: Op, a: Shape, b: Shape) {
    match op
    case RunConn(o) => ConnDone(o, a, b)
    case RunShared(ping) => a.open && (ping || Bare(a)) && b == a
    case RunTx(_, _) => Bare(a) && a.tx && b == a.(tx := false)
    case RunStmt(_, o) => StmtDone(o, a, b)
    case RunRows(_, close) => RowsDone(close, a, b)
    case _ => b == a
  }

  /** A failed operation changes nothing, except that a failed Reset may close its statement. */
  predicate Failed(op: Op, a: Shape, b: Shape) {
    b == a || (op.RunStmt? && op.stmtOp.StmtReset? && Single(a) && b == a.(stmt := false))
  }

  // ---------------------------------------------------------------- the step system

  function ShapeOf(s: Memory): Shape {
    Shape(s.open, s.txActive, VmCount(s.vm) == 1, CursorCount(s.cursor) == 1,
          && s.cursor.Open? && s.cursor.rows in s.rows
          && s.rows[s.cursor.rows].parent.Some? && s.rows[s.cursor.rows].closeStmt)
  }

  /** The guards of an operation hold, so that only its native calls and its context can make it fail. */
  predicate Allowed(s: Memory, op: Op) {
    match op
    case RunConn(o) => ConnGuard(s, o)
    case RunShared(ping) => s.open && (ping || s.children == 0)
    case RunTx(x, _) => Unfinished(s, x) && s.children == 0
    case RunStmt(m, _) => m in s.stmts && s.stmts[m].native.Some? && s.stmts[m].rows == 0
    case RunRows(r, _) => r in s.rows && s.rows[r].native.Some?
    case _ => false
  }

  /** What is known of the memory when an operation begins. */
  datatype Start = Start(shape: Shape, calls: nat, epoch: Id)

  function StartOf(s: Memory): Start { Start(ShapeOf(s), |s.trace|, s.epoch) }

  predicate Executes(op: Op) { op == RunConn(ConnExec) || (op.RunStmt? && op.stmtOp.StmtExec?) }

  /** The operation ends or begins a transaction, or changes the database. */
  predicate Crosses(op: Op) {
    op.RunTx? || (op.RunConn? && (op.connOp.ConnBegin? || op.connOp.ConnFinish? || op.connOp.ConnSetDatabase?))
  }

  /** Since the operation began, goroutine `t` has executed. */
  predicate HasExecuted(trace: seq<Event>, calls: nat, t: Id) {
    exists i :: calls <= i < |trace| && trace[i] == Event(t, Execute)
  }

  /** The operation had its effect, and the native call it is for was made. */
  predicate Succeeded(op: Op, a: Start, s: Memory, t: Id) {
    && Done(op, a.shape, ShapeOf(s))
    && (Executes(op) ==> HasExecuted(s.trace, a.calls, t))
    && (Crosses(op) ==> s.epoch > a.epoch)
  }

  /** Where an operation begun in shape `a` can stand, and in which shape. */
  predicate Amidst(op: Op, a: Shape, b: Shape, pc: Pc) {
    match pc
    case EnterConn(o) => op == RunConn(o) && b == a
    case InConn(o) => op == RunConn(o) && b == a
    case TempReady(_) => op == RunConn(ConnExec) && Bare(a) && b == a
    case TempClose(_) => op == RunConn(ConnExec) && Bare(a) && b == a
    case Executed(source) =>
      && (if source.OfStmt? then op == RunStmt(source.stmt, StmtExec) && Single(a) else op == RunConn(ConnExec) && Bare(a))
      && b == a
    case Affected(source) =>
      && (if source.OfStmt? then op == RunStmt(source.stmt, StmtExec) && Single(a) else op == RunConn(ConnExec) && Bare(a))
      && b == a
    case Prepared(_) => op == RunConn(ConnPrepare) && Bare(a) && b == a
    case Selected(_) => op == RunConn(ConnQuery) && Bare(a) && b == a
    case EnterShared(ping) => op == RunShared(ping) && b == a
    case InShared(ping) => op == RunShared(ping) && a.open && (ping || Bare(a)) && b == a
    case EnterTx(x, commit) => op == RunTx(x, commit) && b == a
    case TxConn(x, commit) => op == RunTx(x, commit) && b == a
    case TxBoth(x, commit) => op == RunTx(x, commit) && b == a
    case EnterStmt(m, o) => op == RunStmt(m, o) && b == a
    case InBind(m) => op == RunStmt(m, StmtBind) && Single(a) && b == a
    case ExecConn(m) => op == RunStmt(m, StmtExec) && Single(a) && b == a
    case InExec(m) => op == RunStmt(m, StmtExec) && Single(a) && b == a
    case InQuery(m, close) => op == RunStmt(m, StmtQuery(close)) && Single(a) && b == a
    case Drawing(m, _, close) => op == RunStmt(m, StmtQuery(close)) && Single(a) && b == a
    case AddChild(m, _, close) => op == RunStmt(m, StmtQuery(close)) && Single(a) && b == a
    case AddFailed(m, _) => op.RunStmt? && op.stmtOp.StmtQuery? && Single(a) && b == a
    case Publish(m, _, close) => op == RunStmt(m, StmtQuery(close)) && Single(a) && b == a.(cursor := true)
    case ResetConn(m) => op == RunStmt(m, StmtReset) && Single(a) && b == a
    case InReset(m) => op == RunStmt(m, StmtReset) && Single(a) && b == a
    case ResetClose(m, _) => op == RunStmt(m, StmtReset) && Single(a) && b == a
    case ResetPrepare(m) => op == RunStmt(m, StmtReset) && Single(a) && b == a
    case CloseVmOf(m, _) => Taking(op, a, b, m)
    case ReleaseStmt(m) => Taking(op, a, b, m)
    case EnterRows(r, close) => op == RunRows(r, close) && b == a
    case InRows(r) => op == RunRows(r, false) && a.open && a.cursor && b == a
    case CloseCursorOf(r, _, parent, close) =>
      op == RunRows(r, true) && Closing(a, parent, close) && b == a.(closes := false)
    case ReleaseRows(r, parent, close) =>
      op == RunRows(r, true) && Closing(a, parent, close) && b == a.(closes := false)
    case EnterOwed(r, m, close) =>
      op == RunRows(r, true) && Closing(a, Some(m), close) && b == a.(cursor := false, closes := false)
    case _ => false
  }

  predicate Closing(a: Shape, parent: Option<Id>, close: bool) {
    a.open && a.cursor && a.stmt == parent.Some? && a.closes == (close && parent.Some?)
  }

  /** A statement is being closed, by itself or with its cursor. */
  predicate Taking(op: Op, a: Shape, b: Shape, m: Id) {
    || (op == RunStmt(m, StmtClose) && Single(a) && b == a)
    || (op.RunRows? && op.close && a.open && a.cursor && a.stmt && a.closes && b == a.(cursor := false, closes := false))
  }

  predicate Entering(pc: Pc) { pc.EnterConn? || pc.EnterShared? || pc.EnterTx? || pc.EnterStmt? || pc.EnterRows? }

  /** The operation is over. If it was sure to succeed, it did. */
  predicate Over(op: Op, a: Start, s: Memory, t: Id, sure: bool) {
    Succeeded(op, a, s, t) || (!sure && (Failed(op, a.shape, ShapeOf(s)) || Done(op, a.shape, ShapeOf(s))))
  }

  /** What holds in the middle of an operation. */
  predicate Stands(op: Op, a: Start, s: Memory, t: Id, pc: Pc, sure: bool) {
    && (if pc.Unlock? || pc.Idle? then Over(op, a, s, t, sure) else Amidst(op, a.shape, ShapeOf(s), pc))
    && (sure && Entering(pc) ==> Allowed(s, op))
    && (sure && pc.TxConn? ==> s.children == 0)
    && (sure ==> !pc.AddFailed?)
    && (sure && Executes(op) && (pc.Executed? || pc.Affected? || pc.TempClose?) ==> HasExecuted(s.trace, a.calls, t))
    && (Executes(op) ==> a.calls <= |s.trace|)
    && (Crosses(op) && !pc.Unlock? && !pc.Idle? ==> s.epoch == a.epoch)
  }

  /** The memory does not count a call, nor change what an operation shows of itself. */
  lemma StandsNoted(op: Op, a: Start, s: Memory, t: Id, pc: Pc, sure: bool, call: Call)
    requires Stands(op, a, s, t, pc, sure)
    ensures Stands(op, a, Note(s, t, call), t, pc, sure)
  {
    if HasExecuted(s.trace, a.calls, t) { ExecutedBefore(s.trace, Event(t, call), a.calls, t); }
    hide HasExecuted, ConnDone, StmtDone, RowsDone;
  }

  lemma ExecutedNow(trace: seq<Event>, calls: nat, t: Id)
    requires calls <= |trace|
    ensures HasExecuted(trace + [Event(t, Execute)], calls, t)
  {
    assert (trace + [Event(t, Execute)])[|trace|] == Event(t, Execute);
  }

  lemma ExecutedBefore(trace: seq<Event>, e: Event, calls: nat, t: Id)
    requires HasExecuted(trace, calls, t)
    ensures HasExecuted(trace + [e], calls, t)
  {
    var i :| calls <= i < |trace| && trace[i] == Event(t, Execute);
    assert (trace + [e])[i] == Event(t, Execute);
  }

  // ---------------------------------------------------------------- sections under conn.mu

  lemma ConnEntered(op: Op, a: Start, s: Memory, t: Id, sure: bool, o: ConnOp)
    requires Stands(op, a, s, t, EnterConn(o), sure)
    requires ConnGuard(s, o) && Untouched(s)
    ensures Stands(op, a, s, t, InConn(o), sure)
  {
  }

  lemma ConnRefused(op: Op, a: Start, s: Memory, t: Id, sure: bool, o: ConnOp)
    requires Stands(op, a, s, t, EnterConn(o), sure)
    requires !ConnGuard(s, o)
    ensures Stands(op, a, s, t, Unlock, sure)
  {
  }

  lemma SharedEntered(op: Op, a: Start, s: Memory, t: Id, sure: bool, ping: bool)
    requires Stands(op, a, s, t, EnterShared(ping), sure)
    requires s.open && (ping || s.children == 0) && s.children == VmCount(s.vm) + CursorCount(s.cursor)
    ensures Stands(op, a, s, t, InShared(ping), sure)
  {
  }

  lemma SharedRefused(op: Op, a: Start, s: Memory, t: Id, sure: bool, ping: bool)
    requires Stands(op, a, s, t, EnterShared(ping), sure)
    requires !(s.open && (ping || s.children == 0))
    ensures Stands(op, a, s, t, Unlock, sure)
  {
  }

  lemma SharedDone(op: Op, a: Start, s: Memory, t: Id, sure: bool, ping: bool)
    requires Stands(op, a, s, t, InShared(ping), sure)
    ensures Stands(op, a, s, t, Unlock, sure)
  {
  }

  lemma ConnGivesUp(op: Op, a: Start, s: Memory, t: Id, sure: bool, o: ConnOp)
    requires Stands(op, a, s, t, InConn(o), sure)
    requires !sure
    ensures Stands(op, a, s, t, Unlock, sure)
  {
  }

  lemma TempOpened(op: Op, a: Start, s: Memory, t: Id, sure: bool)
    requires Stands(op, a, s, t, InConn(ConnExec), sure)
    requires s.open && Untouched(s)
    ensures Stands(op, a, GrabVm(s, t), t, TempReady(s.nextId), sure)
  {
  }

  lemma ExecutedPlain(op: Op, a: Start, s: Memory, t: Id, sure: bool)
    requires Stands(op, a, s, t, InConn(ConnExec), sure)
    requires s.open && Untouched(s)
    ensures Stands(op, a, Note(s, t, Execute), t, Executed(Direct), sure)
  {
    ExecutedNow(s.trace, a.calls, t);
    hide HasExecuted;
  }

  lemma PrepareOpened(op: Op, a: Start, s: Memory, t: Id, sure: bool)
    requires Stands(op, a, s, t, InConn(ConnPrepare), sure)
    requires s.open && Untouched(s)
    ensures Stands(op, a, GrabVm(s, t), t, Prepared(s.nextId), sure)
  {
  }

  lemma QueryOpened(op: Op, a: Start, s: Memory, t: Id, sure: bool)
    requires Stands(op, a, s, t, InConn(ConnQuery), sure)
    requires s.open && Untouched(s)
    ensures Stands(op, a, GrabCursor(s, t, None), t, Selected(s.nextId), sure)
  {
  }

  lemma ConnClosed(op: Op, a: Start, s: Memory, t: Id, sure: bool)
    requires Stands(op, a, s, t, InConn(ConnClose), sure)
    requires s.open && Untouched(s) && !s.txActive
    ensures Stands(op, a, Note(s, t, Disconnect).(open := false), t, Unlock, sure)
  {
  }

  lemma DatabaseSet(op: Op, a: Start, s: Memory, t: Id, sure: bool)
    requires Stands(op, a, s, t, InConn(ConnSetDatabase), sure)
    requires s.open && Untouched(s) && !s.txActive
    ensures Stands(op, a, Cross(s, t, SetDatabase, s.txActive, s.txs), t, Unlock, sure)
  {
  }

  lemma TxBegun(op: Op, a: Start, s: Memory, t: Id, sure: bool)
    requires Stands(op, a, s, t, InConn(ConnBegin), sure)
    requires s.open && Untouched(s) && !s.txActive
    ensures Stands(op, a, Cross(s, t, Begin(s.nextId, true), true, s.txs[s.nextId := false]), t, Unlock, sure)
  {
  }

  lemma TxNotBegun(op: Op, a: Start, s: Memory, t: Id, sure: bool)
    requires Stands(op, a, s, t, InConn(ConnBegin), sure)
    requires !sure && !s.txActive
    ensures Stands(op, a, Cross(s, t, Begin(s.nextId, false), false, s.txs), t, Unlock, sure)
  {
  }

  lemma ImplicitFinished(op: Op, a: Start, s: Memory, t: Id, sure: bool, commit: bool, ok: bool)
    requires Stands(op, a, s, t, InConn(ConnFinish(commit)), sure)
    requires s.open && Untouched(s) && !s.txActive
    ensures Stands(op, a, Cross(s, t, Finish(None, commit, ok), s.txActive, s.txs), t, Unlock, sure)
  {
  }

  // ---------------------------------------------------------------- execution through a temporary VM, and the Result

  lemma TempGivesUp(op: Op, a: Start, s: Memory, t: Id, sure: bool, v: Id)
    requires Stands(op, a, s, t, TempReady(v), sure)
    requires !sure
    ensures Stands(op, a, s, t, TempClose(v), sure)
  {
  }

  lemma ExecutedTemp(op: Op, a: Start, s: Memory, t: Id, sure: bool, v: Id)
    requires Stands(op, a, s, t, TempReady(v), sure)
    ensures Stands(op, a, Note(s, t, Execute), t, Executed(Temporary(v)), sure)
  {
    ExecutedNow(s.trace, a.calls, t);
    hide HasExecuted;
  }

  lemma TempClosed(op: Op, a: Start, s: Memory, t: Id, sure: bool, v: Id)
    requires Stands(op, a, s, t, TempClose(v), sure)
    requires s.vm.InHand?
    ensures Stands(op, a, ReturnVm(s, t, v), t, Unlock, sure)
  {
    if HasExecuted(s.trace, a.calls, t) { ExecutedBefore(s.trace, Event(t, CloseVm), a.calls, t); }
    hide HasExecuted;
  }

  lemma ResultDone(op: Op, a: Start, s: Memory, t: Id, sure: bool, source: Source)
    requires Stands(op, a, s, t, Executed(source), sure)
    ensures Stands(op, a, s, t, AfterResult(source), sure)
  {
  }

  lemma AffectedRead(op: Op, a: Start, s: Memory, t: Id, sure: bool, source: Source)
    requires Stands(op, a, s, t, Executed(source), sure)
    ensures Stands(op, a, s, t, Affected(source), sure)
  {
  }

  lemma AffectedDone(op: Op, a: Start, s: Memory, t: Id, sure: bool, source: Source)
    requires Stands(op, a, s, t, Affected(source), sure)
    ensures Stands(op, a, s, t, AfterResult(source), sure)
  {
  }

  // ---------------------------------------------------------------- handles that become children

  lemma Registered(op: Op, a: Start, s: Memory, t: Id, sure: bool, v: Id)
    requires Stands(op, a, s, t, Prepared(v), sure)
    ensures Stands(op, a, Register(s, v), t, Unlock, sure)
  {
  }

  lemma CursorDropped(op: Op, a: Start, s: Memory, t: Id, sure: bool, k: Id)
    requires Stands(op, a, s, t, Selected(k), sure)
    requires !sure && s.cursor.Drawn?
    ensures Stands(op, a, DropCursor(s, t, k, NoCursor), t, Unlock, sure)
  {
  }

  lemma CursorPublished(op: Op, a: Start, s: Memory, t: Id, sure: bool, k: Id)
    requires Stands(op, a, s, t, Selected(k), sure)
    ensures Stands(op, a, PublishDirect(s, k), t, Unlock, sure)
  {
  }

  // ---------------------------------------------------------------- transactions

  lemma TxEntered(op: Op, a: Start, s: Memory, t: Id, sure: bool, x: Id, commit: bool)
    requires Stands(op, a, s, t, EnterTx(x, commit), sure)
    ensures Stands(op, a, s, t, TxConn(x, commit), sure)
  {
  }

  lemma TxRefused(op: Op, a: Start, s: Memory, t: Id, sure: bool, x: Id, commit: bool)
    requires Stands(op, a, s, t, EnterTx(x, commit), sure)
    requires !Unfinished(s, x)
    ensures Stands(op, a, s, t, Unlock, sure)
  {
  }

  lemma TxLocked(op: Op, a: Start, s: Memory, t: Id, sure: bool, x: Id, commit: bool)
    requires Stands(op, a, s, t, TxConn(x, commit), sure)
    ensures Stands(op, a, s, t, TxBoth(x, commit), sure)
  {
  }

  lemma TxBusy(op: Op, a: Start, s: Memory, t: Id, sure: bool, x: Id, commit: bool)
    requires Stands(op, a, s, t, TxConn(x, commit), sure)
    requires s.children != 0
    ensures Stands(op, a, s, t, Unlock, sure)
  {
  }

  lemma TxGivesUp(op: Op, a: Start, s: Memory, t: Id, sure: bool, x: Id, commit: bool)
    requires Stands(op, a, s, t, TxBoth(x, commit), sure)
    requires !sure
    ensures Stands(op, a, s, t, Unlock, sure)
  {
  }

  lemma TxFinished(op: Op, a: Start, s: Memory, t: Id, sure: bool, x: Id, commit: bool)
    requires Stands(op, a, s, t, TxBoth(x, commit), sure)
    requires s.open && s.txActive && Untouched(s)
    ensures Stands(op, a, Cross(s, t, Finish(Some(x), commit, true), false, s.txs[x := true]), t, Unlock, sure)
  {
  }

  lemma TxNotFinished(op: Op, a: Start, s: Memory, t: Id, sure: bool, x: Id, commit: bool)
    requires Stands(op, a, s, t, TxBoth(x, commit), sure)
    requires !sure && s.txActive
    ensures Stands(op, a, Cross(s, t, Finish(Some(x), commit, false), true, s.txs), t, Unlock, sure)
  {
  }

  // ---------------------------------------------------------------- statements

  lemma StmtRefused(op: Op, a: Start, s: Memory, t: Id, sure: bool, m: Id, o: StmtOp)
    requires Stands(op, a, s, t, EnterStmt(m, o), sure)
    requires !Allowed(s, RunStmt(m, o))
    ensures Stands(op, a, s, t, Unlock, sure)
  {
  }

  lemma StmtEntered(op: Op, a: Start, s: Memory, t: Id, sure: bool, m: Id, o: StmtOp)
    requires Stands(op, a, s, t, EnterStmt(m, o), sure)
    requires !o.StmtClose? && s.open && OwnedBy(s.vm, m) && s.cursor == NoCursor
    ensures Stands(op, a, s, t, StmtEntry(m, o), sure)
  {
  }

  lemma StmtDetached(op: Op, a: Start, s: Memory, t: Id, sure: bool, m: Id, v: Id)
    requires Stands(op, a, s, t, EnterStmt(m, StmtClose), sure)
    requires s.open && OwnedBy(s.vm, m) && s.cursor == NoCursor && m in s.stmts
    ensures Stands(op, a, Detach(s, t, m, s.stmts[m], v), t, CloseVmOf(m, v), sure)
  {
  }

  lemma StmtBound(op: Op, a: Start, s: Memory, t: Id, sure: bool, m: Id)
    requires Stands(op, a, s, t, InBind(m), sure)
    ensures Stands(op, a, s, t, Unlock, sure)
  {
  }

  lemma StmtLocked(op: Op, a: Start, s: Memory, t: Id, sure: bool, m: Id)
    requires Stands(op, a, s, t, ExecConn(m), sure)
    ensures Stands(op, a, s, t, InExec(m), sure)
  {
  }

  lemma StmtGivesUp(op: Op, a: Start, s: Memory, t: Id, sure: bool, m: Id)
    requires Stands(op, a, s, t, InExec(m), sure)
    requires !sure
    ensures Stands(op, a, s, t, Unlock, sure)
  {
  }

  lemma ExecutedStmt(op: Op, a: Start, s: Memory, t: Id, sure: bool, m: Id)
    requires Stands(op, a, s, t, InExec(m), sure)
    ensures Stands(op, a, Note(s, t, Execute), t, Executed(OfStmt(m)), sure)
  {
    ExecutedNow(s.trace, a.calls, t);
    hide HasExecuted;
  }

  lemma VmClosed(op: Op, a: Start, s: Memory, t: Id, sure: bool, m: Id, v: Id)
    requires Stands(op, a, s, t, CloseVmOf(m, v), sure)
    requires s.vm.Detached?
    ensures Stands(op, a, CloseDetached(s, t, m, v), t, ReleaseStmt(m), sure)
  {
  }

  lemma StmtReleased(op: Op, a: Start, s: Memory, t: Id, sure: bool, m: Id)
    requires Stands(op, a, s, t, ReleaseStmt(m), sure)
    requires m in s.stmts && s.vm.Detached?
    ensures Stands(op, a, ReleaseDetached(s, m, s.stmts[m]), t, Unlock, sure)
  {
  }

  // ---------------------------------------------------------------- cursors of statements

  lemma QueryGivesUp(op: Op, a: Start, s: Memory, t: Id, sure: bool, m: Id, close: bool)
    requires Stands(op, a, s, t, InQuery(m, close), sure)
    requires !sure
    ensures Stands(op, a, s, t, Unlock, sure)
  {
  }

  lemma CursorDrawn(op: Op, a: Start, s: Memory, t: Id, sure: bool, m: Id, close: bool)
    requires Stands(op, a, s, t, InQuery(m, close), sure)
    requires s.cursor == NoCursor
    ensures Stands(op, a, GrabCursor(s, t, Some(m)), t, Drawing(m, s.nextId, close), sure)
  {
  }

  lemma DrawingGivesUp(op: Op, a: Start, s: Memory, t: Id, sure: bool, m: Id, k: Id, close: bool)
    requires Stands(op, a, s, t, Drawing(m, k, close), sure)
    requires !sure && s.cursor.Drawn?
    ensures Stands(op, a, DropCursor(s, t, k, NoCursor), t, Unlock, sure)
  {
  }

  lemma CursorDescribed(op: Op, a: Start, s: Memory, t: Id, sure: bool, m: Id, k: Id, close: bool)
    requires Stands(op, a, s, t, Drawing(m, k, close), sure)
    ensures Stands(op, a, s, t, AddChild(m, k, close), sure)
  {
  }

  lemma ChildAdded(op: Op, a: Start, s: Memory, t: Id, sure: bool, m: Id, k: Id, close: bool)
    requires Stands(op, a, s, t, AddChild(m, k, close), sure)
    requires s.cursor.Drawn?
    ensures Stands(op, a, AddCounted(s, t, k, m), t, Publish(m, k, close), sure)
  {
  }

  lemma ChildRefused(op: Op, a: Start, s: Memory, t: Id, sure: bool, m: Id, k: Id)
    requires Stands(op, a, s, t, AddFailed(m, k), sure)
    requires s.cursor.Drawn?
    ensures Stands(op, a, DropCursor(s, t, k, NoCursor), t, Unlock, sure)
  {
  }

  lemma StmtPublished(op: Op, a: Start, s: Memory, t: Id, sure: bool, m: Id, k: Id, close: bool)
    requires Stands(op, a, s, t, Publish(m, k, close), sure)
    requires s.cursor.Added?
    ensures Stands(op, a, PublishOfStmt(s, k, m, close), t, Unlock, sure)
  {
    var m' := PublishOfStmt(s, k, m, close);
    assert ShapeOf(m') == ShapeOf(s).(closes := close);
    hide ShapeOf, PublishOfStmt;
  }

  // ---------------------------------------------------------------- Reset

  lemma ResetLocked(op: Op, a: Start, s: Memory, t: Id, sure: bool, m: Id)
    requires Stands(op, a, s, t, ResetConn(m), sure)
    ensures Stands(op, a, s, t, InReset(m), sure)
  {
  }

  lemma ResetGivesUp(op: Op, a: Start, s: Memory, t: Id, sure: bool, m: Id)
    requires Stands(op, a, s, t, InReset(m), sure)
    requires !sure
    ensures Stands(op, a, s, t, Unlock, sure)
  {
  }

  lemma ResetDetached(op: Op, a: Start, s: Memory, t: Id, sure: bool, m: Id, v: Id)
    requires Stands(op, a, s, t, InReset(m), sure)
    requires m in s.stmts && s.vm.Owned?
    ensures Stands(op, a, Detach(s, t, m, s.stmts[m], v), t, ResetClose(m, v), sure)
  {
  }

  lemma ResetClosed(op: Op, a: Start, s: Memory, t: Id, sure: bool, m: Id, v: Id)
    requires Stands(op, a, s, t, ResetClose(m, v), sure)
    requires s.vm.Detached?
    ensures Stands(op, a, CloseDetached(s, t, m, v), t, ResetPrepare(m), sure)
  {
  }

  lemma ResetUnregistered(op: Op, a: Start, s: Memory, t: Id, sure: bool, m: Id)
    requires Stands(op, a, s, t, ResetPrepare(m), sure)
    requires !sure && s.vm.Detached? && m in s.stmts && s.stmts[m].registered
    ensures Stands(op, a, Unregister(s, m), t, Unlock, sure)
  {
  }

  lemma ResetAttached(op: Op, a: Start, s: Memory, t: Id, sure: bool, m: Id)
    requires Stands(op, a, s, t, ResetPrepare(m), sure)
    requires s.vm.Detached? && m in s.stmts
    ensures Stands(op, a, Reattach(s, t, m, s.stmts[m]), t, Unlock, sure)
  {
  }

  // ---------------------------------------------------------------- cursors

  lemma RowsRefused(op: Op, a: Start, s: Memory, t: Id, sure: bool, r: Id, close: bool)
    requires Stands(op, a, s, t, EnterRows(r, close), sure)
    requires !Allowed(s, RunRows(r, close))
    ensures Stands(op, a, s, t, Unlock, sure)
  {
  }

  lemma RowsEntered(op: Op, a: Start, s: Memory, t: Id, sure: bool, r: Id)
    requires Stands(op, a, s, t, EnterRows(r, false), sure)
    requires s.open && s.cursor.Open?
    ensures Stands(op, a, s, t, InRows(r), sure)
  {
  }

  lemma RowsFaded(op: Op, a: Start, s: Memory, t: Id, sure: bool, r: Id, k: Id)
    requires Stands(op, a, s, t, EnterRows(r, true), sure)
    requires s.open && s.cursor == Open(r, k) && r in s.rows && (s.rows[r].parent.Some? <==> s.vm.Owned?) && !s.vm.Detached?
    ensures Stands(op, a, Fade(s, t, r, s.rows[r]), t, CloseCursorOf(r, k, s.rows[r].parent, s.rows[r].closeStmt), sure)
  {
  }

  lemma RowsRead(op: Op, a: Start, s: Memory, t: Id, sure: bool, r: Id)
    requires Stands(op, a, s, t, InRows(r), sure)
    ensures Stands(op, a, s, t, Unlock, sure)
  {
  }

  lemma CursorClosed(op: Op, a: Start, s: Memory, t: Id, sure: bool, r: Id, k: Id, parent: Option<Id>, close: bool)
    requires Stands(op, a, s, t, CloseCursorOf(r, k, parent, close), sure)
    requires s.cursor.Fading?
    ensures Stands(op, a, DropCursor(s, t, k, Fading(t, r, None, parent)), t, ReleaseRows(r, parent, close), sure)
  {
  }

  lemma RowsReleased(op: Op, a: Start, s: Memory, t: Id, sure: bool, r: Id, close: bool)
    requires Stands(op, a, s, t, ReleaseRows(r, None, close), sure)
    requires s.cursor.Fading?
    ensures Stands(op, a, ReleaseFaded(s, NoCursor), t, Unlock, sure)
  {
  }

  lemma RowsOwing(op: Op, a: Start, s: Memory, t: Id, sure: bool, r: Id, m: Id, close: bool)
    requires Stands(op, a, s, t, ReleaseRows(r, Some(m), close), sure)
    requires s.cursor.Fading?
    ensures Stands(op, a, ReleaseFaded(s, Owing(t, r, m)), t, EnterOwed(r, m, close), sure)
  {
  }

  lemma OwedPaid(op: Op, a: Start, s: Memory, t: Id, sure: bool, r: Id, m: Id)
    requires Stands(op, a, s, t, EnterOwed(r, m, false), sure)
    requires s.cursor.Owing? && m in s.stmts && s.vm.Owned?
    ensures Stands(op, a, PayOwed(s, m, s.stmts[m]), t, Unlock, sure)
  {
  }

  lemma OwedDetached(op: Op, a: Start, s: Memory, t: Id, sure: bool, r: Id, m: Id, st: Stmt, v: Id)
    requires Stands(op, a, s, t, EnterOwed(r, m, true), sure)
    requires s.cursor.Owing? && m in s.stmts && s.vm.Owned?
    ensures Stands(op, a, Detach(PayOwed(s, m, s.stmts[m]), t, m, st, v), t, CloseVmOf(m, v), sure)
  {
  }

  /** Where a statement operation goes from its guards. */
  function StmtEntry(m: Id, o: StmtOp): Pc {
    match o
    case StmtBind => InBind(m)
    case StmtExec => ExecConn(m)
    case StmtQuery(close) => InQuery(m, close)
    case StmtReset => ResetConn(m)
    case StmtClose => EnterStmt(m, o)
  }

  // ---------------------------------------------------------------- steps

  /** A step of an operation that is under way, and sure to succeed if `sure`. */
  predicate Under(op: Op, a: Start, s: Memory, t: Id, th: Thread, c: Choice, sure: bool) {
    Ready(s, t, th) && Stands(op, a, s, t, th.pc, sure) && (sure ==> Goes(c, true))
  }

  lemma StepEnter(op: Op, a: Start, s: Memory, t: Id, th: Thread, c: Choice, sure: bool)
    requires Under(op, a, s, t, th, c, sure) && AtEnter(th.pc)
    ensures var m := Next(s, t, th, c); Stands(op, a, m.memory, t, m.th.pc, sure)
  {
    hide Stands, Note, Odd, GrabVm, ReturnVm, Register, Detach, CloseDetached, Reattach, GrabCursor, DropCursor, ReleaseDetached,
      Unregister, PublishDirect, PublishOfStmt, Fade, AddCounted, ReleaseFaded, PayOwed, Cross;
    match th.pc
    case EnterConn(o) => if ConnGuard(s, o) { ConnEntered(op, a, s, t, sure, o); } else { ConnRefused(op, a, s, t, sure, o); }
    case EnterShared(ping) =>
      if s.open && (ping || s.children == 0) { SharedEntered(op, a, s, t, sure, ping); } else { SharedRefused(op, a, s, t, sure, ping); }
    case InShared(ping) =>
      SharedDone(op, a, s, t, sure, ping);
      StandsNoted(op, a, s, t, Unlock, sure, if ping then Call.Ping else PublicMetric);
  }

  lemma StepOpen(op: Op, a: Start, s: Memory, t: Id, th: Thread, c: Choice, sure: bool)
    requires Under(op, a, s, t, th, c, sure) && th.pc.InConn?
    requires th.pc.op.ConnExec? || th.pc.op.ConnPrepare? || th.pc.op.ConnQuery?
    ensures var m := Next(s, t, th, c); Stands(op, a, m.memory, t, m.th.pc, sure)
  {
    hide Stands, Note, Odd, GrabVm, ReturnVm, Register, Detach, CloseDetached, Reattach, GrabCursor, DropCursor, ReleaseDetached,
      Unregister, PublishDirect, PublishOfStmt, Fade, AddCounted, ReleaseFaded, PayOwed, Cross;
    var o := th.pc.op;
    if c.branch == Abort {
      ConnGivesUp(op, a, s, t, sure, o);
    } else if o.ConnExec? {
      if c.branch == Ahead && c.ok {
        TempOpened(op, a, s, t, sure);
      } else if c.branch == Ahead || !c.ok {
        ConnGivesUp(op, a, s, t, sure, o);
        StandsNoted(op, a, s, t, Unlock, sure, if c.branch == Ahead then Call.Prepare else Execute);
      } else {
        ExecutedPlain(op, a, s, t, sure);
      }
    } else if !c.ok {
      ConnGivesUp(op, a, s, t, sure, o);
      StandsNoted(op, a, s, t, Unlock, sure, if o.ConnPrepare? then Call.Prepare else Select);
    } else if o.ConnPrepare? {
      PrepareOpened(op, a, s, t, sure);
    } else {
      QueryOpened(op, a, s, t, sure);
    }
  }

  lemma StepBoundary(op: Op, a: Start, s: Memory, t: Id, th: Thread, c: Choice, sure: bool)
    requires Under(op, a, s, t, th, c, sure) && th.pc.InConn?
    requires !(th.pc.op.ConnExec? || th.pc.op.ConnPrepare? || th.pc.op.ConnQuery?)
    ensures var m := Next(s, t, th, c); Stands(op, a, m.memory, t, m.th.pc, sure)
  {
    hide Stands, Note, Odd, GrabVm, ReturnVm, Register, Detach, CloseDetached, Reattach, GrabCursor, DropCursor, ReleaseDetached,
      Unregister, PublishDirect, PublishOfStmt, Fade, AddCounted, ReleaseFaded, PayOwed, Cross;
    var o := th.pc.op;
    if c.branch == Abort && !o.ConnClose? {
      ConnGivesUp(op, a, s, t, sure, o);
    } else {
      match o
      case ConnClose => ConnClosed(op, a, s, t, sure);
      case ConnSetDatabase => DatabaseSet(op, a, s, t, sure);
      case ConnBegin => if c.ok { TxBegun(op, a, s, t, sure); } else { TxNotBegun(op, a, s, t, sure); }
      case ConnFinish(commit) => ImplicitFinished(op, a, s, t, sure, commit, c.ok);
    }
  }

  lemma StepTemp(op: Op, a: Start, s: Memory, t: Id, th: Thread, c: Choice, sure: bool)
    requires Under(op, a, s, t, th, c, sure) && AtTemp(th.pc)
    ensures var m := Next(s, t, th, c); Stands(op, a, m.memory, t, m.th.pc, sure)
  {
    hide Stands, Note, Odd, GrabVm, ReturnVm, Register, Detach, CloseDetached, Reattach, GrabCursor, DropCursor, ReleaseDetached,
      Unregister, PublishDirect, PublishOfStmt, Fade, AddCounted, ReleaseFaded, PayOwed, Cross;
    match th.pc
    case TempClose(v) => TempClosed(op, a, s, t, sure, v);
    case TempReady(v) =>
      match c.branch {
        case Abort => TempGivesUp(op, a, s, t, sure, v);
        case Again =>
          StandsNoted(op, a, s, t, th.pc, sure, BindValue);
          TempGivesUp(op, a, s, t, sure, v);
          StandsNoted(op, a, s, t, TempClose(v), sure, BindValue);
        case Ahead =>
          if c.ok {
            ExecutedTemp(op, a, s, t, sure, v);
          } else {
            TempGivesUp(op, a, s, t, sure, v);
            StandsNoted(op, a, s, t, TempClose(v), sure, Execute);
          }
      }
  }

  lemma StepResult(op: Op, a: Start, s: Memory, t: Id, th: Thread, c: Choice, sure: bool)
    requires Under(op, a, s, t, th, c, sure) && AtResult(th.pc)
    ensures var m := Next(s, t, th, c); Stands(op, a, m.memory, t, m.th.pc, sure)
  {
    hide Stands, Note, Odd, GrabVm, ReturnVm, Register, Detach, CloseDetached, Reattach, GrabCursor, DropCursor, ReleaseDetached,
      Unregister, PublishDirect, PublishOfStmt, Fade, AddCounted, ReleaseFaded, PayOwed, Cross;
    match th.pc
    case Executed(source) =>
      ResultDone(op, a, s, t, sure, source);
      AffectedRead(op, a, s, t, sure, source);
      StandsNoted(op, a, s, t, Affected(source), sure, ResultAffected);
    case Affected(source) =>
      AffectedDone(op, a, s, t, sure, source);
      StandsNoted(op, a, s, t, AfterResult(source), sure, ResultLastId);
  }

  lemma StepHandle(op: Op, a: Start, s: Memory, t: Id, th: Thread, c: Choice, sure: bool)
    requires Under(op, a, s, t, th, c, sure) && AtHandle(th.pc)
    ensures var m := Next(s, t, th, c); Stands(op, a, m.memory, t, m.th.pc, sure)
  {
    hide Stands, Note, Odd, GrabVm, ReturnVm, Register, Detach, CloseDetached, Reattach, GrabCursor, DropCursor, ReleaseDetached,
      Unregister, PublishDirect, PublishOfStmt, Fade, AddCounted, ReleaseFaded, PayOwed, Cross;
    match th.pc
    case Prepared(v) => Registered(op, a, s, t, sure, v);
    case Selected(k) =>
      match c.branch {
        case Abort => CursorDropped(op, a, s, t, sure, k);
        case Again => StandsNoted(op, a, s, t, th.pc, sure, Describe);
        case Ahead => CursorPublished(op, a, s, t, sure, k);
      }
  }

  lemma StepTx(op: Op, a: Start, s: Memory, t: Id, th: Thread, c: Choice, sure: bool)
    requires Under(op, a, s, t, th, c, sure) && AtTx(th.pc)
    ensures var m := Next(s, t, th, c); Stands(op, a, m.memory, t, m.th.pc, sure)
  {
    hide Stands, Note, Odd, GrabVm, ReturnVm, Register, Detach, CloseDetached, Reattach, GrabCursor, DropCursor, ReleaseDetached,
      Unregister, PublishDirect, PublishOfStmt, Fade, AddCounted, ReleaseFaded, PayOwed, Cross;
    match th.pc
    case EnterTx(x, commit) => if Unfinished(s, x) { TxEntered(op, a, s, t, sure, x, commit); } else { TxRefused(op, a, s, t, sure, x, commit); }
    case TxConn(x, commit) =>
      assert s.txActive && s.open;
      if s.children != 0 { TxBusy(op, a, s, t, sure, x, commit); } else { TxLocked(op, a, s, t, sure, x, commit); }
    case TxBoth(x, commit) =>
      if c.branch == Abort {
        TxGivesUp(op, a, s, t, sure, x, commit);
      } else if c.ok {
        TxFinished(op, a, s, t, sure, x, commit);
      } else {
        TxNotFinished(op, a, s, t, sure, x, commit);
      }
  }

  lemma StepEnterStmt(op: Op, a: Start, s: Memory, t: Id, th: Thread, c: Choice, sure: bool)
    requires Under(op, a, s, t, th, c, sure) && th.pc.EnterStmt?
    ensures var m := Next(s, t, th, c); Stands(op, a, m.memory, t, m.th.pc, sure)
  {
    hide Stands, Note, Odd, GrabVm, ReturnVm, Register, Detach, CloseDetached, Reattach, GrabCursor, DropCursor, ReleaseDetached,
      Unregister, PublishDirect, PublishOfStmt, Fade, AddCounted, ReleaseFaded, PayOwed, Cross;
    var m, o := th.pc.stmt, th.pc.stmtOp;
    if !Allowed(s, RunStmt(m, o)) {
      StmtRefused(op, a, s, t, sure, m, o);
    } else if o.StmtClose? {
      StmtDetached(op, a, s, t, sure, m, s.stmts[m].native.value);
    } else {
      StmtEntered(op, a, s, t, sure, m, o);
    }
  }

  lemma StepStmt(op: Op, a: Start, s: Memory, t: Id, th: Thread, c: Choice, sure: bool)
    requires Under(op, a, s, t, th, c, sure) && AtStmt(th.pc)
    ensures var m := Next(s, t, th, c); Stands(op, a, m.memory, t, m.th.pc, sure)
  {
    hide Stands, Note, Odd, GrabVm, ReturnVm, Register, Detach, CloseDetached, Reattach, GrabCursor, DropCursor, ReleaseDetached,
      Unregister, PublishDirect, PublishOfStmt, Fade, AddCounted, ReleaseFaded, PayOwed, Cross;
    match th.pc
    case InBind(m) =>
      StmtBound(op, a, s, t, sure, m);
      StandsNoted(op, a, s, t, Unlock, sure, BindValue);
    case ExecConn(m) => StmtLocked(op, a, s, t, sure, m);
    case InExec(m) =>
      if c.branch == Abort || !c.ok {
        StmtGivesUp(op, a, s, t, sure, m);
        StandsNoted(op, a, s, t, Unlock, sure, Execute);
      } else {
        ExecutedStmt(op, a, s, t, sure, m);
      }
  }

  lemma StepCloseVm(op: Op, a: Start, s: Memory, t: Id, th: Thread, c: Choice, sure: bool)
    requires Under(op, a, s, t, th, c, sure) && AtCloseVm(th.pc)
    ensures var m := Next(s, t, th, c); Stands(op, a, m.memory, t, m.th.pc, sure)
  {
    hide Stands, Note, Odd, GrabVm, ReturnVm, Register, Detach, CloseDetached, Reattach, GrabCursor, DropCursor, ReleaseDetached,
      Unregister, PublishDirect, PublishOfStmt, Fade, AddCounted, ReleaseFaded, PayOwed, Cross;
    match th.pc
    case CloseVmOf(m, v) => VmClosed(op, a, s, t, sure, m, v);
    case ReleaseStmt(m) => StmtReleased(op, a, s, t, sure, m);
  }

  lemma StepQuery(op: Op, a: Start, s: Memory, t: Id, th: Thread, c: Choice, sure: bool)
    requires Under(op, a, s, t, th, c, sure) && AtQuery(th.pc)
    ensures var m := Next(s, t, th, c); Stands(op, a, m.memory, t, m.th.pc, sure)
  {
    hide Stands, Note, Odd, GrabVm, ReturnVm, Register, Detach, CloseDetached, Reattach, GrabCursor, DropCursor, ReleaseDetached,
      Unregister, PublishDirect, PublishOfStmt, Fade, AddCounted, ReleaseFaded, PayOwed, Cross;
    match th.pc
    case InQuery(m, close) =>
      if c.branch == Abort || !c.ok {
        QueryGivesUp(op, a, s, t, sure, m, close);
        StandsNoted(op, a, s, t, Unlock, sure, Select);
      } else {
        CursorDrawn(op, a, s, t, sure, m, close);
      }
    case Drawing(m, k, close) =>
      match c.branch {
        case Abort => DrawingGivesUp(op, a, s, t, sure, m, k, close);
        case Again => StandsNoted(op, a, s, t, th.pc, sure, Describe);
        case Ahead => CursorDescribed(op, a, s, t, sure, m, k, close);
      }
  }

  lemma StepPublish(op: Op, a: Start, s: Memory, t: Id, th: Thread, c: Choice, sure: bool)
    requires Under(op, a, s, t, th, c, sure) && AtPublish(th.pc)
    ensures var m := Next(s, t, th, c); Stands(op, a, m.memory, t, m.th.pc, sure)
  {
    hide Stands, Note, Odd, GrabVm, ReturnVm, Register, Detach, CloseDetached, Reattach, GrabCursor, DropCursor, ReleaseDetached,
      Unregister, PublishDirect, PublishOfStmt, Fade, AddCounted, ReleaseFaded, PayOwed, Cross;
    match th.pc
    case AddChild(m, k, close) => ChildAdded(op, a, s, t, sure, m, k, close);
    case AddFailed(m, k) => ChildRefused(op, a, s, t, sure, m, k);
    case Publish(m, k, close) => StmtPublished(op, a, s, t, sure, m, k, close);
  }

  lemma StepReset(op: Op, a: Start, s: Memory, t: Id, th: Thread, c: Choice, sure: bool)
    requires Under(op, a, s, t, th, c, sure) && AtReset(th.pc)
    ensures var m := Next(s, t, th, c); Stands(op, a, m.memory, t, m.th.pc, sure)
  {
    hide Stands, Note, Odd, GrabVm, ReturnVm, Register, Detach, CloseDetached, Reattach, GrabCursor, DropCursor, ReleaseDetached,
      Unregister, PublishDirect, PublishOfStmt, Fade, AddCounted, ReleaseFaded, PayOwed, Cross;
    match th.pc
    case ResetConn(m) => ResetLocked(op, a, s, t, sure, m);
    case InReset(m) =>
      if c.branch == Abort {
        ResetGivesUp(op, a, s, t, sure, m);
      } else {
        ResetDetached(op, a, s, t, sure, m, s.stmts[m].native.value);
      }
  }

  lemma StepResetClose(op: Op, a: Start, s: Memory, t: Id, th: Thread, c: Choice, sure: bool)
    requires Under(op, a, s, t, th, c, sure) && th.pc.ResetClose?
    ensures var m := Next(s, t, th, c); Stands(op, a, m.memory, t, m.th.pc, sure)
  {
    var m, v := th.pc.stmt, th.pc.vm;
    assert var s1 := CloseDetached(s, t, m, v); s1.vm.Detached? && s1.stmts == s.stmts;
    hide Stands, Note, Odd, GrabVm, ReturnVm, Register, Detach, CloseDetached, Reattach, GrabCursor, DropCursor, ReleaseDetached,
      Unregister, PublishDirect, PublishOfStmt, Fade, AddCounted, ReleaseFaded, PayOwed, Cross;
    ResetClosed(op, a, s, t, sure, m, v);
    if !c.ok { ResetUnregistered(op, a, CloseDetached(s, t, m, v), t, sure, m); }
  }

  lemma StepResetPrepare(op: Op, a: Start, s: Memory, t: Id, th: Thread, c: Choice, sure: bool)
    requires Under(op, a, s, t, th, c, sure) && th.pc.ResetPrepare?
    ensures var m := Next(s, t, th, c); Stands(op, a, m.memory, t, m.th.pc, sure)
  {
    var m := th.pc.stmt;
    assert var s1 := Note(s, t, Call.Prepare); s1.vm == s.vm && s1.stmts == s.stmts;
    hide Stands, Note, Odd, GrabVm, ReturnVm, Register, Detach, CloseDetached, Reattach, GrabCursor, DropCursor, ReleaseDetached,
      Unregister, PublishDirect, PublishOfStmt, Fade, AddCounted, ReleaseFaded, PayOwed, Cross;
    if c.branch == Abort {
      ResetUnregistered(op, a, s, t, sure, m);
    } else if c.ok {
      ResetAttached(op, a, s, t, sure, m);
    } else {
      StandsNoted(op, a, s, t, th.pc, sure, Call.Prepare);
      ResetUnregistered(op, a, Note(s, t, Call.Prepare), t, sure, m);
    }
  }

  lemma StepEnterRows(op: Op, a: Start, s: Memory, t: Id, th: Thread, c: Choice, sure: bool)
    requires Under(op, a, s, t, th, c, sure) && th.pc.EnterRows?
    ensures var m := Next(s, t, th, c); Stands(op, a, m.memory, t, m.th.pc, sure)
  {
    hide Stands, Note, Odd, GrabVm, ReturnVm, Register, Detach, CloseDetached, Reattach, GrabCursor, DropCursor, ReleaseDetached,
      Unregister, PublishDirect, PublishOfStmt, Fade, AddCounted, ReleaseFaded, PayOwed, Cross;
    var r, close := th.pc.rows, th.pc.close;
    if !Allowed(s, RunRows(r, close)) {
      RowsRefused(op, a, s, t, sure, r, close);
    } else if close {
      RowsFaded(op, a, s, t, sure, r, s.rows[r].native.value);
    } else {
      RowsEntered(op, a, s, t, sure, r);
    }
  }

  lemma StepRows(op: Op, a: Start, s: Memory, t: Id, th: Thread, c: Choice, sure: bool)
    requires Under(op, a, s, t, th, c, sure) && th.pc.InRows?
    ensures var m := Next(s, t, th, c); Stands(op, a, m.memory, t, m.th.pc, sure)
  {
    hide Stands, Note, Odd, GrabVm, ReturnVm, Register, Detach, CloseDetached, Reattach, GrabCursor, DropCursor, ReleaseDetached,
      Unregister, PublishDirect, PublishOfStmt, Fade, AddCounted, ReleaseFaded, PayOwed, Cross;
    var r := th.pc.rows;
    RowsRead(op, a, s, t, sure, r);
    StandsNoted(op, a, s, t, Unlock, sure, Fetch);
    StandsNoted(op, a, s, t, th.pc, sure, Fetch);
  }

  lemma StepCloseCursor(op: Op, a: Start, s: Memory, t: Id, th: Thread, c: Choice, sure: bool)
    requires Under(op, a, s, t, th, c, sure) && AtCloseCursor(th.pc)
    ensures var m := Next(s, t, th, c); Stands(op, a, m.memory, t, m.th.pc, sure)
  {
    hide Stands, Note, Odd, GrabVm, ReturnVm, Register, Detach, CloseDetached, Reattach, GrabCursor, DropCursor, ReleaseDetached,
      Unregister, PublishDirect, PublishOfStmt, Fade, AddCounted, ReleaseFaded, PayOwed, Cross;
    match th.pc
    case CloseCursorOf(r, k, parent, close) => CursorClosed(op, a, s, t, sure, r, k, parent, close);
    case ReleaseRows(r, parent, close) =>
      match parent {
        case None => RowsReleased(op, a, s, t, sure, r, close);
        case Some(m) => RowsOwing(op, a, s, t, sure, r, m, close);
      }
  }

  lemma StepOwed(op: Op, a: Start, s: Memory, t: Id, th: Thread, c: Choice, sure: bool)
    requires Under(op, a, s, t, th, c, sure) && th.pc.EnterOwed?
    ensures var m := Next(s, t, th, c); Stands(op, a, m.memory, t, m.th.pc, sure)
  {
    var r, m, close := th.pc.rows, th.pc.stmt, th.pc.closeStmt;
    assert s.stmts[m].rows == 1 && s.stmts[m].native.Some?;
    assert PayOwed(s, m, s.stmts[m]).stmts == s.stmts[m := s.stmts[m].(rows := 0)];
    hide Stands, Note, Odd, GrabVm, ReturnVm, Register, Detach, CloseDetached, Reattach, GrabCursor, DropCursor, ReleaseDetached,
      Unregister, PublishDirect, PublishOfStmt, Fade, AddCounted, ReleaseFaded, PayOwed, Cross;
    if close {
      OwedDetached(op, a, s, t, sure, r, m, PayOwed(s, m, s.stmts[m]).stmts[m], s.stmts[m].native.value);
    } else {
      OwedPaid(op, a, s, t, sure, r, m);
    }
  }

  lemma StepUnlock(op: Op, a: Start, s: Memory, t: Id, th: Thread, c: Choice, sure: bool)
    requires Under(op, a, s, t, th, c, sure) && th.pc.Unlock?
    ensures var m := Next(s, t, th, c); Stands(op, a, m.memory, t, m.th.pc, sure)
  {
    hide Stands, Ready;
    Unlocked(op, a, s, t, sure);
  }

  lemma Unlocked(op: Op, a: Start, s: Memory, t: Id, sure: bool)
    requires Stands(op, a, s, t, Unlock, sure)
    ensures Stands(op, a, s, t, Idle, sure)
  {
  }

  lemma StepStands(op: Op, a: Start, s: Memory, t: Id, th: Thread, c: Choice, sure: bool)
    requires Under(op, a, s, t, th, c, sure) && Working(th)
    ensures var m := Next(s, t, th, c); Stands(op, a, m.memory, t, m.th.pc, sure)
  {
    hide Under, Next;
    if AtEnter(th.pc) { StepEnter(op, a, s, t, th, c, sure); }
    else if AtTemp(th.pc) { StepTemp(op, a, s, t, th, c, sure); }
    else if AtResult(th.pc) { StepResult(op, a, s, t, th, c, sure); }
    else if AtHandle(th.pc) { StepHandle(op, a, s, t, th, c, sure); }
    else if AtTx(th.pc) { StepTx(op, a, s, t, th, c, sure); }
    else if AtStmt(th.pc) { StepStmt(op, a, s, t, th, c, sure); }
    else if AtCloseVm(th.pc) { StepCloseVm(op, a, s, t, th, c, sure); }
    else if AtQuery(th.pc) { StepQuery(op, a, s, t, th, c, sure); }
    else if AtPublish(th.pc) { StepPublish(op, a, s, t, th, c, sure); }
    else if AtReset(th.pc) { StepReset(op, a, s, t, th, c, sure); }
    else if AtCloseCursor(th.pc) { StepCloseCursor(op, a, s, t, th, c, sure); }
    else {
      match th.pc
      case InConn(o) =>
        if o.ConnExec? || o.ConnPrepare? || o.ConnQuery? { StepOpen(op, a, s, t, th, c, sure); }
        else { StepBoundary(op, a, s, t, th, c, sure); }
      case EnterStmt(_, _) => StepEnterStmt(op, a, s, t, th, c, sure);
      case ResetClose(_, _) => StepResetClose(op, a, s, t, th, c, sure);
      case ResetPrepare(_) => StepResetPrepare(op, a, s, t, th, c, sure);
      case EnterRows(_, _) => StepEnterRows(op, a, s, t, th, c, sure);
      case InRows(_) => StepRows(op, a, s, t, th, c, sure);
      case EnterOwed(_, _, _) => StepOwed(op, a, s, t, th, c, sure);
      case Unlock => StepUnlock(op, a, s, t, th, c, sure);
    }
  }

  // ---------------------------------------------------------------- whole operations

  /** After `n` steps of its own, `t` is between operations for the first time; if `sure`, nothing failed on the way. */
  ghost predicate Returned(s: State, s': State, t: Id, sure: bool, n: nat)
    decreases n
  {
    && t in s.threads
    && if n == 0 then s' == s && s.threads[t].pc == Idle
       else
         && s.threads[t].pc != Idle
         && exists m: State, c: Choice :: (sure ==> Goes(c, true)) && StepBy(s, m, t, c) && Returned(m, s', t, sure, n - 1)
  }

  /** `t` asks for `op` and carries it through without interruption, to whatever outcome. */
  ghost predicate Undertakes(s: State, s': State, t: Id, op: Op, sure: bool) {
    && t in s.threads && s.threads[t].pc == Idle
    && exists m: State, c: Choice, n: nat ::
         (sure ==> Goes(c, true)) && c.op == op && StepBy(s, m, t, c) && Returned(m, s', t, sure, n)
  }

  lemma {:induction false} ReturnedStands(s: State, s': State, t: Id, op: Op, a: Start, sure: bool, n: nat)
    requires Inv(s) && Returned(s, s', t, sure, n) && Stands(op, a, s.memory, t, s.threads[t].pc, sure)
    requires Working(s.threads[t]) || s.threads[t].pc == Idle
    ensures Inv(s') && t in s'.threads && Stands(op, a, s'.memory, t, Idle, sure)
    decreases n
  {
    hide Stands, StepBy, Inv;
    if n > 0 {
      var m: State, c: Choice :| (sure ==> Goes(c, true)) && StepBy(s, m, t, c) && Returned(m, s', t, sure, n - 1);
      OneStepStands(s, m, t, op, a, c, sure);
      ReturnedStands(m, s', t, op, a, sure, n - 1);
    }
  }

  lemma OneStepStands(s: State, m: State, t: Id, op: Op, a: Start, c: Choice, sure: bool)
    requires Inv(s) && StepBy(s, m, t, c) && (sure ==> Goes(c, true)) && Working(s.threads[t])
    requires Stands(op, a, s.memory, t, s.threads[t].pc, sure)
    ensures Inv(m) && t in m.threads && Stands(op, a, m.memory, t, m.threads[t].pc, sure)
    ensures Working(m.threads[t]) || m.threads[t].pc == Idle
  {
    hide Next, Stands;
    InvStep(s, m, t, c);
    EntryHolds(s, t);
    assert Local(s.memory, t, s.threads[t]);
    StepStands(op, a, s.memory, t, s.threads[t], c, sure);
    WorkKeepsOuter(s.memory, t, s.threads[t], c);
    hide Inv, Ready;
  }

  lemma Begins(s: State, m: State, t: Id, c: Choice, sure: bool)
    requires Inv(s) && StepBy(s, m, t, c) && s.threads[t].pc == Idle && Admits(s.threads[t].outer, c.op)
    requires !c.op.Take? && !c.op.Drop? && (sure ==> Allowed(s.memory, c.op))
    ensures Inv(m) && t in m.threads && Working(m.threads[t])
    ensures Stands(c.op, StartOf(s.memory), m.memory, t, m.threads[t].pc, sure)
  {
    InvStep(s, m, t, c);
    hide Inv, Next, Stands, Admits, Allowed;
    AskedStands(s.memory, t, s.threads[t], c, sure);
  }

  lemma AskedStands(s: Memory, t: Id, th: Thread, c: Choice, sure: bool)
    requires th.pc == Idle && Admits(th.outer, c.op) && !c.op.Take? && !c.op.Drop? && (sure ==> Allowed(s, c.op))
    ensures var m := Next(s, t, th, c); Working(m.th) && Stands(c.op, StartOf(s), m.memory, t, m.th.pc, sure)
  {
    hide ShapeOf, Allowed;
  }

  /**
    What an operation does when its goroutine is not interrupted, whatever the others are in the middle of: it fails and
    changes nothing that matters, or it has exactly its effect; and if its guards hold and nothing fails, it has it.
   */
  lemma UninterruptedOperation(s: State, s': State, t: Id, op: Op, sure: bool)
    requires Inv(s) && Undertakes(s, s', t, op, sure) && Admits(s.threads[t].outer, op)
    requires !op.Take? && !op.Drop? && (sure ==> Allowed(s.memory, op))
    ensures Inv(s')
    ensures if sure then Succeeded(op, StartOf(s.memory), s'.memory, t)
            else Done(op, ShapeOf(s.memory), ShapeOf(s'.memory)) || Failed(op, ShapeOf(s.memory), ShapeOf(s'.memory))
  {
    var m: State, c: Choice, n: nat :|
      (sure ==> Goes(c, true)) && c.op == op && StepBy(s, m, t, c) && Returned(m, s', t, sure, n);
    hide StepBy, Inv, Returned, Allowed, Done, Failed;
    Begins(s, m, t, c, sure);
    ReturnedStands(m, s', t, op, StartOf(s.memory), sure, n);
  }

  lemma {:induction false} FinishedReturned(s: State, s': State, t: Id, ok: bool, n: nat)
    requires Finishes(s, s', t, ok, n)
    ensures Returned(s, s', t, ok, n)
    decreases n
  {
    hide StepBy;
    if n > 0 {
      var m: State, c: Choice :| Goes(c, ok) && StepBy(s, m, t, c) && Finishes(m, s', t, ok, n - 1);
      FinishedReturned(m, s', t, ok, n - 1);
    }
  }

  /** An operation a path asks to go well, on a connection that allows it, does. */
  lemma CarriedSucceeds(s: State, s': State, t: Id, op: Op)
    requires Inv(s) && Carries(s, s', t, Asked(op, true)) && Admits(s.threads[t].outer, op)
    requires !op.Take? && !op.Drop? && Allowed(s.memory, op)
    ensures Inv(s') && Succeeded(op, StartOf(s.memory), s'.memory, t)
  {
    hide StepBy, Inv, Allowed, Succeeded;
    var m: State, c: Choice, n: nat :| Goes(c, true) && c.op == op && StepBy(s, m, t, c) && Finishes(m, s', t, true, n);
    FinishedReturned(m, s', t, true, n);
    UninterruptedOperation(s, s', t, op, true);
  }

  // ---------------------------------------------------------------- which states the guards let through

  /** What can be done in a shape. */
  ghost predicate Doable(op: Op, a: Shape) { exists b :: Done(op, a, b) }

  /** What can be done: with a transaction open too, everything but closing, changing database and finishing without it. */
  lemma DoableExactly(op: Op, a: Shape)
    requires !op.Take? && !op.Drop?
    ensures Doable(op, a) <==>
              && a.open
              && match op
                 case RunConn(o) =>
                   !a.stmt && !a.cursor && (a.tx ==> o == ConnExec || o == ConnQuery || o == ConnPrepare)
                 case RunShared(ping) => ping || (!a.stmt && !a.cursor)
                 case RunTx(_, _) => a.tx && !a.stmt && !a.cursor
                 case RunStmt(_, _) => a.stmt && !a.cursor
                 case RunRows(_, _) => a.cursor
  {
    var queried := a.(cursor := true, closes := op.RunStmt? && op.stmtOp.StmtQuery? && op.stmtOp.closeWithRows);
    assert Done(op, a, a) || Done(op, a, queried) || Done(op, a, a.(stmt := !a.stmt)) || Done(op, a, a.(tx := !a.tx))
        || Done(op, a, a.(open := false)) || Done(op, a, Shape(a.open, a.tx, a.stmt && !a.closes, false, false)) || !Doable(op, a);
  }

  /** The operation is asked of the live transaction, the live statement, or the open cursor; others ask the connection. */
  predicate OfLive(s: Memory, op: Op) {
    match op
    case RunTx(x, _) => x in s.txs && !s.txs[x]
    case RunStmt(m, _) => s.vm.Owned? && s.vm.stmt == m
    case RunRows(r, _) => s.cursor.Open? && s.cursor.rows == r
    case _ => true
  }

  /**
    In every reachable state the guards let an operation through exactly when it can be done there. (Those of a statement
    are meant for when its mutex can be taken: no goroutine has a cursor in flight.)
   */
  lemma GuardsExactly(s: State, op: Op)
    requires Inv(s) && !op.Take? && !op.Drop? && (op.RunStmt? ==> CursorHolder(s.memory.cursor) == None)
    ensures Allowed(s.memory, op) <==> OfLive(s.memory, op) && Doable(op, ShapeOf(s.memory))
  {
    var m, a := s.memory, ShapeOf(s.memory);
    DoableExactly(op, a);
    hide Doable;
    match op
    case RunStmt(stmt, _) => assert stmt in m.stmts ==> StmtOk(m.stmts[stmt], stmt, m.vm, Charged(m));
    case RunRows(r, _) => assert RowsOk(m.rows, m.cursor);
    case RunTx(x, _) => assert TxOk(m.txActive, m.txs, TxReplay(m.trace));
    case _ =>
  }

  // ---------------------------------------------------------------- operations that do nothing

  /** A close, which nothing stops once its guards have let it through. */
  predicate Closes(op: Op) {
    || (op.RunConn? && op.connOp.ConnClose?) || (op.RunStmt? && op.stmtOp.StmtClose?) || (op.RunRows? && op.close)
  }

  predicate Enters(op: Op, pc: Pc) {
    match pc
    case EnterConn(o) => op == RunConn(o)
    case EnterShared(ping) => op == RunShared(ping)
    case EnterTx(x, commit) => op == RunTx(x, commit)
    case EnterStmt(m, o) => op == RunStmt(m, o)
    case EnterRows(r, close) => op == RunRows(r, close)
    case _ => false
  }

  /** Where an operation can stand that is refused, or gives up. */
  predicate Still(op: Op, s: Memory, pc: Pc, refused: bool) {
    || pc.Unlock? || pc.Idle?
    || (Enters(op, pc) && if refused then !Allowed(s, op) else !Closes(op))
    || (pc.TxConn? && (refused ==> s.children != 0))
    || (!refused && (|| (pc.InConn? && !pc.op.ConnClose?) || pc.InShared? || pc.TxBoth? || pc.InBind? || pc.ExecConn? || pc.InExec?
                     || pc.InQuery? || pc.ResetConn? || pc.InReset? || pc.InRows?))
  }

  lemma StepStill(op: Op, s: Memory, t: Id, th: Thread, c: Choice, refused: bool)
    requires Ready(s, t, th) && Working(th) && Still(op, s, th.pc, refused) && (!refused ==> Goes(c, false))
    ensures var m := Next(s, t, th, c); m.memory == s && Still(op, s, m.th.pc, refused)
  {
    hide Next, Ready;
    if AtTx(th.pc) {
      TxStill(op, s, t, th, c, refused);
    } else if Entering(th.pc) {
      EntryStill(op, s, t, th, c, refused);
    } else {
      InsideStill(op, s, t, th, c, refused);
    }
  }

  lemma EntryStill(op: Op, s: Memory, t: Id, th: Thread, c: Choice, refused: bool)
    requires Entering(th.pc) && !th.pc.EnterTx? && Still(op, s, th.pc, refused) && (!refused ==> Goes(c, false))
    ensures var m := Next(s, t, th, c); m.memory == s && Still(op, s, m.th.pc, refused)
  {
  }

  lemma InsideStill(op: Op, s: Memory, t: Id, th: Thread, c: Choice, refused: bool)
    requires !AtTx(th.pc) && !Entering(th.pc) && Working(th) && Still(op, s, th.pc, refused) && (!refused ==> Goes(c, false))
    ensures var m := Next(s, t, th, c); m.memory == s && Still(op, s, m.th.pc, refused)
  {
  }

  lemma TxStill(op: Op, s: Memory, t: Id, th: Thread, c: Choice, refused: bool)
    requires Ready(s, t, th) && AtTx(th.pc) && Still(op, s, th.pc, refused) && (!refused ==> Goes(c, false))
    ensures var m := Next(s, t, th, c); m.memory == s && Still(op, s, m.th.pc, refused)
  {
    assert TxOk(s.txActive, s.txs, TxReplay(s.trace));
  }

  lemma OneStepStill(s: State, m: State, t: Id, op: Op, c: Choice, refused: bool)
    requires Inv(s) && StepBy(s, m, t, c) && (!refused ==> Goes(c, false)) && Working(s.threads[t])
    requires Still(op, s.memory, s.threads[t].pc, refused)
    ensures Inv(m) && t in m.threads && m.memory == s.memory && Still(op, m.memory, m.threads[t].pc, refused)
    ensures Working(m.threads[t]) || m.threads[t].pc == Idle
  {
    hide Next, Still;
    InvStep(s, m, t, c);
    EntryHolds(s, t);
    assert Local(s.memory, t, s.threads[t]);
    StepStill(op, s.memory, t, s.threads[t], c, refused);
    WorkKeepsOuter(s.memory, t, s.threads[t], c);
    hide Inv, Ready;
  }

  lemma BeginsStill(s: State, m: State, t: Id, c: Choice, refused: bool)
    requires Inv(s) && StepBy(s, m, t, c) && s.threads[t].pc == Idle && Admits(s.threads[t].outer, c.op)
    requires !c.op.Take? && !c.op.Drop? && if refused then !Allowed(s.memory, c.op) else !Closes(c.op)
    ensures Inv(m) && t in m.threads && Working(m.threads[t])
    ensures m.memory == s.memory && Still(c.op, m.memory, m.threads[t].pc, refused)
  {
    InvStep(s, m, t, c);
    hide Inv, Next, Still, Admits, Allowed;
    AskedStill(s.memory, t, s.threads[t], c, refused);
  }

  lemma AskedStill(s: Memory, t: Id, th: Thread, c: Choice, refused: bool)
    requires th.pc == Idle && Admits(th.outer, c.op) && !c.op.Take? && !c.op.Drop?
    requires if refused then !Allowed(s, c.op) else !Closes(c.op)
    ensures var m := Next(s, t, th, c); Working(m.th) && m.memory == s && Still(c.op, m.memory, m.th.pc, refused)
  {
    hide Allowed;
  }

  lemma {:induction false} ReturnedStill(s: State, s': State, t: Id, op: Op, n: nat)
    requires Inv(s) && Returned(s, s', t, false, n) && Still(op, s.memory, s.threads[t].pc, true)
    requires Working(s.threads[t]) || s.threads[t].pc == Idle
    ensures s'.memory == s.memory
    decreases n
  {
    hide Still, StepBy, Inv;
    if n > 0 {
      var m: State, c: Choice :| StepBy(s, m, t, c) && Returned(m, s', t, false, n - 1);
      OneStepStill(s, m, t, op, c, true);
      ReturnedStill(m, s', t, op, n - 1);
    }
  }

  lemma {:induction false} FinishedStill(s: State, s': State, t: Id, op: Op, n: nat)
    requires Inv(s) && Finishes(s, s', t, false, n) && Still(op, s.memory, s.threads[t].pc, false)
    requires Working(s.threads[t]) || s.threads[t].pc == Idle
    ensures s'.memory == s.memory
    decreases n
  {
    hide Still, StepBy, Inv;
    if n > 0 {
      var m: State, c: Choice :| Goes(c, false) && StepBy(s, m, t, c) && Finishes(m, s', t, false, n - 1);
      OneStepStill(s, m, t, op, c, false);
      FinishedStill(m, s', t, op, n - 1);
    }
  }

  /** An operation whose guards do not hold makes no native call and changes nothing at all. */
  lemma RefusedChangesNothing(s: State, s': State, t: Id, op: Op)
    requires Inv(s) && Undertakes(s, s', t, op, false) && Admits(s.threads[t].outer, op)
    requires !op.Take? && !op.Drop? && !Allowed(s.memory, op)
    ensures s'.memory == s.memory
  {
    hide StepBy, Inv, Returned, Allowed, Still;
    var m: State, c: Choice, n: nat :| c.op == op && StepBy(s, m, t, c) && Returned(m, s', t, false, n);
    BeginsStill(s, m, t, c, true);
    ReturnedStill(m, s', t, op, n);
  }

  /** A context that has ended before the native call stops every operation but a close, before it changed anything. */
  lemma GivenUpChangesNothing(s: State, s': State, t: Id, op: Op)
    requires Inv(s) && Carries(s, s', t, Asked(op, false)) && Admits(s.threads[t].outer, op)
    requires !op.Take? && !op.Drop? && !Closes(op)
    ensures s'.memory == s.memory
  {
    hide StepBy, Inv, Finishes, Allowed, Still;
    var m: State, c: Choice, n: nat :| Goes(c, false) && c.op == op && StepBy(s, m, t, c) && Finishes(m, s', t, false, n);
    BeginsStill(s, m, t, c, false);
    FinishedStill(m, s', t, op, n);
  }

  lemma BareIsFree(s: State)
    requires Inv(s) && Bare(ShapeOf(s.memory)) && !s.memory.txActive
    ensures Allowed(s.memory, RunConn(ConnFinish(true)))
  {
  }

  lemma TwoPerformed(s: State, s': State, t: Id, one: Asked, two: Asked) returns (m: State)
    requires Performs(s, s', t, [one, two])
    ensures Carries(s, m, t, one) && Carries(m, s', t, two)
  {
    hide Carries;
    m :| Carries(s, m, t, one) && Performs(m, s', t, [one, two][1..]);
    assert [one, two][1..] == [two] && [two][1..] == [];
    var e :| Carries(m, e, t, two) && Performs(e, s', t, [two][1..]);
  }

  lemma ExecBodyOps()
    ensures Ops(ExecBody()) == [Asked(RunConn(ConnExec), true), Asked(RunConn(ConnFinish(true)), true)]
  {
  }

  /** An execution that went well on a free connection leaves it free. */
  lemma ExecutedIsFree(s: State, m: State, t: Id)
    requires Inv(m) && ConnGuard(s.memory, ConnFinish(true)) && Bare(ShapeOf(s.memory))
    requires ShapeOf(m.memory) == ShapeOf(s.memory)
    ensures Allowed(m.memory, RunConn(ConnFinish(true)))
  {
    BareIsFree(m);
  }

  /** The good path of the adapter's Exec on a free connection: the statement is executed, and then a commit is made. */
  lemma ExecPathCommits(s: State, s': State, t: Id)
    requires Inv(s) && ConnGuard(s.memory, ConnFinish(true)) && Performs(s, s', t, Ops(ExecBody()))
    ensures exists m: State :: HasExecuted(m.memory.trace, |s.memory.trace|, t) && s'.memory.epoch > m.memory.epoch
    ensures ShapeOf(s'.memory) == ShapeOf(s.memory)
  {
    hide Inv, Carries, ShapeOf, HasExecuted, Ops, Performs, StepBy, Returned;
    ExecBodyOps();
    var exec, commit := Asked(RunConn(ConnExec), true), Asked(RunConn(ConnFinish(true)), true);
    var m := TwoPerformed(s, s', t, exec, commit);
    CarriedSucceeds(s, m, t, exec.op);
    ExecutedIsFree(s, m, t);
    CarriedSucceeds(m, s', t, commit.op);
  }
}
