/** Every step of every goroutine keeps the invariant of `InterleavingSafety`. */
module InterleavingSteps {
  import opened Basics
  import opened Interleaving
  import opened InterleavingSafety

  // ---------------------------------------------------------------- traces

  lemma AppendEvent(tr: seq<Event>, e: Event)
    ensures TxReplay(tr + [e]) == TxAfter(TxReplay(tr), e.call)
    ensures LastIs(tr + [e], e)
    ensures forall d :: LastIs(tr, d) ==> LastTwoAre(tr + [e], d, e)
  {
    assert (tr + [e])[..|tr|] == tr;
  }

  lemma AppendAdjacent(tr: seq<Event>, e: Event)
    requires MetricsAdjacent(tr)
    requires e.call == ResultAffected ==> LastIs(tr, Event(e.tid, Execute))
    requires e.call == ResultLastId ==> LastTwoAre(tr, Event(e.tid, Execute), Event(e.tid, ResultAffected))
    ensures MetricsAdjacent(tr + [e])
  {
    var tr' := tr + [e];
    forall i | 0 <= i < |tr'| ensures MetricAt(tr', i) {
      assert i < |tr| ==> MetricAt(tr, i);
    }
  }

  // ---------------------------------------------------------------- what a step may change beside others

  /** Program points that make native calls. */
  predicate Calls(pc: Pc) {
    || pc.InConn? || pc.TempReady? || pc.Executed? || pc.Affected? || pc.TempClose? || pc.Selected? || pc.InShared?
    || pc.TxBoth? || pc.InBind? || pc.InExec? || pc.CloseVmOf? || pc.InQuery? || pc.Drawing? || pc.AddFailed?
    || pc.ResetClose? || pc.ResetPrepare? || pc.InRows? || pc.CloseCursorOf?
  }

  predicate VmChange(v: VmSlot, v': VmSlot, t: Id, th: Thread) {
    v' == v ||
    (&& (VmHolder(v') == None || VmHolder(v') == Some(t))
     && match v
        case NoVm => th.conn == Exclusive
        case Owned(m, _) => th.stmt == Some(m)
        case _ => VmHolder(v) == Some(t))
  }

  predicate CursorChange(k: CursorSlot, k': CursorSlot, vm: VmSlot, t: Id, th: Thread) {
    k' == k ||
    (&& (CursorHolder(k') == None || CursorHolder(k') == Some(t))
     && match k
        case NoCursor => (th.conn == Exclusive && vm == NoVm) || (vm.Owned? && th.stmt == Some(vm.stmt))
        case Open(r, _) => th.rows == Some(r)
        case _ => CursorHolder(k) == Some(t))
  }

  /** Every shared field a step changes is protected by a mutex the goroutine holds or by its own slot. */
  predicate Guarded(s: Memory, s': Memory, t: Id, th: Thread) {
    && VmChange(s.vm, s'.vm, t, th)
    && CursorChange(s.cursor, s'.cursor, s.vm, t, th)
    && (s'.open != s.open || s'.txActive != s.txActive ==> th.conn == Exclusive)
    && (forall x :: x in s.txs && !s.txs[x] && th.tx != Some(x) ==> Unfinished(s', x))
  }

  // ---------------------------------------------------------------- what each update keeps

  predicate Ready(s: Memory, t: Id, th: Thread) {
    MemoryOk(s) && Local(s, t, th) && EntryOk(s, th)
  }

  predicate Fine(s: Memory, s': Memory, t: Id, th: Thread) {
    MemoryOk(s') && Guarded(s, s', t, th)
  }

  /** Two updates of one step, of which only one changes a slot the other's permission depends on. */
  lemma FineThen(s: Memory, s1: Memory, s2: Memory, t: Id, th: Thread)
    requires Guarded(s, s1, t, th) && Fine(s1, s2, t, th)
    requires s1.vm == s.vm || s2.cursor == s1.cursor
    ensures Fine(s, s2, t, th)
  {
    hide MemoryOk;
  }

  lemma NoteFine(s: Memory, t: Id, th: Thread, call: Call)
    requires MemoryOk(s)
    requires TxAfter(TxReplay(s.trace), call) == TxReplay(s.trace)
    requires call == ResultAffected ==> LastIs(s.trace, Event(t, Execute))
    requires call == ResultLastId ==> LastTwoAre(s.trace, Event(t, Execute), Event(t, ResultAffected))
    ensures Fine(s, Note(s, t, call), t, th)
  {
    AppendEvent(s.trace, Event(t, call));
    AppendAdjacent(s.trace, Event(t, call));
  }

  lemma GrabVmFine(s: Memory, t: Id, th: Thread)
    requires MemoryOk(s) && Untouched(s) && s.open && th.conn == Exclusive
    ensures Fine(s, GrabVm(s, t), t, th)
  {
    AppendEvent(s.trace, Event(t, Prepare));
    AppendAdjacent(s.trace, Event(t, Prepare));
    hide MetricsAdjacent, TxReplay;
  }

  lemma ReturnVmFine(s: Memory, t: Id, th: Thread, v: Id)
    requires MemoryOk(s) && s.vm == InHand(t, v) && s.cursor == NoCursor
    ensures Fine(s, ReturnVm(s, t, v), t, th)
  {
    AppendEvent(s.trace, Event(t, CloseVm));
    AppendAdjacent(s.trace, Event(t, CloseVm));
    hide MetricsAdjacent, TxReplay;
  }

  lemma RegisterFine(s: Memory, t: Id, th: Thread, v: Id)
    requires MemoryOk(s) && s.vm == InHand(t, v) && s.cursor == NoCursor
    ensures Fine(s, Register(s, v), t, th)
  {
    hide MetricsAdjacent, TxReplay, TxOk;
  }

  lemma DetachFine(s: Memory, t: Id, th: Thread, m: Id, st: Stmt, v: Id)
    requires MemoryOk(s) && m in s.stmts && s.stmts[m] == st && st.native == Some(v) && s.cursor == NoCursor && th.stmt == Some(m)
    ensures Fine(s, Detach(s, t, m, st, v), t, th)
  {
    hide MetricsAdjacent, TxReplay, TxOk;
  }

  lemma CloseDetachedFine(s: Memory, t: Id, th: Thread, m: Id, v: Id)
    requires MemoryOk(s) && s.vm == Detached(t, m, Some(v)) && s.cursor == NoCursor
    ensures Fine(s, CloseDetached(s, t, m, v), t, th)
  {
    AppendEvent(s.trace, Event(t, CloseVm));
    AppendAdjacent(s.trace, Event(t, CloseVm));
    hide MetricsAdjacent, TxReplay;
  }

  lemma ReattachFine(s: Memory, t: Id, th: Thread, m: Id, st: Stmt)
    requires MemoryOk(s) && m in s.stmts && s.stmts[m] == st && s.vm == Detached(t, m, None) && s.cursor == NoCursor
    ensures Fine(s, Reattach(s, t, m, st), t, th)
  {
    AppendEvent(s.trace, Event(t, Prepare));
    AppendAdjacent(s.trace, Event(t, Prepare));
    hide MetricsAdjacent, TxReplay;
  }

  lemma ReleaseDetachedFine(s: Memory, t: Id, th: Thread, m: Id, st: Stmt)
    requires MemoryOk(s) && m in s.stmts && s.stmts[m] == st && s.vm == Detached(t, m, None) && s.cursor == NoCursor
    ensures Fine(s, ReleaseDetached(s, m, st), t, th)
  {
    hide MetricsAdjacent, TxReplay, TxOk;
  }

  lemma UnregisterFine(s: Memory, t: Id, th: Thread, m: Id)
    requires MemoryOk(s) && s.vm == Detached(t, m, None) && s.cursor == NoCursor
    ensures Fine(s, Unregister(s, m), t, th)
  {
    hide MetricsAdjacent, TxReplay, TxOk;
  }

  lemma GrabCursorFine(s: Memory, t: Id, th: Thread, parent: Option<Id>)
    requires MemoryOk(s) && s.cursor == NoCursor && s.open
    requires match parent case Some(m) => OwnedBy(s.vm, m) && th.stmt == parent case None => s.vm == NoVm && th.conn == Exclusive
    ensures Fine(s, GrabCursor(s, t, parent), t, th)
  {
    AppendEvent(s.trace, Event(t, Select));
    AppendAdjacent(s.trace, Event(t, Select));
    hide MetricsAdjacent, TxReplay;
  }

  lemma DropDrawnFine(s: Memory, t: Id, th: Thread, k: Id, parent: Option<Id>)
    requires MemoryOk(s) && s.cursor == Drawn(t, k, parent)
    ensures Fine(s, DropCursor(s, t, k, NoCursor), t, th)
  {
    AppendEvent(s.trace, Event(t, CloseCursor));
    AppendAdjacent(s.trace, Event(t, CloseCursor));
    hide MetricsAdjacent, TxReplay;
  }

  lemma PublishDirectFine(s: Memory, t: Id, th: Thread, k: Id)
    requires MemoryOk(s) && s.cursor == Drawn(t, k, None)
    ensures Fine(s, PublishDirect(s, k), t, th)
  {
    hide MetricsAdjacent, TxReplay, TxOk;
  }

  lemma AddCountedFine(s: Memory, t: Id, th: Thread, k: Id, m: Id)
    requires MemoryOk(s) && s.cursor == Drawn(t, k, Some(m))
    ensures Fine(s, AddCounted(s, t, k, m), t, th)
  {
    hide MetricsAdjacent, TxReplay, TxOk;
  }

  lemma PublishOfStmtFine(s: Memory, t: Id, th: Thread, k: Id, m: Id, close: bool)
    requires MemoryOk(s) && s.cursor == Added(t, k, m)
    ensures Fine(s, PublishOfStmt(s, k, m, close), t, th)
  {
    hide MetricsAdjacent, TxReplay, TxOk;
  }

  lemma FadeFine(s: Memory, t: Id, th: Thread, r: Id, w: Rows)
    requires MemoryOk(s) && r in s.rows && s.rows[r] == w && w.native.Some? && th.rows == Some(r)
    ensures Fine(s, Fade(s, t, r, w), t, th)
  {
    hide MetricsAdjacent, TxReplay, TxOk;
  }

  lemma DropFadingFine(s: Memory, t: Id, th: Thread, k: Id, r: Id, parent: Option<Id>)
    requires MemoryOk(s) && s.cursor == Fading(t, r, Some(k), parent)
    ensures Fine(s, DropCursor(s, t, k, Fading(t, r, None, parent)), t, th)
  {
    AppendEvent(s.trace, Event(t, CloseCursor));
    AppendAdjacent(s.trace, Event(t, CloseCursor));
    hide MetricsAdjacent, TxReplay;
  }

  lemma ReleaseFadedFine(s: Memory, t: Id, th: Thread, r: Id, parent: Option<Id>)
    requires MemoryOk(s) && s.cursor == Fading(t, r, None, parent)
    ensures Fine(s, ReleaseFaded(s, if parent.Some? then Owing(t, r, parent.value) else NoCursor), t, th)
  {
    hide MetricsAdjacent, TxReplay, TxOk;
  }

  lemma PayOwedFine(s: Memory, t: Id, th: Thread, m: Id, st: Stmt, r: Id)
    requires MemoryOk(s) && m in s.stmts && s.stmts[m] == st && s.cursor == Owing(t, r, m)
    ensures Fine(s, PayOwed(s, m, st), t, th)
  {
    hide MetricsAdjacent, TxReplay, TxOk;
  }

  lemma CloseFine(s: Memory, t: Id, th: Thread)
    requires MemoryOk(s) && Untouched(s) && s.open && !s.txActive && th.conn == Exclusive
    ensures Fine(s, Note(s, t, Disconnect).(open := false), t, th)
  {
    AppendEvent(s.trace, Event(t, Disconnect));
    AppendAdjacent(s.trace, Event(t, Disconnect));
    hide MetricsAdjacent, TxReplay;
  }

  lemma CrossFine(s: Memory, t: Id, th: Thread, call: Call, txActive: bool, txs: map<Id, bool>)
    requires MemoryOk(s) && Untouched(s) && s.open && th.conn == Exclusive
    requires call.Begin? || call.Finish? || call.SetDatabase?
    requires TxOk(txActive, txs, TxAfter(TxReplay(s.trace), call)) && IdsOk(txs, s.nextId + 1)
    requires forall x :: x in s.txs && !s.txs[x] && th.tx != Some(x) ==> x in txs && !txs[x]
    ensures Fine(s, Cross(s, t, call, txActive, txs), t, th)
  {
    AppendEvent(s.trace, Event(t, call));
    AppendAdjacent(s.trace, Event(t, call));
    hide MetricsAdjacent, TxReplay;
  }

  lemma SetDatabaseFine(s: Memory, t: Id, th: Thread)
    requires MemoryOk(s) && Untouched(s) && s.open && !s.txActive && th.conn == Exclusive
    ensures Fine(s, Cross(s, t, SetDatabase, false, s.txs), t, th)
  {
    CrossFine(s, t, th, SetDatabase, false, s.txs);
  }

  lemma ImplicitFine(s: Memory, t: Id, th: Thread, commit: bool, ok: bool)
    requires MemoryOk(s) && Untouched(s) && s.open && !s.txActive && th.conn == Exclusive
    ensures Fine(s, Cross(s, t, Finish(None, commit, ok), false, s.txs), t, th)
  {
    CrossFine(s, t, th, Finish(None, commit, ok), false, s.txs);
  }

  lemma BeginFine(s: Memory, t: Id, th: Thread, ok: bool)
    requires MemoryOk(s) && Untouched(s) && s.open && !s.txActive && th.conn == Exclusive
    ensures Fine(s, Cross(s, t, Begin(s.nextId, ok), ok, if ok then s.txs[s.nextId := false] else s.txs), t, th)
  {
    CrossFine(s, t, th, Begin(s.nextId, ok), ok, if ok then s.txs[s.nextId := false] else s.txs);
  }

  lemma FinishFine(s: Memory, t: Id, th: Thread, x: Id, commit: bool, ok: bool)
    requires MemoryOk(s) && Untouched(s) && s.open && s.txActive && Unfinished(s, x)
    requires th.conn == Exclusive && th.tx == Some(x)
    ensures Fine(s, Cross(s, t, Finish(Some(x), commit, ok), !ok, if ok then s.txs[x := true] else s.txs), t, th)
  {
    CrossFine(s, t, th, Finish(Some(x), commit, ok), !ok, if ok then s.txs[x := true] else s.txs);
  }

  // Consequences of `MemoryOk` that steps use.

  lemma KnownSlots(s: Memory)
    requires MemoryOk(s)
    ensures s.vm.InHand? || s.vm.Detached? ==> s.cursor == NoCursor
    ensures !Untouched(s) ==> s.open
    ensures Untouched(s) ==> s.nativeChildren == 0
    ensures s.vm.Detached? ==> s.vm.stmt in s.stmts && s.stmts[s.vm.stmt].registered
    ensures s.vm.Owned? ==> s.vm.stmt in s.stmts && s.stmts[s.vm.stmt].native == Some(s.vm.vm)
    ensures s.cursor.Owing? ==> OwnedBy(s.vm, s.cursor.stmt) && s.stmts[s.cursor.stmt].rows == 1
  {
  }

  lemma KnownStmt(s: Memory, m: Id)
    requires MemoryOk(s) && m in s.stmts && s.stmts[m].native.Some?
    ensures s.vm == Owned(m, s.stmts[m].native.value)
  {
  }

  lemma KnownRows(s: Memory, r: Id)
    requires MemoryOk(s) && r in s.rows && s.rows[r].native.Some?
    ensures s.cursor == Open(r, s.rows[r].native.value)
  {
  }

  lemma KnownTx(s: Memory, x: Id)
    requires MemoryOk(s) && Unfinished(s, x)
    ensures s.open && s.txActive
  {
  }

  // ---------------------------------------------------------------- what each step keeps

  lemma SameFine(s: Memory, t: Id, th: Thread)
    requires MemoryOk(s)
    ensures Fine(s, s, t, th)
  {
  }

  lemma FineEnter(s: Memory, t: Id, th: Thread, c: Choice)
    requires Ready(s, t, th) && AtEnter(th.pc)
    ensures var m := NextEnter(s, t, th, c); Fine(s, m.memory, t, m.th)
  {
    var m := NextEnter(s, t, th, c);
    hide MemoryOk, Guarded;
    KnownSlots(s);
    SameFine(s, t, m.th);
    if th.pc.InShared? { NoteFine(s, t, m.th, if th.pc.ping then Ping else PublicMetric); }
  }

  lemma SlotsEnter(s: Memory, t: Id, th: Thread, c: Choice)
    requires Ready(s, t, th) && AtEnter(th.pc)
    ensures var m := NextEnter(s, t, th, c); SlotsOk(m.memory, t, m.th.pc)
  {
    match th.pc {
      case EnterConn(op) => if ConnGuard(s, op) {} else {}
      case EnterShared(ping) => if s.open && (ping || s.children == 0) {} else {}
      case _ => if c.branch == Abort {} else {}
    }
    hide MemoryOk, LocksOk, RecentOk, EntryOk;
    KnownSlots(s);
  }

  lemma PlaceEnter(s: Memory, t: Id, th: Thread, c: Choice)
    requires Ready(s, t, th) && AtEnter(th.pc)
    ensures var m := NextEnter(s, t, th, c);
            LocksOk(m.th) && FactsOk(m.memory, m.th.pc) && RecentOk(m.memory.trace, t, m.th.pc)
  {
    hide MemoryOk;
    KnownSlots(s);
  }

  lemma FineOpen(s: Memory, t: Id, th: Thread, op: ConnOp, c: Choice)
    requires Ready(s, t, th) && th.pc == InConn(op) && (op.ConnExec? || op.ConnPrepare? || op.ConnQuery?)
    ensures var m := NextOpen(s, t, th, op, c); Fine(s, m.memory, t, m.th)
  {
    var m := NextOpen(s, t, th, op, c);
    hide MemoryOk, Guarded;
    KnownSlots(s);
    SameFine(s, t, m.th);
    GrabVmFine(s, t, m.th);
    GrabCursorFine(s, t, m.th, None);
    NoteFine(s, t, m.th, if op.ConnQuery? then Select else if op.ConnPrepare? || c.branch == Ahead then Prepare else Execute);
  }

  lemma SlotsOpen(s: Memory, t: Id, th: Thread, op: ConnOp, c: Choice)
    requires Ready(s, t, th) && th.pc == InConn(op) && (op.ConnExec? || op.ConnPrepare? || op.ConnQuery?)
    ensures var m := NextOpen(s, t, th, op, c); SlotsOk(m.memory, t, m.th.pc)
  {
    if c.branch == Ahead {} else {}
    if c.ok {} else {}
    hide MemoryOk, LocksOk, RecentOk, EntryOk;
    KnownSlots(s);
  }

  lemma PlaceOpen(s: Memory, t: Id, th: Thread, op: ConnOp, c: Choice)
    requires Ready(s, t, th) && th.pc == InConn(op) && (op.ConnExec? || op.ConnPrepare? || op.ConnQuery?)
    ensures var m := NextOpen(s, t, th, op, c);
            LocksOk(m.th) && FactsOk(m.memory, m.th.pc) && RecentOk(m.memory.trace, t, m.th.pc)
  {
    hide MemoryOk;
    KnownSlots(s);
  }

  lemma FineBoundary(s: Memory, t: Id, th: Thread, op: ConnOp, c: Choice)
    requires Ready(s, t, th) && th.pc == InConn(op) && !(op.ConnExec? || op.ConnPrepare? || op.ConnQuery?)
    ensures var m := NextBoundary(s, t, th, op, c); Fine(s, m.memory, t, m.th)
  {
    var m := NextBoundary(s, t, th, op, c);
    hide MemoryOk, Guarded;
    KnownSlots(s);
    SameFine(s, t, m.th);
    match op
    case ConnClose => CloseFine(s, t, m.th);
    case ConnSetDatabase => SetDatabaseFine(s, t, m.th);
    case ConnBegin => BeginFine(s, t, m.th, c.ok);
    case ConnFinish(commit) => ImplicitFine(s, t, m.th, commit, c.ok);
  }

  lemma SlotsBoundary(s: Memory, t: Id, th: Thread, op: ConnOp, c: Choice)
    requires Ready(s, t, th) && th.pc == InConn(op) && !(op.ConnExec? || op.ConnPrepare? || op.ConnQuery?)
    ensures var m := NextBoundary(s, t, th, op, c); SlotsOk(m.memory, t, m.th.pc)
  {
    hide MemoryOk, LocksOk, RecentOk, EntryOk;
    KnownSlots(s);
  }

  lemma PlaceBoundary(s: Memory, t: Id, th: Thread, op: ConnOp, c: Choice)
    requires Ready(s, t, th) && th.pc == InConn(op) && !(op.ConnExec? || op.ConnPrepare? || op.ConnQuery?)
    ensures var m := NextBoundary(s, t, th, op, c);
            LocksOk(m.th) && FactsOk(m.memory, m.th.pc) && RecentOk(m.memory.trace, t, m.th.pc)
  {
    hide MemoryOk;
    KnownSlots(s);
  }

  lemma FineTemp(s: Memory, t: Id, th: Thread, c: Choice)
    requires Ready(s, t, th) && AtTemp(th.pc)
    ensures var m := NextTemp(s, t, th, c); Fine(s, m.memory, t, m.th)
  {
    var m := NextTemp(s, t, th, c);
    hide MemoryOk, Guarded;
    KnownSlots(s);
    SameFine(s, t, m.th);
    match th.pc
    case TempReady(_) => NoteFine(s, t, m.th, if c.branch == Ahead then Execute else BindValue);
    case TempClose(v) => ReturnVmFine(s, t, m.th, v);
  }

  lemma SlotsTemp(s: Memory, t: Id, th: Thread, c: Choice)
    requires Ready(s, t, th) && AtTemp(th.pc)
    ensures var m := NextTemp(s, t, th, c); SlotsOk(m.memory, t, m.th.pc)
  {
    if th.pc.TempReady? { SlotsTempReady(s, t, th, c); } else { SlotsTempClose(s, t, th, c); }
    hide *;
  }

  lemma SlotsTempReady(s: Memory, t: Id, th: Thread, c: Choice)
    requires Ready(s, t, th) && th.pc.TempReady?
    ensures var m := NextTemp(s, t, th, c); SlotsOk(m.memory, t, m.th.pc)
  {
    match c.branch { case Abort => case Again => case Ahead => }
    if c.ok {} else {}
    hide MemoryOk, LocksOk, RecentOk, EntryOk;
    KnownSlots(s);
  }

  lemma SlotsTempClose(s: Memory, t: Id, th: Thread, c: Choice)
    requires Ready(s, t, th) && th.pc.TempClose?
    ensures var m := NextTemp(s, t, th, c); SlotsOk(m.memory, t, m.th.pc)
  {
    hide MemoryOk, LocksOk, RecentOk, EntryOk;
    KnownSlots(s);
  }

  lemma PlaceTemp(s: Memory, t: Id, th: Thread, c: Choice)
    requires Ready(s, t, th) && AtTemp(th.pc)
    ensures var m := NextTemp(s, t, th, c);
            LocksOk(m.th) && FactsOk(m.memory, m.th.pc) && RecentOk(m.memory.trace, t, m.th.pc)
  {
    if th.pc.TempReady? { PlaceTempReady(s, t, th, c); } else { PlaceTempClose(s, t, th, c); }
    hide *;
  }

  lemma PlaceTempReady(s: Memory, t: Id, th: Thread, c: Choice)
    requires Ready(s, t, th) && th.pc.TempReady?
    ensures var m := NextTemp(s, t, th, c);
            LocksOk(m.th) && FactsOk(m.memory, m.th.pc) && RecentOk(m.memory.trace, t, m.th.pc)
  {
    match c.branch { case Abort => case Again => case Ahead => }
    if c.ok {} else {}
    hide MemoryOk;
    KnownSlots(s);
  }

  lemma PlaceTempClose(s: Memory, t: Id, th: Thread, c: Choice)
    requires Ready(s, t, th) && th.pc.TempClose?
    ensures var m := NextTemp(s, t, th, c);
            LocksOk(m.th) && FactsOk(m.memory, m.th.pc) && RecentOk(m.memory.trace, t, m.th.pc)
  {
    hide MemoryOk;
    KnownSlots(s);
  }

  lemma FineResult(s: Memory, t: Id, th: Thread, c: Choice)
    requires Ready(s, t, th) && AtResult(th.pc)
    ensures var m := NextResult(s, t, th, c); Fine(s, m.memory, t, m.th)
  {
    var m := NextResult(s, t, th, c);
    hide MemoryOk, Guarded;
    KnownSlots(s);
    SameFine(s, t, m.th);
    NoteFine(s, t, m.th, if th.pc.Executed? then ResultAffected else ResultLastId);
  }

  lemma SlotsResult(s: Memory, t: Id, th: Thread, c: Choice)
    requires Ready(s, t, th) && AtResult(th.pc)
    ensures var m := NextResult(s, t, th, c); SlotsOk(m.memory, t, m.th.pc)
  {
    if c.branch == Abort {} else {}
    match th.pc.source { case Direct => case Temporary(_) => case OfStmt(_) => }
    hide MemoryOk, LocksOk, RecentOk, EntryOk;
    KnownSlots(s);
  }

  lemma PlaceResult(s: Memory, t: Id, th: Thread, c: Choice)
    requires Ready(s, t, th) && AtResult(th.pc)
    ensures var m := NextResult(s, t, th, c);
            LocksOk(m.th) && FactsOk(m.memory, m.th.pc) && RecentOk(m.memory.trace, t, m.th.pc)
  {
    hide Ready, NextResult, LocksOk, FactsOk, RecentOk, SlotsOk;
    if th.pc.Executed? { PlaceExecuted(s, t, th, c); } else { PlaceAffected(s, t, th, c); }
  }

  lemma PlaceExecuted(s: Memory, t: Id, th: Thread, c: Choice)
    requires Ready(s, t, th) && th.pc.Executed?
    ensures var m := NextResult(s, t, th, c);
            LocksOk(m.th) && FactsOk(m.memory, m.th.pc) && RecentOk(m.memory.trace, t, m.th.pc)
  {
    if c.branch == Abort {} else {}
    match th.pc.source { case Direct => case Temporary(_) => case OfStmt(_) => }
    hide MemoryOk, EntryOk;
  }

  lemma PlaceAffected(s: Memory, t: Id, th: Thread, c: Choice)
    requires Ready(s, t, th) && th.pc.Affected?
    ensures var m := NextResult(s, t, th, c);
            LocksOk(m.th) && FactsOk(m.memory, m.th.pc) && RecentOk(m.memory.trace, t, m.th.pc)
  {
    hide MemoryOk, EntryOk;
  }

  lemma FineHandle(s: Memory, t: Id, th: Thread, c: Choice)
    requires Ready(s, t, th) && AtHandle(th.pc)
    ensures var m := NextHandle(s, t, th, c); Fine(s, m.memory, t, m.th)
  {
    var m := NextHandle(s, t, th, c);
    hide MemoryOk, Guarded;
    KnownSlots(s);
    SameFine(s, t, m.th);
    match th.pc
    case Prepared(v) => RegisterFine(s, t, m.th, v);
    case Selected(k) =>
      match c.branch
      case Abort => DropDrawnFine(s, t, m.th, k, None);
      case Again => NoteFine(s, t, m.th, Describe);
      case Ahead => PublishDirectFine(s, t, m.th, k);
  }

  lemma SlotsHandle(s: Memory, t: Id, th: Thread, c: Choice)
    requires Ready(s, t, th) && AtHandle(th.pc)
    ensures var m := NextHandle(s, t, th, c); SlotsOk(m.memory, t, m.th.pc)
  {
    hide MemoryOk, LocksOk, RecentOk, EntryOk;
    KnownSlots(s);
  }

  lemma PlaceHandle(s: Memory, t: Id, th: Thread, c: Choice)
    requires Ready(s, t, th) && AtHandle(th.pc)
    ensures var m := NextHandle(s, t, th, c);
            LocksOk(m.th) && FactsOk(m.memory, m.th.pc) && RecentOk(m.memory.trace, t, m.th.pc)
  {
    hide MemoryOk;
    KnownSlots(s);
  }

  lemma FineTx(s: Memory, t: Id, th: Thread, c: Choice)
    requires Ready(s, t, th) && AtTx(th.pc)
    ensures var m := NextTx(s, t, th, c); Fine(s, m.memory, t, m.th)
  {
    var m := NextTx(s, t, th, c);
    hide MemoryOk, Guarded;
    KnownSlots(s);
    if th.pc.TxConn? { KnownTx(s, th.pc.tx); }
    SameFine(s, t, m.th);
    if th.pc.TxBoth? { FinishFine(s, t, m.th, th.pc.tx, th.pc.commit, c.ok); }
  }

  lemma SlotsTx(s: Memory, t: Id, th: Thread, c: Choice)
    requires Ready(s, t, th) && AtTx(th.pc)
    ensures var m := NextTx(s, t, th, c); SlotsOk(m.memory, t, m.th.pc)
  {
    hide MemoryOk, LocksOk, RecentOk, EntryOk;
    KnownSlots(s);
  }

  lemma PlaceTx(s: Memory, t: Id, th: Thread, c: Choice)
    requires Ready(s, t, th) && AtTx(th.pc)
    ensures var m := NextTx(s, t, th, c);
            LocksOk(m.th) && FactsOk(m.memory, m.th.pc) && RecentOk(m.memory.trace, t, m.th.pc)
  {
    hide MemoryOk;
    KnownSlots(s);
    if th.pc.TxConn? { KnownTx(s, th.pc.tx); }
  }

  lemma FineEnterStmt(s: Memory, t: Id, th: Thread, x: Id, op: StmtOp)
    requires Ready(s, t, th) && th.pc == EnterStmt(x, op)
    ensures var m := NextEnterStmt(s, t, th.(stmt := Some(x)), x, op); Fine(s, m.memory, t, m.th)
  {
    var m := NextEnterStmt(s, t, th.(stmt := Some(x)), x, op);
    hide MemoryOk, Guarded;
    KnownSlots(s);
    if x in s.stmts && s.stmts[x].native.Some? { KnownStmt(s, x); }
    SameFine(s, t, m.th);
    if x in s.stmts && s.stmts[x].native.Some? && s.stmts[x].rows == 0 {
      DetachFine(s, t, m.th, x, s.stmts[x], s.stmts[x].native.value);
    }
  }

  lemma SlotsEnterStmt(s: Memory, t: Id, th: Thread, x: Id, op: StmtOp)
    requires Ready(s, t, th) && th.pc == EnterStmt(x, op)
    ensures var m := NextEnterStmt(s, t, th.(stmt := Some(x)), x, op); SlotsOk(m.memory, t, m.th.pc)
  {
    hide MemoryOk, LocksOk, RecentOk, EntryOk;
    KnownSlots(s);
  }

  lemma PlaceEnterStmt(s: Memory, t: Id, th: Thread, x: Id, op: StmtOp)
    requires Ready(s, t, th) && th.pc == EnterStmt(x, op)
    ensures var m := NextEnterStmt(s, t, th.(stmt := Some(x)), x, op);
            LocksOk(m.th) && FactsOk(m.memory, m.th.pc) && RecentOk(m.memory.trace, t, m.th.pc)
  {
    hide MemoryOk;
    KnownSlots(s);
    if x in s.stmts && s.stmts[x].native.Some? { KnownStmt(s, x); }
  }

  lemma FineStmt(s: Memory, t: Id, th: Thread, c: Choice)
    requires Ready(s, t, th) && AtStmt(th.pc)
    ensures var m := NextStmt(s, t, th, c); Fine(s, m.memory, t, m.th)
  {
    var m := NextStmt(s, t, th, c);
    hide MemoryOk, Guarded;
    KnownSlots(s);
    SameFine(s, t, m.th);
    if !th.pc.ExecConn? { NoteFine(s, t, m.th, if th.pc.InBind? then BindValue else Execute); }
  }

  lemma SlotsStmt(s: Memory, t: Id, th: Thread, c: Choice)
    requires Ready(s, t, th) && AtStmt(th.pc)
    ensures var m := NextStmt(s, t, th, c); SlotsOk(m.memory, t, m.th.pc)
  {
    hide MemoryOk, LocksOk, RecentOk, EntryOk;
    KnownSlots(s);
  }

  lemma PlaceStmt(s: Memory, t: Id, th: Thread, c: Choice)
    requires Ready(s, t, th) && AtStmt(th.pc)
    ensures var m := NextStmt(s, t, th, c);
            LocksOk(m.th) && FactsOk(m.memory, m.th.pc) && RecentOk(m.memory.trace, t, m.th.pc)
  {
    hide MemoryOk;
    KnownSlots(s);
  }

  lemma FineCloseVm(s: Memory, t: Id, th: Thread, c: Choice)
    requires Ready(s, t, th) && AtCloseVm(th.pc)
    ensures var m := NextCloseVm(s, t, th, c); Fine(s, m.memory, t, m.th)
  {
    var m := NextCloseVm(s, t, th, c);
    hide MemoryOk, Guarded;
    KnownSlots(s);
    SameFine(s, t, m.th);
    match th.pc
    case CloseVmOf(x, v) => CloseDetachedFine(s, t, m.th, x, v);
    case ReleaseStmt(x) => ReleaseDetachedFine(s, t, m.th, x, s.stmts[x]);
  }

  lemma SlotsCloseVm(s: Memory, t: Id, th: Thread, c: Choice)
    requires Ready(s, t, th) && AtCloseVm(th.pc)
    ensures var m := NextCloseVm(s, t, th, c); SlotsOk(m.memory, t, m.th.pc)
  {
    hide MemoryOk, LocksOk, RecentOk, EntryOk;
    KnownSlots(s);
  }

  lemma PlaceCloseVm(s: Memory, t: Id, th: Thread, c: Choice)
    requires Ready(s, t, th) && AtCloseVm(th.pc)
    ensures var m := NextCloseVm(s, t, th, c);
            LocksOk(m.th) && FactsOk(m.memory, m.th.pc) && RecentOk(m.memory.trace, t, m.th.pc)
  {
    hide MemoryOk;
    KnownSlots(s);
  }

  lemma FineQuery(s: Memory, t: Id, th: Thread, c: Choice)
    requires Ready(s, t, th) && AtQuery(th.pc)
    ensures var m := NextQuery(s, t, th, c); Fine(s, m.memory, t, m.th)
  {
    var m := NextQuery(s, t, th, c);
    hide MemoryOk, Guarded;
    KnownSlots(s);
    SameFine(s, t, m.th);
    match th.pc
    case InQuery(x, _) =>
      GrabCursorFine(s, t, m.th, Some(x));
      NoteFine(s, t, m.th, Select);
    case Drawing(x, k, _) =>
      DropDrawnFine(s, t, m.th, k, Some(x));
      NoteFine(s, t, m.th, Describe);
  }

  lemma SlotsQuery(s: Memory, t: Id, th: Thread, c: Choice)
    requires Ready(s, t, th) && AtQuery(th.pc)
    ensures var m := NextQuery(s, t, th, c); SlotsOk(m.memory, t, m.th.pc)
  {
    match c.branch { case Abort => case Again => case Ahead => }
    if c.ok {} else {}
    hide MemoryOk, LocksOk, RecentOk, EntryOk;
    KnownSlots(s);
  }

  lemma PlaceQuery(s: Memory, t: Id, th: Thread, c: Choice)
    requires Ready(s, t, th) && AtQuery(th.pc)
    ensures var m := NextQuery(s, t, th, c);
            LocksOk(m.th) && FactsOk(m.memory, m.th.pc) && RecentOk(m.memory.trace, t, m.th.pc)
  {
    hide MemoryOk;
    KnownSlots(s);
  }

  lemma FinePublish(s: Memory, t: Id, th: Thread, c: Choice)
    requires Ready(s, t, th) && AtPublish(th.pc)
    ensures var m := NextPublish(s, t, th, c); Fine(s, m.memory, t, m.th)
  {
    var m := NextPublish(s, t, th, c);
    hide MemoryOk, Guarded;
    KnownSlots(s);
    SameFine(s, t, m.th);
    match th.pc
    case AddChild(x, k, _) => AddCountedFine(s, t, m.th, k, x);
    case AddFailed(x, k) => DropDrawnFine(s, t, m.th, k, Some(x));
    case Publish(x, k, close) => PublishOfStmtFine(s, t, m.th, k, x, close);
  }

  lemma SlotsPublish(s: Memory, t: Id, th: Thread, c: Choice)
    requires Ready(s, t, th) && AtPublish(th.pc)
    ensures var m := NextPublish(s, t, th, c); SlotsOk(m.memory, t, m.th.pc)
  {
    hide MemoryOk, LocksOk, RecentOk, EntryOk;
    KnownSlots(s);
  }

  lemma PlacePublish(s: Memory, t: Id, th: Thread, c: Choice)
    requires Ready(s, t, th) && AtPublish(th.pc)
    ensures var m := NextPublish(s, t, th, c);
            LocksOk(m.th) && FactsOk(m.memory, m.th.pc) && RecentOk(m.memory.trace, t, m.th.pc)
  {
    hide MemoryOk;
    KnownSlots(s);
  }

  lemma FineReset(s: Memory, t: Id, th: Thread, c: Choice)
    requires Ready(s, t, th) && AtReset(th.pc)
    ensures var m := NextReset(s, t, th, c); Fine(s, m.memory, t, m.th)
  {
    var m := NextReset(s, t, th, c);
    hide MemoryOk, Guarded;
    KnownSlots(s);
    SameFine(s, t, m.th);
    if th.pc.InReset? { DetachFine(s, t, m.th, th.pc.stmt, s.stmts[th.pc.stmt], s.stmts[th.pc.stmt].native.value); }
  }

  lemma SlotsReset(s: Memory, t: Id, th: Thread, c: Choice)
    requires Ready(s, t, th) && AtReset(th.pc)
    ensures var m := NextReset(s, t, th, c); SlotsOk(m.memory, t, m.th.pc)
  {
    hide MemoryOk, LocksOk, RecentOk, EntryOk;
    KnownSlots(s);
  }

  lemma PlaceReset(s: Memory, t: Id, th: Thread, c: Choice)
    requires Ready(s, t, th) && AtReset(th.pc)
    ensures var m := NextReset(s, t, th, c);
            LocksOk(m.th) && FactsOk(m.memory, m.th.pc) && RecentOk(m.memory.trace, t, m.th.pc)
  {
    hide MemoryOk;
    KnownSlots(s);
  }

  lemma FineResetClose(s: Memory, t: Id, th: Thread, x: Id, v: Id, c: Choice)
    requires Ready(s, t, th) && th.pc == ResetClose(x, v)
    ensures var m := NextResetClose(s, t, th, x, v, c); Fine(s, m.memory, t, m.th)
  {
    hide MemoryOk, Guarded;
    KnownSlots(s);
    var m := NextResetClose(s, t, th, x, v, c);
    var s1 := CloseDetached(s, t, x, v);
    CloseDetachedFine(s, t, m.th, x, v);
    if !c.ok { UnregisterAfter(s, s1, t, m.th, x); }
  }

  /** An update and then the undo step of Reset, which leaves the cursor alone. */
  lemma UnregisterAfter(s: Memory, s1: Memory, t: Id, th: Thread, m: Id)
    requires Fine(s, s1, t, th) && s1.vm == Detached(t, m, None) && s1.cursor == NoCursor
    ensures Fine(s, Unregister(s1, m), t, th)
  {
    UnregisterFine(s1, t, th, m);
    FineThen(s, s1, Unregister(s1, m), t, th);
    hide MemoryOk, Guarded, Unregister;
  }

  lemma SlotsResetClose(s: Memory, t: Id, th: Thread, x: Id, v: Id, c: Choice)
    requires Ready(s, t, th) && th.pc == ResetClose(x, v)
    ensures var m := NextResetClose(s, t, th, x, v, c); SlotsOk(m.memory, t, m.th.pc)
  {
    hide MemoryOk, LocksOk, RecentOk, EntryOk;
    KnownSlots(s);
  }

  lemma PlaceResetClose(s: Memory, t: Id, th: Thread, x: Id, v: Id, c: Choice)
    requires Ready(s, t, th) && th.pc == ResetClose(x, v)
    ensures var m := NextResetClose(s, t, th, x, v, c);
            LocksOk(m.th) && FactsOk(m.memory, m.th.pc) && RecentOk(m.memory.trace, t, m.th.pc)
  {
    hide MemoryOk, EntryOk;
    KnownSlots(s);
  }

  lemma FineResetPrepare(s: Memory, t: Id, th: Thread, x: Id, c: Choice)
    requires Ready(s, t, th) && th.pc == ResetPrepare(x)
    ensures var m := NextResetPrepare(s, t, th, x, c); Fine(s, m.memory, t, m.th)
  {
    hide MemoryOk, Guarded, Unregister, Reattach;
    KnownSlots(s);
    var m := NextResetPrepare(s, t, th, x, c);
    if c.branch == Abort {
      UnregisterFine(s, t, m.th, x);
    } else if c.ok {
      ReattachFine(s, t, m.th, x, s.stmts[x]);
    } else {
      NoteFine(s, t, m.th, Prepare);
      UnregisterAfter(s, Note(s, t, Prepare), t, m.th, x);
    }
  }

  lemma SlotsResetPrepare(s: Memory, t: Id, th: Thread, x: Id, c: Choice)
    requires Ready(s, t, th) && th.pc == ResetPrepare(x)
    ensures var m := NextResetPrepare(s, t, th, x, c); SlotsOk(m.memory, t, m.th.pc)
  {
    hide MemoryOk, LocksOk, RecentOk, EntryOk;
    KnownSlots(s);
  }

  lemma PlaceResetPrepare(s: Memory, t: Id, th: Thread, x: Id, c: Choice)
    requires Ready(s, t, th) && th.pc == ResetPrepare(x)
    ensures var m := NextResetPrepare(s, t, th, x, c);
            LocksOk(m.th) && FactsOk(m.memory, m.th.pc) && RecentOk(m.memory.trace, t, m.th.pc)
  {
    hide MemoryOk;
    KnownSlots(s);
  }

  lemma FineEnterRows(s: Memory, t: Id, th: Thread, r: Id, close: bool)
    requires Ready(s, t, th) && th.pc == EnterRows(r, close)
    ensures var m := NextEnterRows(s, t, th.(rows := Some(r)), r, close); Fine(s, m.memory, t, m.th)
  {
    var m := NextEnterRows(s, t, th.(rows := Some(r)), r, close);
    hide MemoryOk, Guarded;
    KnownSlots(s);
    if r in s.rows && s.rows[r].native.Some? { KnownRows(s, r); }
    SameFine(s, t, m.th);
    if r in s.rows && s.rows[r].native.Some? { FadeFine(s, t, m.th, r, s.rows[r]); }
  }

  lemma SlotsEnterRows(s: Memory, t: Id, th: Thread, r: Id, close: bool)
    requires Ready(s, t, th) && th.pc == EnterRows(r, close)
    ensures var m := NextEnterRows(s, t, th.(rows := Some(r)), r, close); SlotsOk(m.memory, t, m.th.pc)
  {
    hide MemoryOk, LocksOk, RecentOk, EntryOk;
    KnownSlots(s);
  }

  lemma PlaceEnterRows(s: Memory, t: Id, th: Thread, r: Id, close: bool)
    requires Ready(s, t, th) && th.pc == EnterRows(r, close)
    ensures var m := NextEnterRows(s, t, th.(rows := Some(r)), r, close);
            LocksOk(m.th) && FactsOk(m.memory, m.th.pc) && RecentOk(m.memory.trace, t, m.th.pc)
  {
    hide MemoryOk;
    KnownSlots(s);
    if r in s.rows && s.rows[r].native.Some? { KnownRows(s, r); }
  }

  lemma FineRows(s: Memory, t: Id, th: Thread, r: Id, c: Choice)
    requires Ready(s, t, th) && th.pc == InRows(r)
    ensures var m := NextRows(s, t, th, r, c); Fine(s, m.memory, t, m.th)
  {
    var m := NextRows(s, t, th, r, c);
    hide MemoryOk, Guarded;
    KnownSlots(s);
    SameFine(s, t, m.th);
    NoteFine(s, t, m.th, Fetch);
  }

  lemma SlotsRows(s: Memory, t: Id, th: Thread, r: Id, c: Choice)
    requires Ready(s, t, th) && th.pc == InRows(r)
    ensures var m := NextRows(s, t, th, r, c); SlotsOk(m.memory, t, m.th.pc)
  {
    hide MemoryOk, LocksOk, RecentOk, EntryOk;
    KnownSlots(s);
  }

  lemma PlaceRows(s: Memory, t: Id, th: Thread, r: Id, c: Choice)
    requires Ready(s, t, th) && th.pc == InRows(r)
    ensures var m := NextRows(s, t, th, r, c);
            LocksOk(m.th) && FactsOk(m.memory, m.th.pc) && RecentOk(m.memory.trace, t, m.th.pc)
  {
    hide MemoryOk;
    KnownSlots(s);
  }

  lemma FineCloseCursor(s: Memory, t: Id, th: Thread, c: Choice)
    requires Ready(s, t, th) && AtCloseCursor(th.pc)
    ensures var m := NextCloseCursor(s, t, th, c); Fine(s, m.memory, t, m.th)
  {
    var m := NextCloseCursor(s, t, th, c);
    hide MemoryOk, Guarded;
    KnownSlots(s);
    SameFine(s, t, m.th);
    match th.pc
    case CloseCursorOf(r, k, parent, _) => DropFadingFine(s, t, m.th, k, r, parent);
    case ReleaseRows(r, parent, _) => ReleaseFadedFine(s, t, m.th, r, parent);
  }

  lemma SlotsCloseCursor(s: Memory, t: Id, th: Thread, c: Choice)
    requires Ready(s, t, th) && AtCloseCursor(th.pc)
    ensures var m := NextCloseCursor(s, t, th, c); SlotsOk(m.memory, t, m.th.pc)
  {
    hide Ready, NextCloseCursor, LocksOk, FactsOk, RecentOk, SlotsOk;
    if th.pc.ReleaseRows? { SlotsReleaseRows(s, t, th, c); } else { SlotsDropCursor(s, t, th, c); }
  }

  lemma SlotsDropCursor(s: Memory, t: Id, th: Thread, c: Choice)
    requires Ready(s, t, th) && th.pc.CloseCursorOf?
    ensures var m := NextCloseCursor(s, t, th, c); SlotsOk(m.memory, t, m.th.pc)
  {
    hide MemoryOk, LocksOk, RecentOk, EntryOk;
    KnownSlots(s);
  }

  lemma SlotsReleaseRows(s: Memory, t: Id, th: Thread, c: Choice)
    requires Ready(s, t, th) && th.pc.ReleaseRows?
    ensures var m := NextCloseCursor(s, t, th, c); SlotsOk(m.memory, t, m.th.pc)
  {
    hide MemoryOk, LocksOk, RecentOk, EntryOk;
    KnownSlots(s);
  }

  lemma PlaceCloseCursor(s: Memory, t: Id, th: Thread, c: Choice)
    requires Ready(s, t, th) && AtCloseCursor(th.pc)
    ensures var m := NextCloseCursor(s, t, th, c);
            LocksOk(m.th) && FactsOk(m.memory, m.th.pc) && RecentOk(m.memory.trace, t, m.th.pc)
  {
    hide MemoryOk;
    KnownSlots(s);
  }

  lemma FineOwed(s: Memory, t: Id, th: Thread, r: Id, x: Id, close: bool)
    requires Ready(s, t, th) && th.pc == EnterOwed(r, x, close)
    ensures var m := NextOwed(s, t, th.(stmt := Some(x)), x, close); Fine(s, m.memory, t, m.th)
  {
    hide MemoryOk, Guarded, Detach;
    KnownSlots(s);
    var m := NextOwed(s, t, th.(stmt := Some(x)), x, close);
    var s1 := PayOwed(s, x, s.stmts[x]);
    PayOwedFine(s, t, m.th, x, s.stmts[x], r);
    if m.memory != s1 { DetachAfter(s, s1, t, m.th, x); }
  }

  lemma DetachAfter(s: Memory, s1: Memory, t: Id, th: Thread, m: Id)
    requires Fine(s, s1, t, th) && m in s1.stmts && s1.stmts[m].native.Some? && s1.cursor == NoCursor && th.stmt == Some(m)
    ensures Fine(s, Detach(s1, t, m, s1.stmts[m], s1.stmts[m].native.value), t, th)
  {
    var s2 := Detach(s1, t, m, s1.stmts[m], s1.stmts[m].native.value);
    DetachFine(s1, t, th, m, s1.stmts[m], s1.stmts[m].native.value);
    assert s2.cursor == s1.cursor;
    hide MemoryOk, Guarded, Detach;
    FineThen(s, s1, s2, t, th);
  }

  lemma SlotsOwed(s: Memory, t: Id, th: Thread, r: Id, x: Id, close: bool)
    requires Ready(s, t, th) && th.pc == EnterOwed(r, x, close)
    ensures var m := NextOwed(s, t, th.(stmt := Some(x)), x, close); SlotsOk(m.memory, t, m.th.pc)
  {
    hide MemoryOk, LocksOk, RecentOk, EntryOk;
    KnownSlots(s);
  }

  lemma PlaceOwed(s: Memory, t: Id, th: Thread, r: Id, x: Id, close: bool)
    requires Ready(s, t, th) && th.pc == EnterOwed(r, x, close)
    ensures var m := NextOwed(s, t, th.(stmt := Some(x)), x, close);
            LocksOk(m.th) && FactsOk(m.memory, m.th.pc) && RecentOk(m.memory.trace, t, m.th.pc)
  {
    hide MemoryOk, EntryOk;
    KnownSlots(s);
  }

  lemma FineUnlock(s: Memory, t: Id, th: Thread)
    requires Ready(s, t, th) && th.pc == Unlock
    ensures var m := NextUnlock(s, th); Fine(s, m.memory, t, m.th)
  {
    var m := NextUnlock(s, th);
    hide MemoryOk, Guarded;
    KnownSlots(s);
    SameFine(s, t, m.th);
  }

  lemma SlotsUnlock(s: Memory, t: Id, th: Thread)
    requires Ready(s, t, th) && th.pc == Unlock
    ensures var m := NextUnlock(s, th); SlotsOk(m.memory, t, m.th.pc)
  {
    hide MemoryOk, LocksOk, RecentOk, EntryOk;
    KnownSlots(s);
  }

  lemma PlaceUnlock(s: Memory, t: Id, th: Thread)
    requires Ready(s, t, th) && th.pc == Unlock
    ensures var m := NextUnlock(s, th);
            LocksOk(m.th) && FactsOk(m.memory, m.th.pc) && RecentOk(m.memory.trace, t, m.th.pc)
  {
    hide MemoryOk;
    KnownSlots(s);
  }

  lemma FineIdle(s: Memory, t: Id, th: Thread, c: Choice)
    requires Ready(s, t, th) && th.pc == Idle
    ensures var m := NextIdle(s, th, c); Fine(s, m.memory, t, m.th)
  {
    var m := NextIdle(s, th, c);
    hide MemoryOk, Guarded;
    KnownSlots(s);
    SameFine(s, t, m.th);
  }

  lemma SlotsIdle(s: Memory, t: Id, th: Thread, c: Choice)
    requires Ready(s, t, th) && th.pc == Idle
    ensures var m := NextIdle(s, th, c); SlotsOk(m.memory, t, m.th.pc)
  {
    hide MemoryOk, LocksOk, RecentOk, EntryOk;
    KnownSlots(s);
  }

  lemma PlaceIdle(s: Memory, t: Id, th: Thread, c: Choice)
    requires Ready(s, t, th) && th.pc == Idle
    ensures var m := NextIdle(s, th, c);
            LocksOk(m.th) && FactsOk(m.memory, m.th.pc) && RecentOk(m.memory.trace, t, m.th.pc)
  {
    hide MemoryOk;
    KnownSlots(s);
  }

  // ---------------------------------------------------------------- beside other goroutines

  /** What is guarded by one goroutine's mutexes and slots leaves every other goroutine's facts intact. */
  lemma BesideOk(s: Memory, s': Memory, t: Id, th: Thread, u: Id, w: Thread)
    requires Guarded(s, s', t, th) && Apart(th, w) && t != u
    requires LocksOk(w) && SlotsOk(s, u, w.pc) && FactsOk(s, w.pc)
    ensures SlotsOk(s', u, w.pc)
    ensures FactsOk(s', w.pc)
  {
  }

  /** While a Result is being built, no other goroutine is at a native call. */
  lemma NoCallBeside(s: Memory, t: Id, th: Thread, u: Id, w: Thread)
    requires LocksOk(th) && SlotsOk(s, t, th.pc) && FactsOk(s, th.pc)
    requires LocksOk(w) && SlotsOk(s, u, w.pc) && FactsOk(s, w.pc)
    requires Apart(th, w) && t != u
    requires Calls(th.pc)
    ensures !w.pc.Executed? && !w.pc.Affected?
  {
  }
}
