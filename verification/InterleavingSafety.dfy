/**
  What every reachable state of the concurrent connection keeps, for any number of goroutines and
  any interleaving: exclusive result metrics, coupled child counts, one VM and one cursor, handles
  confined to their transaction and database epoch, transaction ownership, and dead defensive branches.
 */
module InterleavingSafety {
  import opened Basics
  import opened Interleaving

  // ---------------------------------------------------------------- which mutexes a program point holds

  predicate Held(th: Thread, tx: Option<Id>, rows: Option<Id>, stmt: Option<Id>, conn: Mode) {
    th.tx == tx && th.rows == rows && th.stmt == stmt && th.conn == conn
  }

  predicate OuterBelow(th: Thread, rank: nat) {
    forall l :: l in th.outer ==> Rank(l) < rank
  }

  predicate LocksOk(th: Thread) {
    && OuterBelow(th, 4)
    && match th.pc
       case Idle => Held(th, None, None, None, Free)
       case TakeOuter(l) => Held(th, None, None, None, Free) && IsOuter(l) && OuterBelow(th, Rank(l))
       case EnterConn(_) => Held(th, None, None, None, Free)
       case EnterShared(_) => Held(th, None, None, None, Free)
       case EnterStmt(_, _) => Held(th, None, None, None, Free)
       case EnterRows(_, _) => Held(th, None, None, None, Free)
       case EnterTx(_, _) => Held(th, None, None, None, Free) && OuterBelow(th, 3)
       case InConn(_) => Held(th, None, None, None, Exclusive)
       case TempReady(_) => Held(th, None, None, None, Exclusive)
       case TempClose(_) => Held(th, None, None, None, Exclusive)
       case Prepared(_) => Held(th, None, None, None, Exclusive)
       case Selected(_) => Held(th, None, None, None, Exclusive)
       case Executed(source) => Held(th, None, None, if source.OfStmt? then Some(source.stmt) else None, Exclusive)
       case Affected(source) => Held(th, None, None, if source.OfStmt? then Some(source.stmt) else None, Exclusive)
       case InShared(_) => Held(th, None, None, None, Mode.Shared)
       case TxConn(x, _) => Held(th, Some(x), None, None, Free) && OuterBelow(th, 3)
       case TxBoth(x, _) => Held(th, Some(x), None, None, Exclusive) && OuterBelow(th, 3)
       case InBind(m) => Held(th, None, None, Some(m), Free)
       case ExecConn(m) => Held(th, None, None, Some(m), Free)
       case InQuery(m, _) => Held(th, None, None, Some(m), Free)
       case Drawing(m, _, _) => Held(th, None, None, Some(m), Free)
       case AddChild(m, _, _) => Held(th, None, None, Some(m), Free)
       case AddFailed(m, _) => Held(th, None, None, Some(m), Free)
       case Publish(m, _, _) => Held(th, None, None, Some(m), Free)
       case ResetConn(m) => Held(th, None, None, Some(m), Free)
       case InExec(m) => Held(th, None, None, Some(m), Exclusive)
       case InReset(m) => Held(th, None, None, Some(m), Exclusive)
       case ResetClose(m, _) => Held(th, None, None, Some(m), Exclusive)
       case ResetPrepare(m) => Held(th, None, None, Some(m), Exclusive)
       case CloseVmOf(m, _) => Held(th, None, th.rows, Some(m), Free)
       case ReleaseStmt(m) => Held(th, None, th.rows, Some(m), Free)
       case InRows(r) => Held(th, None, Some(r), None, Free)
       case CloseCursorOf(r, _, _, _) => Held(th, None, Some(r), None, Free)
       case ReleaseRows(r, _, _) => Held(th, None, Some(r), None, Free)
       case EnterOwed(r, _, _) => Held(th, None, Some(r), None, Free)
       case Unlock => th.tx.Some? ==> OuterBelow(th, 3)
  }

  /** No mutex is held by both in conflicting ways. */
  predicate Apart(a: Thread, b: Thread) {
    && (a.tx.Some? ==> a.tx != b.tx && TxMu(a.tx.value) !in b.outer)
    && (b.tx.Some? ==> TxMu(b.tx.value) !in a.outer)
    && (a.rows.Some? ==> a.rows != b.rows)
    && (a.stmt.Some? ==> a.stmt != b.stmt)
    && !Conflict(a.conn, b.conn)
    && forall l :: l in a.outer && l in b.outer ==> l.TxMu?
  }

  lemma ApartIsExclusion(a: Thread, b: Thread)
    requires OuterBelow(a, 4) && OuterBelow(b, 4)
    ensures Apart(a, b) <==> forall l :: !Conflict(Holds(a, l), Holds(b, l))
  {
    if forall l :: !Conflict(Holds(a, l), Holds(b, l)) {
      if a.tx.Some? { assert !Conflict(Holds(a, TxMu(a.tx.value)), Holds(b, TxMu(a.tx.value))); }
      if b.tx.Some? { assert !Conflict(Holds(a, TxMu(b.tx.value)), Holds(b, TxMu(b.tx.value))); }
      if a.rows.Some? { assert !Conflict(Holds(a, RowsMu(a.rows.value)), Holds(b, RowsMu(a.rows.value))); }
      if a.stmt.Some? { assert !Conflict(Holds(a, StmtMu(a.stmt.value)), Holds(b, StmtMu(a.stmt.value))); }
      assert !Conflict(Holds(a, ConnMu), Holds(b, ConnMu));
      forall l | l in a.outer && l in b.outer ensures l.TxMu? {
        assert !Conflict(Holds(a, l), Holds(b, l));
      }
    }
  }

  // ---------------------------------------------------------------- responsibility for handles

  /** The VM slot a program point implies for its goroutine. */
  function VmPart(t: Id, pc: Pc): Option<VmSlot> {
    match pc
    case TempReady(v) => Some(InHand(t, v))
    case Executed(source) => if source.Temporary? then Some(InHand(t, source.vm)) else None
    case Affected(source) => if source.Temporary? then Some(InHand(t, source.vm)) else None
    case TempClose(v) => Some(InHand(t, v))
    case Prepared(v) => Some(InHand(t, v))
    case CloseVmOf(m, v) => Some(Detached(t, m, Some(v)))
    case ResetClose(m, v) => Some(Detached(t, m, Some(v)))
    case ReleaseStmt(m) => Some(Detached(t, m, None))
    case ResetPrepare(m) => Some(Detached(t, m, None))
    case _ => None
  }

  function CursorPart(t: Id, pc: Pc): Option<CursorSlot> {
    match pc
    case Selected(k) => Some(Drawn(t, k, None))
    case Drawing(m, k, _) => Some(Drawn(t, k, Some(m)))
    case AddChild(m, k, _) => Some(Drawn(t, k, Some(m)))
    case AddFailed(m, k) => Some(Drawn(t, k, Some(m)))
    case Publish(m, k, _) => Some(Added(t, k, m))
    case CloseCursorOf(r, k, parent, _) => Some(Fading(t, r, Some(k), parent))
    case ReleaseRows(r, parent, _) => Some(Fading(t, r, None, parent))
    case EnterOwed(r, m, _) => Some(Owing(t, r, m))
    case _ => None
  }

  function VmHolder(v: VmSlot): Option<Id> {
    match v
    case InHand(t, _) => Some(t)
    case Detached(t, _, _) => Some(t)
    case _ => None
  }

  function CursorHolder(k: CursorSlot): Option<Id> {
    match k
    case Drawn(t, _, _) => Some(t)
    case Added(t, _, _) => Some(t)
    case Fading(t, _, _, _) => Some(t)
    case Owing(t, _, _) => Some(t)
    case _ => None
  }

  predicate SlotsOk(s: Memory, t: Id, pc: Pc) {
    && (match VmPart(t, pc) case Some(v) => s.vm == v case None => VmHolder(s.vm) != Some(t))
    && (match CursorPart(t, pc) case Some(k) => s.cursor == k case None => CursorHolder(s.cursor) != Some(t))
  }

  predicate Untouched(s: Memory) { s.vm == NoVm && s.cursor == NoCursor }

  predicate OwnedBy(v: VmSlot, m: Id) { v.Owned? && v.stmt == m }

  predicate Unfinished(s: Memory, x: Id) { x in s.txs && !s.txs[x] }

  /** What a program point may rely on, thanks to the mutexes it holds. */
  predicate FactsOk(s: Memory, pc: Pc) {
    match pc
    case InConn(op) =>
      s.open && Untouched(s) && (op.ConnClose? || op.ConnSetDatabase? || op.ConnBegin? || op.ConnFinish? ==> !s.txActive)
    case Executed(source) => s.cursor == NoCursor && (source.Direct? ==> s.vm == NoVm) && (source.OfStmt? ==> OwnedBy(s.vm, source.stmt))
    case Affected(source) => s.cursor == NoCursor && (source.Direct? ==> s.vm == NoVm) && (source.OfStmt? ==> OwnedBy(s.vm, source.stmt))
    case Selected(_) => s.vm == NoVm
    case TxConn(x, _) => Unfinished(s, x)
    case TxBoth(x, _) => s.open && s.txActive && Unfinished(s, x) && Untouched(s)
    case InBind(m) => OwnedBy(s.vm, m) && s.cursor == NoCursor
    case ExecConn(m) => OwnedBy(s.vm, m) && s.cursor == NoCursor
    case InExec(m) => OwnedBy(s.vm, m) && s.cursor == NoCursor
    case InQuery(m, _) => OwnedBy(s.vm, m) && s.cursor == NoCursor
    case ResetConn(m) => OwnedBy(s.vm, m) && s.cursor == NoCursor
    case InReset(m) => OwnedBy(s.vm, m) && s.cursor == NoCursor
    case InRows(r) => s.cursor.Open? && s.cursor.rows == r
    case _ => true
  }

  // ---------------------------------------------------------------- the trace of native calls

  predicate MetricAt(tr: seq<Event>, i: nat)
    requires i < |tr|
  {
    && (tr[i].call == ResultAffected ==> i >= 1 && tr[i - 1] == Event(tr[i].tid, Execute))
    && (tr[i].call == ResultLastId ==>
          i >= 2 && tr[i - 1] == Event(tr[i].tid, ResultAffected) && tr[i - 2] == Event(tr[i].tid, Execute))
  }

  /** A metric read for a Result directly follows its own execution, whoever else uses the connection. */
  predicate MetricsAdjacent(tr: seq<Event>) {
    forall i :: 0 <= i < |tr| ==> MetricAt(tr, i)
  }

  /** Which transaction is live, and which have finished, after a trace that respects ownership. */
  datatype TxLog = TxLog(live: Option<Id>, done: set<Id>) | Violated

  function TxAfter(log: TxLog, call: Call): TxLog {
    if log.Violated? then Violated
    else
      match call
      case Begin(x, began) =>
        if log.live.Some? || x in log.done then Violated else if began then log.(live := Some(x)) else log
      case Finish(owner, _, finished) =>
        if owner != log.live then Violated
        else if finished && owner.Some? then TxLog(None, log.done + {owner.value}) else log
      case SetDatabase => if log.live.Some? then Violated else log
      case Disconnect => if log.live.Some? then Violated else log
      case _ => log
  }

  function TxReplay(tr: seq<Event>): TxLog {
    if tr == [] then TxLog(None, {}) else TxAfter(TxReplay(tr[..|tr| - 1]), tr[|tr| - 1].call)
  }

  predicate LastIs(tr: seq<Event>, e: Event) {
    |tr| >= 1 && tr[|tr| - 1] == e
  }

  predicate LastTwoAre(tr: seq<Event>, d: Event, e: Event) {
    |tr| >= 2 && tr[|tr| - 2] == d && tr[|tr| - 1] == e
  }

  predicate RecentOk(tr: seq<Event>, t: Id, pc: Pc) {
    && (pc.Executed? ==> LastIs(tr, Event(t, Execute)))
    && (pc.Affected? ==> LastTwoAre(tr, Event(t, Execute), Event(t, ResultAffected)))
  }

  // ---------------------------------------------------------------- shared state

  function VmCount(v: VmSlot): int { if v.Owned? || v.Detached? then 1 else 0 }

  function CursorCount(k: CursorSlot): int { if k.Added? || k.Open? || k.Fading? then 1 else 0 }

  /** The live native VM a slot stands for, all of the current epoch. */
  function LiveVm(v: VmSlot, epoch: Id): map<Id, Id> {
    match v
    case NoVm => map[]
    case InHand(_, vm) => map[vm := epoch]
    case Owned(_, vm) => map[vm := epoch]
    case Detached(_, _, left) => if left.Some? then map[left.value := epoch] else map[]
  }

  function VmsAlive(v: VmSlot): int { if v.NoVm? || (v.Detached? && v.left.None?) then 0 else 1 }

  function CursorsAlive(k: CursorSlot): int { if k.NoCursor? || k.Owing? || (k.Fading? && k.left.None?) then 0 else 1 }

  function LiveCursor(k: CursorSlot, epoch: Id): map<Id, Id> {
    match k
    case NoCursor => map[]
    case Drawn(_, cursor, _) => map[cursor := epoch]
    case Added(_, cursor, _) => map[cursor := epoch]
    case Open(_, cursor) => map[cursor := epoch]
    case Fading(_, _, left, _) => if left.Some? then map[left.value := epoch] else map[]
    case Owing(_, _, _) => map[]
  }

  /** The statement a cursor came from, if any. */
  function ParentOf(cursor: CursorSlot, rows: map<Id, Rows>): Option<Id> {
    match cursor
    case NoCursor => None
    case Drawn(_, _, parent) => parent
    case Added(_, _, m) => Some(m)
    case Open(r, _) => if r in rows then rows[r].parent else None
    case Fading(_, _, _, parent) => parent
    case Owing(_, _, m) => Some(m)
  }

  /** The cursor counts in the `rows` field of the statement it came from. */
  predicate CountsInStmt(k: CursorSlot) { k.Open? || k.Fading? || k.Owing? }

  /** The statement whose `rows` field is 1. */
  function Charged(s: Memory): Option<Id> {
    if CountsInStmt(s.cursor) then ParentOf(s.cursor, s.rows) else None
  }

  predicate CountsOk(s: Memory) {
    && s.children == VmCount(s.vm) + CursorCount(s.cursor)
    && s.vms == LiveVm(s.vm, s.epoch)
    && s.cursors == LiveCursor(s.cursor, s.epoch)
    && s.nativeChildren == VmsAlive(s.vm) + CursorsAlive(s.cursor)
  }

  /** A cursor without a statement excludes every VM; a cursor of a statement goes with that statement's VM. */
  predicate PairOk(vm: VmSlot, cursor: CursorSlot, parent: Option<Id>) {
    cursor != NoCursor ==> match parent case Some(m) => OwnedBy(vm, m) case None => vm == NoVm
  }

  predicate StmtOk(st: Stmt, m: Id, vm: VmSlot, charged: Option<Id>) {
    && (st.native.Some? <==> OwnedBy(vm, m))
    && (st.native.Some? ==> vm == Owned(m, st.native.value))
    && (st.registered <==> OwnedBy(vm, m) || (vm.Detached? && vm.stmt == m))
    && st.rows == (if charged == Some(m) then 1 else 0)
  }

  predicate StmtsOk(stmts: map<Id, Stmt>, vm: VmSlot, charged: Option<Id>) {
    && (forall m :: m in stmts ==> StmtOk(stmts[m], m, vm, charged))
    && (vm.Owned? || vm.Detached? ==> vm.stmt in stmts)
  }

  predicate RowsOk(rows: map<Id, Rows>, cursor: CursorSlot) {
    && (forall r :: r in rows && rows[r].native.Some? ==> cursor == Open(r, rows[r].native.value))
    && (cursor.Open? ==> cursor.rows in rows && rows[cursor.rows].native == Some(cursor.cursor))
  }

  predicate IdsOk<T>(ids: map<Id, T>, nextId: Id) {
    forall i :: i in ids ==> i < nextId
  }

  predicate TxOk(txActive: bool, txs: map<Id, bool>, log: TxLog) {
    && log.TxLog?
    && (txActive <==> log.live.Some?)
    && (log.live.Some? ==> log.live.value in txs)
    && (forall x :: x in txs ==> (txs[x] <==> x in log.done) && (!txs[x] <==> log.live == Some(x)))
    && (forall x :: x in log.done ==> x in txs)
  }

  predicate MemoryOk(s: Memory) {
    && CountsOk(s)
    && PairOk(s.vm, s.cursor, ParentOf(s.cursor, s.rows))
    && (!s.open ==> Untouched(s) && !s.txActive)
    && StmtsOk(s.stmts, s.vm, Charged(s))
    && RowsOk(s.rows, s.cursor)
    && IdsOk(s.stmts, s.nextId) && IdsOk(s.rows, s.nextId) && IdsOk(s.txs, s.nextId)
    && TxOk(s.txActive, s.txs, TxReplay(s.trace))
    && MetricsAdjacent(s.trace)
    && s.odd == {}
  }

  predicate Local(s: Memory, t: Id, th: Thread) {
    LocksOk(th) && SlotsOk(s, t, th.pc) && FactsOk(s, th.pc) && RecentOk(s.trace, t, th.pc)
  }

  ghost predicate Inv(s: State) {
    && MemoryOk(s.memory)
    && (forall t :: t in s.threads ==> Local(s.memory, t, s.threads[t]))
    && (forall t, u :: t in s.threads && u in s.threads && t != u ==> Apart(s.threads[t], s.threads[u]))
    && (VmHolder(s.memory.vm).Some? ==> VmHolder(s.memory.vm).value in s.threads)
    && (CursorHolder(s.memory.cursor).Some? ==> CursorHolder(s.memory.cursor).value in s.threads)
  }

  // ---------------------------------------------------------------- facts at the moment a mutex is taken

  /** What taking conn.mu or stmt.mu tells, because no other goroutine can hold a handle in flight there. */
  predicate EntryOk(s: Memory, th: Thread) {
    match th.pc
    case EnterConn(_) => s.children == 0 ==> Untouched(s)
    case TxConn(_, _) => s.children == 0 ==> Untouched(s)
    case EnterStmt(m, _) => m in s.stmts && s.stmts[m].native.Some? && s.stmts[m].rows == 0 ==> s.cursor == NoCursor
    case _ => true
  }

  lemma EntryHolds(s: State, t: Id)
    requires Inv(s) && Enabled(s, t)
    ensures EntryOk(s.memory, s.threads[t])
  {
    var mem, th := s.memory, s.threads[t];
    var v, k := VmHolder(mem.vm), CursorHolder(mem.cursor);
    assert Local(mem, t, th);
    if v.Some? { assert Local(mem, v.value, s.threads[v.value]); }
    if k.Some? { assert Local(mem, k.value, s.threads[k.value]); }
    match th.pc
    case EnterConn(_) =>
      if v.Some? && v.value != t { assert !Conflict(Exclusive, Holds(s.threads[v.value], ConnMu)); }
      if k.Some? && k.value != t { assert !Conflict(Exclusive, Holds(s.threads[k.value], ConnMu)); }
    case TxConn(_, _) =>
      if v.Some? && v.value != t { assert !Conflict(Exclusive, Holds(s.threads[v.value], ConnMu)); }
      if k.Some? && k.value != t { assert !Conflict(Exclusive, Holds(s.threads[k.value], ConnMu)); }
    case EnterStmt(m, _) =>
      if k.Some? && k.value != t { assert !Conflict(Exclusive, Holds(s.threads[k.value], StmtMu(m))); }
    case _ =>
  }
}
