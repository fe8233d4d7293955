/**
  The mutexes of the database/sql adapter around the core operations it performs.

  Each adapter method is a script of mutexes held around parts of it and of core operations run. Every script, and
  every shorter path through it, is carried out by steps of `Interleaving`, whose goroutines may take outer mutexes
  only in rank order; so the theorems about that system hold with the adapter on top.
 */
module AdapterLocks {
  import opened Basics
  import opened Interleaving

  /**
    A path through a method: core operations in turn, each with its outcome, some of them under a mutex that is
    unlocked when they are left.
   */
  datatype Script =
    | Return
    | Run(op: Op, ok: bool, next: Script)
    | Locked(lock: Lock, body: Script, next: Script)

  datatype Method =
    | Prepare(vm: Id)
    | Close(tx: Id)
    | BeginTx
    | Ping
    | ResetSession(tx: Id)
    | Exec
    | Query(vm: Id, binds: nat, rows: Id)
    | StatementExec(stmt: Id)
    | StatementQuery(stmt: Id, vm: Id, binds: nat, rows: Id)
    | StatementClose(stmt: Id)
    | Commit(adapterTx: Id, tx: Id)
    | Rollback(adapterTx: Id, tx: Id)
    | RowsNext(rows: Id, columns: nat)
    | RowsClose(rows: Id)

  function Repeat(op: Op, n: nat, next: Script): Script {
    if n == 0 then next else Run(op, true, Repeat(op, n - 1, next))
  }

  function Good(op: Op, next: Script): Script { Run(op, true, next) }

  function Conn(op: ConnOp, next: Script): Script { Good(RunConn(op), next) }

  function Under(l: Lock, body: Script): Script { Locked(l, body, Return) }

  function ExecBody(): Script { Conn(ConnExec, Conn(ConnFinish(true), Return)) }

  /** The query, in both its forms, and the `Columns` and `ColumnTypes` of `newRows`. */
  function QueryBody(vm: Id, binds: nat, rows: Id): Script {
    Conn(ConnQuery, Conn(ConnPrepare, Repeat(RunStmt(vm, StmtBind), binds,
         Good(RunStmt(vm, StmtQuery(true)), Good(RunStmt(vm, StmtClose), Repeat(RunRows(rows, false), 2, Return))))))
  }

  /** Every mutex and core operation on the longest path through a method. */
  function Longest(m: Method): Script {
    match m
    case Prepare(vm) => Under(AdapterConnMu, Conn(ConnPrepare, Good(RunStmt(vm, StmtClose), Return)))
    case Close(x) => Under(AdapterConnMu, Good(RunTx(x, false), Conn(ConnClose, Return)))
    case BeginTx => Under(AdapterConnMu, Conn(ConnBegin, Return))
    case Ping => Under(AdapterConnMu, Good(RunShared(true), Return))
    case ResetSession(x) =>
      Under(AdapterConnMu, Good(RunTx(x, false), Conn(ConnFinish(false), Conn(ConnSetDatabase, Return))))
    case Exec => Under(AdapterConnMu, ExecBody())
    case Query(vm, binds, rows) => Under(AdapterConnMu, QueryBody(vm, binds, rows))
    case StatementExec(s) => Under(AdapterStmtMu(s), Under(AdapterConnMu, ExecBody()))
    case StatementQuery(s, vm, binds, rows) => Under(AdapterStmtMu(s), Under(AdapterConnMu, QueryBody(vm, binds, rows)))
    case StatementClose(s) => Under(AdapterStmtMu(s), Return)
    case Commit(t, x) =>
      Under(AdapterTxMu(t), Run(RunTx(x, true), false, Good(RunTx(x, false), Under(AdapterConnMu, Return))))
    case Rollback(t, x) => Under(AdapterTxMu(t), Good(RunTx(x, false), Under(AdapterConnMu, Return)))
    case RowsNext(r, columns) =>
      Good(RunRows(r, false), Repeat(RunRows(r, false), columns, Under(AdapterConnMu, Return)))
    case RowsClose(r) => Good(RunRows(r, true), Under(AdapterConnMu, Return))
  }

  /**
    `p` leaves out parts of `q`: an early return, an untaken branch, a shorter loop. Deferred unlocks stay. What is left
    may turn out either way.
   */
  predicate Shorter(p: Script, q: Script)
    decreases q
  {
    match q
    case Return => p == Return
    case Run(op, _, next) => Shorter(p, next) || (p.Run? && p.op == op && Shorter(p.next, next))
    case Locked(l, body, next) =>
      Shorter(p, next) || (p.Locked? && p.lock == l && Shorter(p.body, body) && Shorter(p.next, next))
  }

  /** An operation a goroutine asks for, and how it turns out. */
  datatype Asked = Asked(op: Op, ok: bool)

  /** What a goroutine asks for, in order. */
  function Ops(p: Script): seq<Asked> {
    match p
    case Return => []
    case Run(op, ok, next) => [Asked(op, ok)] + Ops(next)
    case Locked(l, body, next) => [Asked(Take(l), true)] + (Ops(body) + ([Asked(Drop(l), true)] + Ops(next)))
  }

  // ---------------------------------------------------------------- rank order

  predicate Below(held: set<Lock>, rank: nat) { forall h :: h in held ==> Rank(h) < rank }

  /** The step system takes the operation as asked, instead of refusing it. */
  predicate Admits(held: set<Lock>, op: Op) {
    match op
    case Take(l) => IsOuter(l) && Below(held, Rank(l))
    case Drop(l) => l in held
    case RunTx(x, _) => Below(held, Rank(TxMu(x)))
    case _ => true
  }

  function HeldAfter(held: set<Lock>, op: Op): set<Lock> {
    match op
    case Take(l) => held + {l}
    case Drop(l) => held - {l}
    case _ => held
  }

  /** Every mutex of the script is taken in rank order. */
  predicate Legal(held: set<Lock>, p: Script)
    decreases p
  {
    match p
    case Return => true
    case Run(op, _, next) => !op.Take? && !op.Drop? && Admits(held, op) && Legal(held, next)
    case Locked(l, body, next) => Admits(held, Take(l)) && Legal(held + {l}, body) && Legal(held, next)
  }

  lemma {:induction false} ShorterIsLegal(held: set<Lock>, p: Script, q: Script)
    requires Legal(held, q) && Shorter(p, q)
    ensures Legal(held, p)
    decreases q
  {
    match q
    case Return =>
    case Run(op, _, next) => ShorterIsLegal(held, if Shorter(p, next) then p else p.next, next);
    case Locked(l, body, next) =>
      if Shorter(p, next) {
        ShorterIsLegal(held, p, next);
      } else {
        ShorterIsLegal(held + {l}, p.body, body);
        ShorterIsLegal(held, p.next, next);
      }
  }

  lemma {:induction false} RepeatIsLegal(held: set<Lock>, op: Op, n: nat, next: Script)
    requires (op.RunStmt? || op.RunRows?) && Legal(held, next)
    ensures Legal(held, Repeat(op, n, next))
  {
    if n > 0 { RepeatIsLegal(held, op, n - 1, next); }
  }

  lemma QueryIsLegal(held: set<Lock>, vm: Id, binds: nat, rows: Id)
    ensures Legal(held, QueryBody(vm, binds, rows))
  {
    RepeatIsLegal(held, RunRows(rows, false), 2, Return);
    RepeatIsLegal(held, RunStmt(vm, StmtBind), binds,
                  Good(RunStmt(vm, StmtQuery(true)), Good(RunStmt(vm, StmtClose), Repeat(RunRows(rows, false), 2, Return))));
  }

  lemma TxIsLegal(held: set<Lock>, x: Id, commit: bool, ok: bool, next: Script)
    requires Below(held, 3) && Legal(held, next)
    ensures Legal(held, Run(RunTx(x, commit), ok, next))
  {
  }

  lemma SectionIsLegal(held: set<Lock>, l: Lock, body: Script)
    requires Admits(held, Take(l)) && Legal(held + {l}, body)
    ensures Legal(held, Under(l, body))
  {
    assert Legal(held, Return);
  }

  lemma MethodIsLegal(m: Method)
    ensures Legal({}, Longest(m))
  {
    var held := {} + {AdapterConnMu};
    match m
    case Prepare(vm) => SectionIsLegal({}, AdapterConnMu, Conn(ConnPrepare, Good(RunStmt(vm, StmtClose), Return)));
    case Close(x) => TxIsLegal(held, x, false, true, Conn(ConnClose, Return));
    case ResetSession(x) => TxIsLegal(held, x, false, true, Conn(ConnFinish(false), Conn(ConnSetDatabase, Return)));
    case Query(vm, binds, rows) => QueryIsLegal(held, vm, binds, rows);
    case StatementExec(s) => SectionIsLegal({} + {AdapterStmtMu(s)}, AdapterConnMu, ExecBody());
    case StatementQuery(s, vm, binds, rows) =>
      QueryIsLegal({} + {AdapterStmtMu(s)} + {AdapterConnMu}, vm, binds, rows);
      SectionIsLegal({} + {AdapterStmtMu(s)}, AdapterConnMu, QueryBody(vm, binds, rows));
    case StatementClose(s) => SectionIsLegal({}, AdapterStmtMu(s), Return);
    case Commit(t, x) =>
      var tail := Under(AdapterConnMu, Return);
      SectionIsLegal({} + {AdapterTxMu(t)}, AdapterConnMu, Return);
      TxIsLegal({} + {AdapterTxMu(t)}, x, false, true, tail);
      TxIsLegal({} + {AdapterTxMu(t)}, x, true, false, Good(RunTx(x, false), tail));
    case Rollback(t, x) =>
      SectionIsLegal({} + {AdapterTxMu(t)}, AdapterConnMu, Return);
      TxIsLegal({} + {AdapterTxMu(t)}, x, false, true, Under(AdapterConnMu, Return));
    case RowsNext(r, columns) =>
      SectionIsLegal({}, AdapterConnMu, Return);
      RepeatIsLegal({}, RunRows(r, false), columns, Under(AdapterConnMu, Return));
    case RowsClose(r) => SectionIsLegal({}, AdapterConnMu, Return);
    case _ =>
  }

  // ---------------------------------------------------------------- what a mutex covers

  /** Every core operation of the script runs while `l` is held, by the caller or by the script. */
  predicate Covered(l: Lock, outside: bool, p: Script)
    decreases p
  {
    match p
    case Return => true
    case Run(_, _, next) => outside && Covered(l, outside, next)
    case Locked(k, body, next) => Covered(l, outside || k == l, body) && Covered(l, outside, next)
  }

  /** A goroutine that holds `held` asks for core operations only while it holds `l`. */
  predicate AlwaysUnder(l: Lock, held: set<Lock>, asked: seq<Asked>)
    decreases |asked|
  {
    asked == []
    || (&& (asked[0].op.Take? || asked[0].op.Drop? || l in held)
        && AlwaysUnder(l, HeldAfter(held, asked[0].op), asked[1..]))
  }

  function HeldAfterAll(held: set<Lock>, asked: seq<Asked>): set<Lock>
    decreases |asked|
  {
    if asked == [] then held else HeldAfterAll(HeldAfter(held, asked[0].op), asked[1..])
  }

  lemma {:induction false} UnderInTurn(l: Lock, held: set<Lock>, a: seq<Asked>, b: seq<Asked>)
    ensures HeldAfterAll(held, a + b) == HeldAfterAll(HeldAfterAll(held, a), b)
    ensures AlwaysUnder(l, held, a + b) <==> AlwaysUnder(l, held, a) && AlwaysUnder(l, HeldAfterAll(held, a), b)
    decreases |a|
  {
    if a == [] {
      assert a + b == b;
    } else {
      assert (a + b)[1..] == a[1..] + b;
      UnderInTurn(l, HeldAfter(held, a[0].op), a[1..], b);
    }
  }

  /** A legal script gives back what it takes, and asks for its core operations under the mutex that covers it. */
  lemma {:induction false} CoveredIsUnder(l: Lock, held: set<Lock>, p: Script)
    requires Legal(held, p)
    ensures HeldAfterAll(held, Ops(p)) == held
    ensures Covered(l, l in held, p) ==> AlwaysUnder(l, held, Ops(p))
    decreases p
  {
    match p
    case Return =>
    case Run(op, ok, next) =>
      CoveredIsUnder(l, held, next);
      assert Ops(p)[1..] == Ops(next);
    case Locked(k, body, next) =>
      assert held + {k} - {k} == held by { assert k !in held; }
      CoveredIsUnder(l, held + {k}, body);
      CoveredIsUnder(l, held, next);
      var tail := [Asked(Drop(k), true)] + Ops(next);
      assert tail[1..] == Ops(next) && Ops(p)[1..] == Ops(body) + tail;
      UnderInTurn(l, held + {k}, Ops(body), tail);
  }

  lemma {:induction false} ShorterIsCovered(l: Lock, outside: bool, p: Script, q: Script)
    requires Covered(l, outside, q) && Shorter(p, q)
    ensures Covered(l, outside, p)
    decreases q
  {
    match q
    case Return =>
    case Run(_, _, next) => ShorterIsCovered(l, outside, if Shorter(p, next) then p else p.next, next);
    case Locked(k, body, next) =>
      if Shorter(p, next) {
        ShorterIsCovered(l, outside, p, next);
      } else {
        ShorterIsCovered(l, outside || k == l, p.body, body);
        ShorterIsCovered(l, outside, p.next, next);
      }
  }

  lemma {:induction false} RepeatIsCovered(l: Lock, op: Op, n: nat, next: Script)
    requires Covered(l, true, next)
    ensures Covered(l, true, Repeat(op, n, next))
  {
    if n > 0 { RepeatIsCovered(l, op, n - 1, next); }
  }

  lemma QueryIsCovered(vm: Id, binds: nat, rows: Id)
    ensures Covered(AdapterConnMu, true, QueryBody(vm, binds, rows))
  {
    RepeatIsCovered(AdapterConnMu, RunRows(rows, false), 2, Return);
    RepeatIsCovered(AdapterConnMu, RunStmt(vm, StmtBind), binds,
                    Good(RunStmt(vm, StmtQuery(true)), Good(RunStmt(vm, StmtClose), Repeat(RunRows(rows, false), 2, Return))));
  }

  /** The adapter mutex a method works under. Iterating a cursor relies on the cursor's own mutex. */
  function Guard(m: Method): Option<Lock> {
    match m
    case Commit(t, _) => Some(AdapterTxMu(t))
    case Rollback(t, _) => Some(AdapterTxMu(t))
    case RowsNext(_, _) => None
    case RowsClose(_) => None
    case _ => Some(AdapterConnMu)
  }

  lemma SectionIsCovered(l: Lock, k: Lock, body: Script)
    requires Covered(l, k == l, body)
    ensures Covered(l, false, Under(k, body))
  {
    assert Covered(l, false, Return);
  }

  lemma MethodIsCovered(m: Method)
    requires Guard(m).Some?
    ensures Covered(Guard(m).value, false, Longest(m))
  {
    var l := Guard(m).value;
    match m
    case Query(vm, binds, rows) =>
      QueryIsCovered(vm, binds, rows);
      SectionIsCovered(l, l, QueryBody(vm, binds, rows));
    case StatementExec(s) =>
      SectionIsCovered(l, l, ExecBody());
      SectionIsCovered(l, AdapterStmtMu(s), Under(l, ExecBody()));
    case StatementQuery(s, vm, binds, rows) =>
      QueryIsCovered(vm, binds, rows);
      SectionIsCovered(l, l, QueryBody(vm, binds, rows));
      SectionIsCovered(l, AdapterStmtMu(s), Under(l, QueryBody(vm, binds, rows)));
    case Commit(t, x) =>
      var tail := Good(RunTx(x, false), Under(AdapterConnMu, Return));
      assert Covered(l, true, tail);
      SectionIsCovered(l, l, Run(RunTx(x, true), false, tail));
    case ResetSession(x) =>
      SectionIsCovered(l, l, Good(RunTx(x, false), Conn(ConnFinish(false), Conn(ConnSetDatabase, Return))));
    case Close(x) => SectionIsCovered(l, l, Good(RunTx(x, false), Conn(ConnClose, Return)));
    case Exec => SectionIsCovered(l, l, ExecBody());
    case Prepare(vm) => SectionIsCovered(l, l, Conn(ConnPrepare, Good(RunStmt(vm, StmtClose), Return)));
    case Rollback(t, x) => SectionIsCovered(l, l, Good(RunTx(x, false), Under(AdapterConnMu, Return)));
    case _ =>
  }

  /** On every path through a method, each core operation is asked for while the method's adapter mutex is held. */
  lemma CoreCallsAreCovered(m: Method, p: Script)
    requires Shorter(p, Longest(m)) && Guard(m).Some?
    ensures AlwaysUnder(Guard(m).value, {}, Ops(p))
  {
    var l := Guard(m).value;
    MethodIsCovered(m);
    ShorterIsCovered(l, false, p, Longest(m));
    MethodIsLegal(m);
    ShorterIsLegal({}, p, Longest(m));
    CoveredIsUnder(l, {}, p);
  }

  // ---------------------------------------------------------------- one operation, whatever the others do

  /** Inside a core operation. */
  predicate Working(th: Thread) { !th.pc.Idle? && !th.pc.TakeOuter? }

  /** A core operation leaves the adapter's mutexes alone. */
  lemma WorkKeepsOuter(s: Memory, t: Id, th: Thread, c: Choice)
    requires Working(th)
    ensures var next := Next(s, t, th, c).th; next.outer == th.outer && !next.pc.TakeOuter?
  {
    if AtEnter(th.pc) || AtTx(th.pc) || AtStmt(th.pc) || AtTemp(th.pc) || AtResult(th.pc) || AtHandle(th.pc) {
      WorkInConn(s, t, th, c);
    } else if AtCloseVm(th.pc) || AtQuery(th.pc) || AtPublish(th.pc) || AtReset(th.pc) || AtCloseCursor(th.pc) {
      WorkInStmt(s, t, th, c);
    } else {
    }
  }

  lemma WorkInConn(s: Memory, t: Id, th: Thread, c: Choice)
    requires AtEnter(th.pc) || AtTx(th.pc) || AtStmt(th.pc) || AtTemp(th.pc) || AtResult(th.pc) || AtHandle(th.pc)
    ensures var next := Next(s, t, th, c).th; next.outer == th.outer && !next.pc.TakeOuter?
  {
  }

  lemma WorkInStmt(s: Memory, t: Id, th: Thread, c: Choice)
    requires AtCloseVm(th.pc) || AtQuery(th.pc) || AtPublish(th.pc) || AtReset(th.pc) || AtCloseCursor(th.pc)
    ensures var next := Next(s, t, th, c).th; next.outer == th.outer && !next.pc.TakeOuter?
  {
  }

  /** Where goroutine `t` can be in the middle of `op`, asked for while it held `held`. */
  predicate Amid(th: Thread, held: set<Lock>, op: Op) {
    th.outer == held && if op.Take? then th.pc == TakeOuter(op.lock) else !op.Drop? && Working(th)
  }

  predicate Ended(th: Thread, held: set<Lock>, op: Op) { th.pc == Idle && th.outer == HeldAfter(held, op) }

  lemma StartsAsAsked(s: Memory, t: Id, th: Thread, c: Choice)
    requires th.pc == Idle && Admits(th.outer, c.op)
    ensures var next := Next(s, t, th, c).th; Amid(next, th.outer, c.op) || Ended(next, th.outer, c.op)
  {
  }

  lemma GoesOn(s: Memory, t: Id, th: Thread, c: Choice, held: set<Lock>, op: Op)
    requires Amid(th, held, op)
    ensures var next := Next(s, t, th, c).th; Amid(next, held, op) || Ended(next, held, op)
  {
    if !op.Take? { WorkKeepsOuter(s, t, th, c); }
  }

  /**
    In every run, however the goroutines interleave: an admitted operation, once started, can only end with the
    mutexes its script says, and holds exactly the mutexes it was started with until then.
   */
  lemma {:induction false} OperationEndsAsWritten(run: seq<State>, t: Id, c: Choice, i: nat, j: nat)
    requires IsRun(run) && i < j < |run| && t in run[i].threads && StepBy(run[i], run[i + 1], t, c)
    requires run[i].threads[t].pc == Idle && Admits(run[i].threads[t].outer, c.op)
    requires forall k :: i < k < j ==> t in run[k].threads && run[k].threads[t].pc != Idle
    ensures t in run[j].threads
    ensures var held := run[i].threads[t].outer;
            if run[j].threads[t].pc == Idle then run[j].threads[t].outer == HeldAfter(held, c.op)
            else run[j].threads[t].outer == held
    ensures var held := run[i].threads[t].outer;
            Amid(run[j].threads[t], held, c.op) || Ended(run[j].threads[t], held, c.op)
    decreases j
  {
    hide Next;
    var held := run[i].threads[t].outer;
    if j == i + 1 {
      StartsAsAsked(run[i].memory, t, run[i].threads[t], c);
    } else {
      OperationEndsAsWritten(run, t, c, i, j - 1);
      assert Step(run[j - 1], run[j]);
      var u, d :| StepBy(run[j - 1], run[j], u, d);
      if u == t { GoesOn(run[j - 1].memory, t, run[j - 1].threads[t], d, held, c.op); }
    }
  }

  // ---------------------------------------------------------------- carrying out a script

  function Resting(held: set<Lock>): Thread { Thread(held, None, None, None, Free, Idle) }

  /** All goroutines but `t` are between operations and hold nothing. */
  ghost predicate Alone(s: State, t: Id) {
    t in s.threads && forall u :: u in s.threads && u != t ==> s.threads[u] == Resting({})
  }

  /** How an operation goes: every native call it makes succeeds and no context ends, or it gives up where it can. */
  predicate Goes(c: Choice, ok: bool) { c.ok == ok && c.branch == if ok then Ahead else Abort }

  /** After `n` steps of its own, `t` is between operations for the first time. */
  ghost predicate Finishes(s: State, s': State, t: Id, ok: bool, n: nat)
    decreases n
  {
    && t in s.threads
    && if n == 0 then s' == s && s.threads[t].pc == Idle
       else
         && s.threads[t].pc != Idle
         && exists m: State, c: Choice :: Goes(c, ok) && StepBy(s, m, t, c) && Finishes(m, s', t, ok, n - 1)
  }

  /** `t` asks for an operation, and its own steps carry it through to that outcome. */
  ghost predicate Carries(s: State, s': State, t: Id, asked: Asked) {
    && t in s.threads && s.threads[t].pc == Idle
    && exists m: State, c: Choice, n: nat ::
         Goes(c, asked.ok) && c.op == asked.op && StepBy(s, m, t, c) && Finishes(m, s', t, asked.ok, n)
  }

  /** `t` carries out the operations one after the other. */
  ghost predicate Performs(s: State, s': State, t: Id, ops: seq<Asked>)
    decreases |ops|
  {
    if ops == [] then s' == s
    else exists m :: Carries(s, m, t, ops[0]) && Performs(m, s', t, ops[1..])
  }

  function LocksOf(th: Thread): nat {
    (if th.conn == Free then 0 else 1) + (if th.stmt == None then 0 else 1)
    + (if th.rows == None then 0 else 1) + (if th.tx == None then 0 else 1)
  }

  /** How far an operation is from its unlocks, if it does not loop. */
  function Distance(pc: Pc): nat {
    if pc.Idle? || pc.TakeOuter? || pc.Unlock? then 0
    else if pc.EnterConn? || pc.EnterRows? || pc.EnterStmt? then 6
    else if pc.InConn? || pc.ExecConn? || pc.CloseCursorOf? then 5
    else if pc.TempReady? || pc.InExec? || pc.InQuery? || pc.ResetConn? || pc.ReleaseRows? then 4
    else if pc.Executed? || pc.Drawing? || pc.InReset? || pc.EnterTx? || pc.EnterOwed? then 3
    else if pc.Affected? || pc.TxConn? || pc.EnterShared? || pc.CloseVmOf? || pc.AddChild? || pc.ResetClose? then 2
    else 1
  }

  function Remaining(th: Thread): nat { 10 * Distance(th.pc) + LocksOf(th) }

  /** A step that does not loop brings an operation closer to its end. */
  lemma StepEnds(s: Memory, t: Id, th: Thread, c: Choice, ok: bool)
    requires Working(th) && Goes(c, ok)
    ensures var next := Next(s, t, th, c).th;
            && next.outer == th.outer
            && if next.pc == Idle then next == Resting(th.outer) else Working(next) && Remaining(next) < Remaining(th)
  {
    WorkKeepsOuter(s, t, th, c);
    if th.pc.Unlock? {
    } else {
      StepCloser(s, t, th, c, ok);
    }
  }

  lemma StepCloser(s: Memory, t: Id, th: Thread, c: Choice, ok: bool)
    requires Working(th) && !th.pc.Unlock? && Goes(c, ok)
    ensures var next := Next(s, t, th, c).th;
            Working(next) && Distance(next.pc) < Distance(th.pc) && LocksOf(next) <= LocksOf(th) + 1
  {
    if AtEnter(th.pc) || AtTx(th.pc) || AtStmt(th.pc) {
      CloserToEntry(s, t, th, c, ok);
    } else if AtTemp(th.pc) || AtResult(th.pc) || AtHandle(th.pc) {
      CloserInConn(s, t, th, c, ok);
    } else if AtQuery(th.pc) || AtPublish(th.pc) {
      CloserToCursor(s, t, th, c, ok);
    } else if AtReset(th.pc) || th.pc.ResetClose? || th.pc.ResetPrepare? {
      CloserToReset(s, t, th, c, ok);
    } else if AtCloseVm(th.pc) || AtCloseCursor(th.pc) {
      CloserToClosed(s, t, th, c, ok);
    } else {
    }
  }

  lemma CloserToEntry(s: Memory, t: Id, th: Thread, c: Choice, ok: bool)
    requires (AtEnter(th.pc) || AtTx(th.pc) || AtStmt(th.pc)) && Goes(c, ok)
    ensures var next := Next(s, t, th, c).th;
            Working(next) && Distance(next.pc) < Distance(th.pc) && LocksOf(next) <= LocksOf(th) + 1
  {
  }

  lemma CloserInConn(s: Memory, t: Id, th: Thread, c: Choice, ok: bool)
    requires (AtTemp(th.pc) || AtResult(th.pc) || AtHandle(th.pc)) && Goes(c, ok)
    ensures var next := Next(s, t, th, c).th;
            Working(next) && Distance(next.pc) < Distance(th.pc) && LocksOf(next) <= LocksOf(th) + 1
  {
  }

  lemma CloserToCursor(s: Memory, t: Id, th: Thread, c: Choice, ok: bool)
    requires (AtQuery(th.pc) || AtPublish(th.pc)) && Goes(c, ok)
    ensures var next := Next(s, t, th, c).th;
            Working(next) && Distance(next.pc) < Distance(th.pc) && LocksOf(next) <= LocksOf(th) + 1
  {
  }

  lemma CloserToReset(s: Memory, t: Id, th: Thread, c: Choice, ok: bool)
    requires (AtReset(th.pc) || th.pc.ResetClose? || th.pc.ResetPrepare?) && Goes(c, ok)
    ensures var next := Next(s, t, th, c).th;
            Working(next) && Distance(next.pc) < Distance(th.pc) && LocksOf(next) <= LocksOf(th) + 1
  {
  }

  lemma CloserToClosed(s: Memory, t: Id, th: Thread, c: Choice, ok: bool)
    requires (AtCloseVm(th.pc) || AtCloseCursor(th.pc)) && Goes(c, ok)
    ensures var next := Next(s, t, th, c).th;
            Working(next) && Distance(next.pc) < Distance(th.pc) && LocksOf(next) <= LocksOf(th) + 1
  {
  }

  function OwnStep(s: State, t: Id, c: Choice): State
    requires t in s.threads
  {
    var m := Next(s.memory, t, s.threads[t], c);
    State(s.threads[t := m.th], m.memory)
  }

  /** Nobody hinders `t`. */
  lemma OwnStepTaken(s: State, t: Id, c: Choice)
    requires Alone(s, t)
    ensures var s' := OwnStep(s, t, c);
            && StepBy(s, s', t, c) && Alone(s', t) && s'.threads[t] == Next(s.memory, t, s.threads[t], c).th
  {
    hide Next;
  }

  function Choose(op: Op, ok: bool): Choice { Choice(ok, if ok then Ahead else Abort, op) }

  lemma {:induction false} Returns(s: State, t: Id, ok: bool) returns (s': State, n: nat)
    requires Alone(s, t) && Working(s.threads[t])
    ensures Finishes(s, s', t, ok, n)
    ensures Alone(s', t) && s'.threads[t] == Resting(s.threads[t].outer)
    decreases Remaining(s.threads[t])
  {
    hide Next, StepBy, OwnStep, Distance, LocksOf;
    var c := Choose(RunShared(true), ok);
    StepEnds(s.memory, t, s.threads[t], c, ok);
    OwnStepTaken(s, t, c);
    var next := OwnStep(s, t, c);
    if next.threads[t].pc == Idle {
      s', n := next, 1;
      assert Finishes(next, s', t, ok, 0);
    } else {
      s', n := Returns(next, t, ok);
      n := n + 1;
    }
  }

  lemma IdleStarts(s: Memory, t: Id, held: set<Lock>, c: Choice)
    requires Admits(held, c.op)
    ensures var next := Next(s, t, Resting(held), c).th;
            if c.op.Drop? then next == Resting(HeldAfter(held, c.op))
            else if c.op.Take? then next == Resting(held).(pc := TakeOuter(c.op.lock))
            else next.outer == held && Working(next)
  {
  }

  lemma LockTaken(s: Memory, t: Id, th: Thread, c: Choice)
    requires th.pc.TakeOuter?
    ensures Next(s, t, th, c).th == th.(outer := th.outer + {th.pc.lock}, pc := Idle)
  {
  }

  /** An admitted operation of a goroutine that nobody hinders is carried through, to either outcome. */
  lemma OperationRuns(s: State, t: Id, asked: Asked) returns (s': State)
    requires Alone(s, t) && s.threads[t].pc == Idle && s.threads[t] == Resting(s.threads[t].outer)
    requires Admits(s.threads[t].outer, asked.op)
    ensures Carries(s, s', t, asked)
    ensures Alone(s', t) && s'.threads[t] == Resting(HeldAfter(s.threads[t].outer, asked.op))
  {
    hide Next, StepBy, OwnStep;
    var ok, c := asked.ok, Choose(asked.op, asked.ok);
    IdleStarts(s.memory, t, s.threads[t].outer, c);
    OwnStepTaken(s, t, c);
    var first := OwnStep(s, t, c);
    if asked.op.Drop? {
      s' := first;
      assert Finishes(first, s', t, ok, 0);
    } else if asked.op.Take? {
      LockTaken(first.memory, t, first.threads[t], c);
      OwnStepTaken(first, t, c);
      s' := OwnStep(first, t, c);
      assert Finishes(s', s', t, ok, 0);
      assert Finishes(first, s', t, ok, 1);
    } else {
      var n;
      s', n := Returns(first, t, ok);
    }
  }

  lemma {:induction false} PerformsInTurn(s: State, m: State, s': State, t: Id, a: seq<Asked>, b: seq<Asked>)
    requires Performs(s, m, t, a) && Performs(m, s', t, b)
    ensures Performs(s, s', t, a + b)
    decreases |a|
  {
    hide Carries;
    if a == [] {
      assert a + b == b;
    } else {
      assert (a + b)[1..] == a[1..] + b;
      var next :| Carries(s, next, t, a[0]) && Performs(next, m, t, a[1..]);
      PerformsInTurn(next, m, s', t, a[1..], b);
    }
  }

  lemma OnePerforms(s: State, s': State, t: Id, asked: Asked)
    requires Carries(s, s', t, asked)
    ensures Performs(s, s', t, [asked])
  {
    assert Performs(s', s', t, [asked][1..]);
  }

  /** A legal script is carried out, and what it locked it has unlocked. */
  lemma {:induction false} ScriptRuns(s: State, t: Id, p: Script) returns (s': State)
    requires Alone(s, t) && s.threads[t] == Resting(s.threads[t].outer) && Legal(s.threads[t].outer, p)
    ensures Performs(s, s', t, Ops(p))
    ensures Alone(s', t) && s'.threads[t] == s.threads[t]
    decreases p
  {
    hide Carries;
    var held := s.threads[t].outer;
    match p
    case Return => s' := s;
    case Run(op, ok, next) =>
      var m := OperationRuns(s, t, Asked(op, ok));
      OnePerforms(s, m, t, Asked(op, ok));
      s' := ScriptRuns(m, t, next);
      PerformsInTurn(s, m, s', t, [Asked(op, ok)], Ops(next));
    case Locked(l, body, next) =>
      assert held + {l} - {l} == held by { assert l !in held; }
      var take, drop := Asked(Take(l), true), Asked(Drop(l), true);
      var taken := OperationRuns(s, t, take);
      var done := ScriptRuns(taken, t, body);
      var dropped := OperationRuns(done, t, drop);
      s' := ScriptRuns(dropped, t, next);
      OnePerforms(s, taken, t, take);
      OnePerforms(done, dropped, t, drop);
      PerformsInTurn(done, dropped, s', t, [drop], Ops(next));
      PerformsInTurn(taken, done, s', t, Ops(body), [drop] + Ops(next));
      PerformsInTurn(s, taken, s', t, [take], Ops(body) + ([drop] + Ops(next)));
  }

  // ---------------------------------------------------------------- runs

  /** `longer` prolongs the run to `s'`. */
  ghost predicate Prolongs(run: seq<State>, longer: seq<State>, s': State) {
    IsRun(longer) && run <= longer && longer[|longer| - 1] == s'
  }

  lemma OneMore(run: seq<State>, m: State, t: Id, c: Choice)
    requires IsRun(run) && StepBy(run[|run| - 1], m, t, c)
    ensures Prolongs(run, run + [m], m)
  {
    hide StepBy, Init;
    var longer := run + [m];
    forall i | 0 <= i < |longer| - 1 ensures Step(longer[i], longer[i + 1]) {
      if i < |run| - 1 { assert Step(run[i], run[i + 1]); }
    }
  }

  lemma {:induction false} RunFinishes(run: seq<State>, s: State, s': State, t: Id, ok: bool, n: nat)
    returns (longer: seq<State>)
    requires IsRun(run) && run[|run| - 1] == s && Finishes(s, s', t, ok, n)
    ensures Prolongs(run, longer, s')
    decreases n
  {
    hide StepBy, Step, Init;
    if n == 0 {
      longer := run;
    } else {
      var m: State, c: Choice :| Goes(c, ok) && StepBy(s, m, t, c) && Finishes(m, s', t, ok, n - 1);
      OneMore(run, m, t, c);
      longer := RunFinishes(run + [m], m, s', t, ok, n - 1);
    }
  }

  /** What a goroutine performs prolongs a run. */
  lemma {:induction false} RunPerforms(run: seq<State>, s: State, s': State, t: Id, ops: seq<Asked>) returns (longer: seq<State>)
    requires IsRun(run) && run[|run| - 1] == s && Performs(s, s', t, ops)
    ensures Prolongs(run, longer, s')
    decreases |ops|
  {
    hide StepBy, Step, Init, Finishes;
    if ops == [] {
      longer := run;
    } else {
      var e :| Carries(s, e, t, ops[0]) && Performs(e, s', t, ops[1..]);
      var ok := ops[0].ok;
      var m: State, c: Choice, n: nat :| Goes(c, ok) && c.op == ops[0].op && StepBy(s, m, t, c) && Finishes(m, e, t, ok, n);
      OneMore(run, m, t, c);
      hide Carries;
      longer := RunFinishes(run + [m], m, e, t, ok, n);
      longer := RunPerforms(longer, e, s', t, ops[1..]);
    }
  }

  /**
    Every path through every adapter method is realised: from any reachable state in which the other goroutines are
    between operations, the run continues with `t` carrying out the path, after which it holds nothing.
   */
  lemma EveryPathRuns(run: seq<State>, t: Id, m: Method, p: Script)
    requires IsRun(run) && Alone(run[|run| - 1], t) && run[|run| - 1].threads[t] == Resting({})
    requires Shorter(p, Longest(m))
    ensures exists longer, s' ::
              && Prolongs(run, longer, s') && Performs(run[|run| - 1], s', t, Ops(p))
              && Alone(s', t) && s'.threads[t] == Resting({})
  {
    var s := run[|run| - 1];
    hide Performs, IsRun, Legal, Shorter, Prolongs;
    MethodIsLegal(m);
    ShorterIsLegal({}, p, Longest(m));
    var s' := ScriptRuns(s, t, p);
    var longer := RunPerforms(run, s, s', t, Ops(p));
  }
}
