/**
  The database/sql adapter connection as a relation between states, one step per driver call.

  `database/sql` issues the calls on one driver connection one at a time, so a call is one step.
 */
module AdapterProtocol {
  import opened Basics
  import opened Errors
  import opened Session

  /** What a driver call returns when it fails. */
  datatype Failure =
    | BadConn               // driver.ErrBadConn: the caller may retry on another connection
    | Rejected              // arguments or options refused before the connection is looked at
    | Failed(error: Error)
    | Joined(first: Error, second: Error)

  /** `errors.Join` of two errors, either of which may be nil. */
  function Join(a: Option<Error>, b: Option<Error>): Option<Failure> {
    match a
    case None => (match b case None => None case Some(e) => Some(Failed(e)))
    case Some(e) => (match b case None => Some(Failed(e)) case Some(f) => Some(Joined(e, f)))
  }

  /** The adapter `conn` over its core connection; `ended` are the transactions whose driver.Tx is done. */
  datatype Adapter = Adapter(
    core: Core,
    held: bool,             // native != nil
    closed: bool,
    broken: bool,
    active: Option<nat>,    // activeTx
    ended: set<nat>,
    database: string)

  datatype Call =
    | Prepare
    | Close
    | Begin
    | Ping
    | Reset
    | Exec(sql: string)
    | Query(sql: string)
    | CloseRows
    | NextRow
    | Commit(tx: nat)
    | Rollback(tx: nat)

  /** `usableLocked` returns nil. */
  predicate Usable(a: Adapter) { !a.closed && a.held && !a.broken }

  /** `observeLocked`. */
  function Observe(a: Adapter, e: Error): Adapter { a.(broken := a.broken || Breaks(e)) }

  /** `safeRetryErrorLocked`, applied after `observeLocked`. */
  function SafeRetry(a: Adapter, e: Error): Failure { if a.broken then BadConn else Failed(e) }

  /** `finishTransaction`. */
  function FinishTransaction(a: Adapter, x: nat, broken: bool, clear: bool): Adapter {
    a.(active := if a.active == Some(x) && clear then None else a.active, broken := a.broken || broken)
  }

  ghost predicate PrepareStep(a: Adapter, a': Adapter, out: Option<Failure>) {
    || (a' == a && out == None)
    || (exists e :: a' == Observe(a, e) && out == Some(SafeRetry(a', e)))
  }

  ghost predicate PingStep(a: Adapter, a': Adapter, out: Option<Failure>) { PrepareStep(a, a', out) }

  /** `activeTx.RollbackContext`, if there is an active transaction. */
  predicate AbandonActive(a: Adapter, c: Core, err: Option<Error>) {
    match a.active
    case Some(x) => CoreFinishTx(a.core, c, x, false, err)
    case None => c == a.core && err == None
  }

  ghost predicate CloseStep(a: Adapter, a': Adapter, out: Option<Failure>) {
    exists c1: Core, e1: Option<Error>, e2: Option<Error> ::
      && AbandonActive(a, c1, e1)
      && CoreClose(c1, a'.core, e2)
      && a' == a.(core := a'.core, active := None, held := e2 != None && a.held, closed := e2 == None)
      && out == Join(e1, e2)
  }

  ghost predicate BeginStep(a: Adapter, a': Adapter, out: Option<Failure>) {
    if a.active.Some? then a' == a && out == Some(Failed(Busy))
    else
      exists c: Core, e: Option<Error> ::
        && CoreBegin(a.core, c, e)
        && match e
           case None => a' == a.(core := c, active := Some(a.core.session.nextTx)) && out == None
           case Some(error) => a' == Observe(a.(core := c), error) && out == Some(Failed(error))
  }

  ghost predicate ResetStep(a: Adapter, a': Adapter, out: Option<Failure>) {
    exists c1: Core, e1: Option<Error> ::
      && AbandonActive(a, c1, e1)
      && if e1.Some? then a' == a.(core := c1, broken := true) && out == Some(BadConn)
         else ResetIdle(a.(core := c1, active := None), a', out)
  }

  /** `ResetSession` after the rollback of an abandoned transaction. */
  ghost predicate ResetIdle(a: Adapter, a': Adapter, out: Option<Failure>) {
    exists c2: Core, e2: Option<Error> ::
      && CoreFinishImplicit(a.core, c2, false, false, e2)
      && if e2.Some? && !NoDatabaseSelected(e2.value) then a' == a.(core := c2, broken := true) && out == Some(BadConn)
         else
           exists c3: Core, e3: Option<Error> ::
             && CoreSetDatabase(c2, c3, a.database, e3)
             && if e3.Some? then a' == a.(core := c3, broken := true) && out == Some(BadConn)
                else a' == a.(core := c3) && out == None
  }

  ghost predicate ExecStep(a: Adapter, a': Adapter, sql: string, out: Option<Failure>) {
    exists c1: Core, e1: Option<Error> ::
      && CoreExec(a.core, c1, sql, e1)
      && match e1
         case Some(error) => a' == Observe(a.(core := c1), error) && out == Some(Failed(error))
         case None =>
           if a.active.Some? then a' == a.(core := c1) && out == None
           else
             exists c2: Core, e2: Option<Error> ::
               && CoreFinishImplicit(c1, c2, true, true, e2)
               && match e2
                  case Some(error) => a' == Observe(a.(core := c2), error) && out == Some(Failed(error))
                  case None => a' == a.(core := c2) && out == None
  }

  ghost predicate QueryStep(a: Adapter, a': Adapter, sql: string, out: Option<Failure>) {
    exists c: Core, e: Option<Error> ::
      && CoreQuery(a.core, c, sql, e)
      && match e
         case None => a' == a.(core := c) && out == None
         case Some(error) => a' == Observe(a.(core := c), error) && out == Some(Failed(error))
  }

  /** `transaction.Commit`: a failed commit is followed by a rollback and always breaks the connection. */
  ghost predicate CommitStep(a: Adapter, a': Adapter, x: nat, out: Option<Failure>) {
    exists c1: Core, e1: Option<Error> ::
      && CoreFinishTx(a.core, c1, x, true, e1)
      && match e1
         case None => a' == FinishTransaction(a.(core := c1, ended := a.ended + {x}), x, false, true) && out == None
         case Some(error) =>
           exists c2: Core, e2: Option<Error> ::
             && CoreFinishTx(c1, c2, x, false, e2)
             && a' == FinishTransaction(a.(core := c2, ended := a.ended + {x}), x, true, e2 == None)
             && out == Join(e1, e2)
  }

  ghost predicate RollbackStep(a: Adapter, a': Adapter, x: nat, out: Option<Failure>) {
    exists c: Core, e: Option<Error> ::
      && CoreFinishTx(a.core, c, x, false, e)
      && a' == FinishTransaction(a.(core := c, ended := a.ended + {x}), x, e.Some?, e == None)
      && out == match e case None => None case Some(error) => Some(Failed(error))
  }

  /** The caller is told of an error that breaks a connection. */
  predicate TellsBreak(out: Option<Failure>) { out.Some? && out.value.Failed? && Breaks(out.value.error) }

  /** Iterating or closing the rows of a query; errors are observed. */
  predicate RowsStep(a: Adapter, a': Adapter, out: Option<Failure>, close: bool) {
    && (out.Some? ==> out.value.Failed?)
    && a' == a.(core := a.core.(children := if close then 0 else a.core.children), broken := a.broken || TellsBreak(out))
  }

  /** One driver call and what it returns. */
  ghost predicate Step(a: Adapter, call: Call, out: Option<Failure>, a': Adapter) {
    match call
    case Close => if a.closed then a' == a && out == None else CloseStep(a, a', out)
    case CloseRows => RowsStep(a, a', out, true)
    case NextRow => RowsStep(a, a', out, false)
    case Commit(x) => if x in a.ended then a' == a && out == Some(Failed(TxDone)) else CommitStep(a, a', x, out)
    case Rollback(x) => if x in a.ended then a' == a && out == Some(Failed(TxDone)) else RollbackStep(a, a', x, out)
    case _ =>
      || (a' == a && out == Some(Rejected) && (call.Exec? || call.Query? || call.Begin?))
      || if !Usable(a) then a' == a && out == Some(BadConn)
         else
           match call
           case Prepare => PrepareStep(a, a', out)
           case Ping => PingStep(a, a', out)
           case Begin => BeginStep(a, a', out)
           case Reset => ResetStep(a, a', out)
           case Exec(sql) => ExecStep(a, a', sql, out)
           case Query(sql) => QueryStep(a, a', sql, out)
           case _ => false
  }

  /** What `Connector.Connect` returns for a configured database. */
  predicate Fresh(a: Adapter) {
    && a.core.open && a.core.children == 0
    && a.core.session.database == a.database
    && a.core.session.tx == None && a.core.session.pending == []
    && a.held && !a.closed && !a.broken && a.active == None
  }

  /** A connection just made by `Connect`, before any driver call. */
  predicate Connected(a: Adapter) {
    && Fresh(a)
    && a.core.session == NewSession().(database := a.database)
    && a.ended == {}
  }

  datatype Turn = Turn(call: Call, out: Option<Failure>)

  /** A run of driver calls: `states[i]` --`turns[i]`--> `states[i + 1]`. */
  ghost predicate IsRun(states: seq<Adapter>, turns: seq<Turn>) {
    && |states| == |turns| + 1
    && Connected(states[0])
    && forall i :: 0 <= i < |turns| ==> Step(states[i], turns[i].call, turns[i].out, states[i + 1])
  }

  /** `database/sql` never uses a driver connection after it has called `Close` on it. */
  predicate NothingAfterFailedClose(turns: seq<Turn>) {
    forall i :: 0 <= i < |turns| - 1 && turns[i].call == Close ==> turns[i].out == None
  }
}
