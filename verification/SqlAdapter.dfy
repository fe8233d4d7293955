/**
  The database/sql adapter over the safe core, method by method. Each method is one call of
  `AdapterProtocol`; `AdapterCalls` puts any list of them together to a run.
 */
module SqlAdapter {
  import opened Basics
  import opened Errors
  import opened Parameters
  import opened Session
  import opened Native
  import opened AdapterProtocol
  import BindGraph
  import Cursor
  import SafeCore

  // ---------------------------------------------------------------- arguments

  /** What the standard converter makes of an argument. */
  datatype Arg = Plain(value: Value) | Boolean(b: bool) | Unconvertible

  datatype NamedValue = NamedValue(name: string, arg: Arg)

  /** `checkNamedValue`. */
  function Checked(n: NamedValue): Option<Value> {
    if n.name != "" then None
    else
      match n.arg
      case Plain(v) => if v.OtherValue? then None else Some(v)
      case Boolean(b) => Some(IntValue(if b then 1 else 0))
      case Unconvertible => None
  }

  /** Which arguments are accepted, and as what: a bool as the integer 1 or 0. */
  lemma CheckedExactly(n: NamedValue)
    ensures Checked(n) == None <==> n.name != "" || n.arg == Unconvertible || n.arg == Plain(OtherValue)
    ensures n.name == "" && n.arg.Plain? && n.arg.value != OtherValue ==> Checked(n) == Some(n.arg.value)
    ensures n.name == "" && n.arg == Boolean(true) ==> Checked(n) == Some(IntValue(1))
    ensures n.name == "" && n.arg == Boolean(false) ==> Checked(n) == Some(IntValue(0))
  {
  }

  predicate Convertible(arguments: seq<NamedValue>) { forall i :: 0 <= i < |arguments| ==> Checked(arguments[i]) != None }

  /** The values of a convertible list, by position. */
  function Values(arguments: seq<NamedValue>): seq<Value>
    requires Convertible(arguments)
  {
    seq(|arguments|, i requires 0 <= i < |arguments| => Checked(arguments[i]).value)
  }

  /** `namedValues`. */
  method NamedValues(arguments: seq<NamedValue>) returns (values: seq<Value>, ok: bool)
    ensures ok <==> Convertible(arguments)
    ensures ok ==> values == Values(arguments)
  {
    values := [];
    for index := 0 to |arguments|
      invariant |values| == index
      invariant forall i :: 0 <= i < index ==> Checked(arguments[i]) == Some(values[i])
    {
      var checked := Checked(arguments[index]);
      if checked == None { return [], false; }
      values := values + [checked.value];
    }
    ok := true;
  }

  // ---------------------------------------------------------------- the connection

  /** Only the arguments or the server made the call fail. */
  predicate Served(out: Option<Failure>) { out.Some? ==> out.value.Failed? && Attempted(Some(out.value.error)) }

  /** The same for a call that hides a breaking error behind driver.ErrBadConn. */
  predicate Retried(out: Option<Failure>, broken: bool) { Served(out) || (out == Some(BadConn) && broken) }

  /** `conn`. */
  class Conn {
    ghost const core: SafeCore.Conn      // the core connection, also after Close has let go of it
    const database: string
    var native: SafeCore.Conn?
    var activeTx: SafeCore.Tx?
    var closed: bool
    var broken: bool
    ghost var ended: set<nat>            // ids of the transactions whose driver.Tx is done

    constructor (native: SafeCore.Conn, database: string)
      requires native.Valid() && native.native != null && native.tx == null
      ensures Valid() && this.core == native && this.native == native && this.database == database
      ensures activeTx == null && !closed && !broken && ended == {}
    {
      this.core, this.native, this.database := native, native, database;
      activeTx, closed, broken, ended := null, false, false, {};
    }

    ghost predicate Base()
      reads this, core, core.link`open, core.link`children, core.link`handles, core.link`session,
            core.stmt, core.rows, core.tx, core.StmtHandle()`ptr, core.RowsHandle()`ptr
    {
      && core.Valid()
      && native == (if closed then null else core)
      && (closed <==> core.native == null) && (closed ==> activeTx == null)
      && forall i :: i in ended ==> i < core.link.session.nextTx
    }

    ghost predicate Valid()
      reads this, core, core.link`open, core.link`children, core.link`handles, core.link`session,
            core.stmt, core.rows, core.tx, core.StmtHandle()`ptr, core.RowsHandle()`ptr
    {
      Base() && (activeTx != null ==> core.tx == activeTx)
    }

    ghost function View(): Adapter
      reads this, core, core.link`session
    {
      Adapter(core.View(), native != null, closed, broken, if activeTx == null then None else Some(activeTx.id),
              ended, database)
    }

    /** A core transaction of this connection is done, or the live one. */
    ghost predicate Tracks(tx: SafeCore.Tx)
      reads tx, core`tx
    {
      if tx.done then tx.conn == null else tx.conn == core && core.tx == tx
    }

    /** The server holds `values` by position for the last execution, with their meaning if every length fits. */
    ghost predicate Reached(values: seq<Value>)
      reads core.link`sent
    {
      values != [] && |values| < 0x8000_0000 ==>
        && core.link.sent == Numbered(TruncateAll(values))
        && ((forall i :: 0 <= i < |values| ==> Fits(values[i])) ==> core.link.sent == Numbered(DenoteAll(values)))
    }

    /** `usableLocked`. */
    predicate Usable()
      reads this
    {
      !closed && native != null && !broken
    }

    /** `observeLocked`. */
    method Observe(err: Error)
      requires Valid()
      modifies this`broken
      ensures Valid() && broken == (old(broken) || Breaks(err))
      ensures View() == AdapterProtocol.Observe(old(View()), err)
    {
      if Breaks(err) {
        broken := true;
      }
    }

    /** `PrepareContext`: the query is validated by preparing it; the statement made for it keeps only the text. */
    method Prepare(ctx: Context, query: string) returns (statement: Statement?, out: Option<Failure>)
      requires Valid() && ctx.Valid()
      modifies ctx, this`broken, core`children, core`stmt,
               core.link`children, core.link`handles, core.link`armed, core.link`lapses, core.link`prepared
      ensures Valid() && ctx.Valid() && Step(old(View()), Call.Prepare, out, View())
      ensures core.stmt == old(core.stmt)
      ensures out == None ==> core.link.prepared == old(core.link.prepared) + [query]
      ensures ctx.background && old(Usable()) && core.children == 0 && query != "" ==> Retried(out, broken)
      ensures statement != null <==> out == None
      ensures statement != null ==>
                fresh(statement) && statement.connection == this && statement.query == query && !statement.closed
    {
      if !Usable() { return null, Some(BadConn); }
      out := PrepareUsable(ctx, query);
      statement := null;
      if out == None {
        statement := new Statement(this, query);
      }
    }

    method PrepareUsable(ctx: Context, query: string) returns (out: Option<Failure>)
      requires Valid() && ctx.Valid() && Usable()
      modifies ctx, this`broken, core`children, core`stmt,
               core.link`children, core.link`handles, core.link`armed, core.link`lapses, core.link`prepared
      ensures Valid() && ctx.Valid() && PrepareStep(old(View()), View(), out)
      ensures core.stmt == old(core.stmt)
      ensures out == None ==> core.link.prepared == old(core.link.prepared) + [query]
      ensures ctx.background && core.children == 0 && query != "" ==> Retried(out, broken)
    {
      var err := Validate(ctx, query);
      if err.Some? {
        Observe(err.value);
        return Some(if broken then BadConn else Failed(err.value));
      }
      return None;
    }

    /** Prepares the query and closes the statement. */
    method Validate(ctx: Context, query: string) returns (err: Option<Error>)
      requires Valid() && ctx.Valid() && native != null
      modifies ctx, core`children, core`stmt,
               core.link`children, core.link`handles, core.link`armed, core.link`lapses, core.link`prepared
      ensures Valid() && ctx.Valid() && CorePrepareClose(old(core.View()), core.View())
      ensures core.stmt == old(core.stmt)
      ensures err == None ==> core.link.prepared == old(core.link.prepared) + [query]
      ensures ctx.background && core.children == 0 && query != "" ==> Attempted(err)
    {
      var stmt;
      stmt, err := native.Prepare(ctx, query);
      if err == None {
        err := stmt.Close();
      }
    }

    method Close() returns (out: Option<Failure>)
      requires Valid()
      modifies this`native, this`activeTx, this`closed, core`native, core`txActive, core`tx,
               core.link`open, core.link`session, core.link`armed, core.link`lapses, if activeTx == null then {} else {activeTx}
      ensures Valid() && activeTx == null && Step(old(View()), Call.Close, out, View())
      ensures closed <==> old(closed) || (core.tx == null && core.children == 0)
      ensures if old(activeTx) == null then core.tx == old(core.tx)
              else Tracks(old(activeTx)) && (core.tx == old(core.tx) || core.tx == null)
    {
      hide SafeCore.Conn.Valid;
      if closed { return None; }
      ghost var a := View();
      var rollbackError := Abandon();
      ghost var c1 := core.View();
      var closeError := CloseCore();
      out := Join(rollbackError, closeError);
      assert CloseStep(a, View(), out);
    }

    /** Closes the core connection and lets go of it if that succeeded. */
    method CloseCore() returns (err: Option<Error>)
      requires Valid() && native != null && activeTx == null
      modifies this`native, this`closed, core`native, core.link`open
      ensures Valid() && CoreClose(old(core.View()), core.View(), err)
      ensures closed <==> core.tx == null && core.children == 0
      ensures View() == old(View()).(core := core.View(), held := err != None, closed := err == None)
    {
      err := native.Close();
      if err == None {
        native := null;
        closed := true;
      }
    }

    /** Rolls back an active transaction, and forgets it even when that failed. */
    method Abandon() returns (err: Option<Error>)
      requires Valid()
      modifies this`activeTx, core`txActive, core`tx, core.link`session, core.link`armed, core.link`lapses,
               if activeTx == null then {} else {activeTx}
      ensures Valid() && activeTx == null && AbandonActive(old(View()), core.View(), err)
      ensures old(activeTx) != null && core.children == 0 ==>
                SafeCore.Answered(err) && RolledBack(old(core.link.session), core.link.session, err)
      ensures if old(activeTx) == null then core.tx == old(core.tx)
              else Tracks(old(activeTx)) && (core.tx == old(core.tx) || core.tx == null)
    {
      err := None;
      if activeTx != null {
        var background := new Context.Background();
        err := activeTx.Finish(background, false);
        activeTx := null;
      }
    }

    /** `BeginTx`; `supported` says whether the options ask for neither read-only nor an isolation level. */
    method BeginTx(ctx: Context, supported: bool) returns (begun: Transaction?, out: Option<Failure>)
      requires Valid() && ctx.Valid()
      modifies ctx, this`activeTx, this`broken, core`txActive, core`tx,
               core.link`session, core.link`armed, core.link`lapses
      ensures Valid() && ctx.Valid() && Step(old(View()), Call.Begin, out, View())
      ensures begun != null <==> out == None
      ensures begun != null ==>
                && fresh(begun) && fresh(begun.native) && begun.connection == this && !begun.done && begun.Valid()
                && activeTx == core.tx == begun.native && old(core.tx) == null
                && begun.native.id == old(core.link.session.nextTx)
      ensures begun == null ==> activeTx == old(activeTx) && core.tx == old(core.tx)
      ensures out == Some(Rejected) <==> !supported
      ensures ctx.background && supported && old(Usable()) && Free(old(core.View())) ==> Served(out)
    {
      begun := null;
      if !supported { return null, Some(Rejected); }
      if !Usable() { return null, Some(BadConn); }
      if activeTx != null { return null, Some(Failed(Busy)); }
      var tx, err := native.Begin(ctx);
      if err.Some? {
        Observe(err.value);
        return null, Some(Failed(err.value));
      }
      activeTx := tx;
      begun := new Transaction(this, tx);
      out := None;
    }

    method Ping(ctx: Context) returns (out: Option<Failure>)
      requires Valid() && ctx.Valid()
      modifies ctx, this`broken, core.link`armed, core.link`lapses
      ensures Valid() && ctx.Valid() && Step(old(View()), Call.Ping, out, View())
      ensures out == None ==> !core.link.armed
      ensures ctx.background && old(Usable()) ==> Retried(out, broken)
    {
      hide SafeCore.Conn.Valid;
      if !Usable() { return Some(BadConn); }
      var err := native.Ping(ctx);
      if err.Some? {
        Observe(err.value);
        return Some(if broken then BadConn else Failed(err.value));
      }
      return None;
    }

    /** `ResetSession`; `cause` is the error that it hides behind driver.ErrBadConn. */
    method ResetSession(ctx: Context) returns (out: Option<Failure>, ghost cause: Option<Error>)
      requires Valid() && ctx.Valid()
      modifies ctx, this`activeTx, this`broken, core`txActive, core`tx,
               core.link`session, core.link`armed, core.link`lapses, if activeTx == null then {} else {activeTx}
      ensures Valid() && ctx.Valid() && Step(old(View()), Call.Reset, out, View())
      ensures activeTx == null || activeTx == old(activeTx)
      ensures ctx.background && old(Usable()) && core.children == 0 && (old(activeTx) == null ==> old(core.tx) == null) ==>
                (out.Some? <==> cause.Some?) && SafeCore.Answered(cause)
      ensures if old(activeTx) == null then core.tx == old(core.tx)
              else Tracks(old(activeTx)) && (core.tx == old(core.tx) || core.tx == null)
    {
      if closed || native == null || broken { return Some(BadConn), None; }
      ghost var a := View();
      var err := RollbackActive(ctx);
      ghost var c1 := core.View();
      if err.Some? {
        broken := true;
        out, cause := Some(BadConn), err;
      } else {
        out, cause := ResetDatabase(ctx);
      }
      assert AbandonActive(a, c1, err);
      assert ResetStep(a, View(), out);
    }

    /** Rolls back an active transaction, and forgets it if that succeeded. */
    method RollbackActive(ctx: Context) returns (err: Option<Error>)
      requires Valid() && ctx.Valid()
      modifies ctx, this`activeTx, core`txActive, core`tx, core.link`session, core.link`armed, core.link`lapses,
               if activeTx == null then {} else {activeTx}
      ensures Valid() && ctx.Valid() && AbandonActive(old(View()), core.View(), err)
      ensures ctx.background && core.children == 0 ==> SafeCore.Answered(err)
      ensures activeTx == if err == None then null else old(activeTx)
      ensures if old(activeTx) == null then core.tx == old(core.tx)
              else Tracks(old(activeTx)) && (core.tx == old(core.tx) || core.tx == null)
    {
      err := None;
      if activeTx != null {
        err := activeTx.Finish(ctx, false);
        if err == None {
          activeTx := null;
        }
      }
    }

    /** The part of `ResetSession` after an abandoned transaction is rolled back. */
    method ResetDatabase(ctx: Context) returns (out: Option<Failure>, ghost cause: Option<Error>)
      requires Valid() && ctx.Valid() && native != null && activeTx == null
      modifies ctx, this`broken, core.link`session, core.link`armed, core.link`lapses
      ensures Valid() && ctx.Valid() && ResetIdle(old(View()), View(), out)
      ensures (out.Some? <==> cause.Some?) && (ctx.background && Free(old(core.View())) ==> SafeCore.Answered(cause))
    {
      ghost var idle := View();
      var err := native.FinishImplicit(ctx, false);
      ghost var c2 := core.View();
      assert CoreFinishImplicit(idle.core, c2, false, false, err);
      if err.Some? && !NoDatabaseSelected(err.value) {
        broken := true;
        assert ResetIdle(idle, View(), Some(BadConn));
        return Some(BadConn), err;
      }
      var failed := native.SetDatabase(ctx, database);
      assert CoreSetDatabase(c2, core.View(), database, failed);
      if failed.Some? {
        broken := true;
        assert ResetIdle(idle, View(), Some(BadConn));
        return Some(BadConn), failed;
      }
      assert ResetIdle(idle, View(), None);
      return None, None;
    }

    /** Nothing is open on the connection, and the adapter knows of any transaction there is. */
    ghost predicate Admits(query: string)
      reads this`activeTx, core`children, core`tx
    {
      query != "" && core.children == 0 && (activeTx == null ==> core.tx == null)
    }

    /** `ExecContext`, with the automatic commit outside a transaction. */
    method Exec(ctx: Context, query: string, arguments: seq<NamedValue>)
      returns (result: SafeCore.Result, out: Option<Failure>)
      requires Valid() && ctx.Valid()
      modifies ctx, this`broken, core.link, core.link.heap, core.link.sdk
      ensures Valid() && ctx.Valid() && Step(old(View()), Call.Exec(query), out, View())
      ensures out == Some(Rejected) <==> !Convertible(arguments)
      ensures out == None ==> core.OwnMetrics(ctx, result) && Reached(Values(arguments))
      ensures ctx.background && old(Usable()) && Admits(query) && Convertible(arguments) ==> Served(out)
    {
      result := SafeCore.NO_RESULT;
      var values, ok := NamedValues(arguments);
      if !ok { return result, Some(Rejected); }
      if !Usable() { return result, Some(BadConn); }
      result, out := ExecUsable(ctx, query, values);
    }

    method ExecUsable(ctx: Context, query: string, values: seq<Value>)
      returns (result: SafeCore.Result, out: Option<Failure>)
      requires Valid() && ctx.Valid() && Usable()
      modifies ctx, this`broken, core.link, core.link.heap, core.link.sdk
      ensures Valid() && ctx.Valid() && ExecStep(old(View()), View(), query, out)
      ensures out != Some(Rejected) && (out == None ==> core.OwnMetrics(ctx, result) && Reached(values))
      ensures ctx.background && Admits(query) ==> Served(out)
    {
      hide SafeCore.Conn.Valid;
      ghost var a := View();
      var err;
      result, err := native.Exec(ctx, query, values);
      ghost var c1 := core.View();
      assert CoreExec(a.core, c1, query, err);
      if err.Some? {
        Observe(err.value);
        assert ExecStep(a, View(), query, Some(Failed(err.value)));
        return SafeCore.NO_RESULT, Some(Failed(err.value));
      }
      if activeTx == null {
        var failed := AutoCommit();
        if failed.Some? {
          Observe(failed.value);
          result := SafeCore.NO_RESULT;
          out := Some(Failed(failed.value));
        } else {
          out := None;
        }
        assert ExecStep(a, View(), query, out);
      } else {
        out := None;
        assert ExecStep(a, View(), query, out);
      }
    }

    /** The commit after an execution outside a transaction, which no cancellation reaches. */
    method AutoCommit() returns (err: Option<Error>)
      requires Valid() && native != null
      modifies core.link`session, core.link`armed, core.link`lapses
      ensures Valid() && CoreFinishImplicit(old(core.View()), core.View(), true, true, err)
      ensures core.tx == null && core.children == 0 ==> Attempted(err)
    {
      var background := new Context.Background();
      err := native.FinishImplicit(background, true);
    }

    /** `QueryContext`. */
    method Query(ctx: Context, query: string, arguments: seq<NamedValue>) returns (rows: Rows?, out: Option<Failure>)
      requires Valid() && ctx.Valid()
      modifies ctx, this`broken, core`children, core`rows, core`stmt, core.link
      ensures Valid() && ctx.Valid() && Step(old(View()), Call.Query(query), out, View())
      ensures rows != null <==> out == None
      ensures rows != null ==>
                && fresh(rows) && rows.connection == this && rows.native != null && rows.Valid()
                && core.rows == rows.native && fresh(core.rows) && fresh(core.rows.native) && old(core.rows) == null
                && (core.stmt != null ==> fresh(core.stmt) && fresh(core.stmt.native))
      ensures rows == null ==> core.rows == old(core.rows) && core.stmt == old(core.stmt)
      ensures out == Some(Rejected) <==> !Convertible(arguments)
      ensures rows != null ==> Reached(Values(arguments)) && (core.stmt == null <==> arguments == [])
      ensures ctx.background && old(Usable()) && old(core.children) == 0 && query != "" && Convertible(arguments) ==> Served(out)
    {
      rows := null;
      var values, ok := NamedValues(arguments);
      if !ok { return null, Some(Rejected); }
      if !Usable() { return null, Some(BadConn); }
      rows, out := QueryUsable(ctx, query, values);
    }

    method QueryUsable(ctx: Context, query: string, values: seq<Value>) returns (rows: Rows?, out: Option<Failure>)
      requires Valid() && ctx.Valid() && Usable()
      modifies ctx, this`broken, core`children, core`rows, core`stmt, core.link
      ensures Valid() && ctx.Valid() && QueryStep(old(View()), View(), query, out)
      ensures rows != null <==> out == None
      ensures rows != null ==>
                && fresh(rows) && rows.connection == this && rows.native != null && rows.Valid()
                && core.rows == rows.native && fresh(core.rows) && fresh(core.rows.native) && old(core.rows) == null
                && (core.stmt != null ==> fresh(core.stmt) && fresh(core.stmt.native))
      ensures rows == null ==> core.rows == old(core.rows) && core.stmt == old(core.stmt)
      ensures out != Some(Rejected) && (rows != null ==> Reached(values) && (core.stmt == null <==> values == []))
      ensures ctx.background && old(core.children) == 0 && query != "" ==> Served(out)
    {
      rows := null;
      ghost var a := View();
      var cursor, err := native.Query(ctx, query, values);
      assert CoreQuery(a.core, core.View(), query, err);
      if err.Some? {
        Observe(err.value);
        return null, Some(Failed(err.value));
      }
      rows := new Rows(this, cursor);
      out := None;
    }

    /** `finishTransaction`, called once for each driver.Tx. */
    method FinishTransaction(tx: SafeCore.Tx, broken: bool, clear: bool)
      requires Base() && (activeTx != null && !(activeTx == tx && clear) ==> core.tx == activeTx)
      requires activeTx != null && activeTx.id == tx.id ==> activeTx == tx
      requires tx.id < core.link.session.nextTx
      modifies this`activeTx, this`broken, this`ended
      ensures Valid() && ended == old(ended) + {tx.id}
      ensures View() == AdapterProtocol.FinishTransaction(old(View()).(ended := old(ended) + {tx.id}), tx.id, broken, clear)
    {
      if activeTx == tx && clear {
        activeTx := null;
      }
      if broken {
        this.broken := true;
      }
      ended := ended + {tx.id};
    }
  }

  // ---------------------------------------------------------------- the driver.Tx

  /** `transaction`. */
  class Transaction {
    const connection: Conn
    const native: SafeCore.Tx
    var done: bool

    constructor (connection: Conn, native: SafeCore.Tx)
      ensures this.connection == connection && this.native == native && !done
    {
      this.connection, this.native, done := connection, native, false;
    }

    /** What ties the driver.Tx to its connection. */
    ghost predicate Linked()
      reads native, connection`activeTx, connection.core`tx
    {
      && connection.Tracks(native)
      && (connection.activeTx != null && connection.activeTx.id == native.id ==> connection.activeTx == native)
    }

    ghost predicate Bound()
      reads native, connection`activeTx, connection.core`tx, connection.core.link`session
    {
      Linked() && native.id < connection.core.link.session.nextTx
    }

    ghost predicate Tied()
      reads *
    {
      connection.Valid() && Bound()
    }

    ghost predicate Valid()
      reads *
    {
      Tied() && (done <==> native.id in connection.ended)
    }

    /** `native.CommitContext` or `native.RollbackContext` under a background context. */
    method Complete(commit: bool) returns (err: Option<Error>)
      requires connection.Base() && Bound()
      modifies native, connection.core`txActive, connection.core`tx,
               connection.core.link`session, connection.core.link`armed, connection.core.link`lapses
      ensures connection.Base() && Bound()
      ensures CoreFinishTx(old(connection.core.View()), connection.core.View(), native.id, commit, err)
      ensures connection.core.tx == if err == None then null else old(connection.core.tx)
      ensures err == None ==> old(connection.core.tx) == native
      ensures !old(native.done) && connection.core.children == 0 ==>
                && SafeCore.Answered(err)
                && if commit then Committed(old(connection.core.link.session), connection.core.link.session, err)
                   else RolledBack(old(connection.core.link.session), connection.core.link.session, err)
      ensures err.Some? ==> native.done == old(native.done)
    {
      var background := new Context.Background();
      assert native.Valid();
      hide SafeCore.Conn.Valid;
      err := native.Finish(background, commit);
    }

    /** Of the transactions of the connection, this one alone may have ended. */
    twostate predicate TakesItsOwn()
      reads connection, connection.core`tx
    {
      && (connection.core.tx == old(connection.core.tx) || (connection.core.tx == null && old(connection.core.tx) == native))
      && (connection.activeTx == old(connection.activeTx) || connection.activeTx == null)
    }

    /** A failed commit is followed by a rollback, and always breaks the connection. */
    method Commit() returns (out: Option<Failure>)
      requires Valid()
      modifies this`done, connection`activeTx, connection`broken, connection`ended, native,
               connection.core`txActive, connection.core`tx,
               connection.core.link`session, connection.core.link`armed, connection.core.link`lapses
      ensures Valid() && done && TakesItsOwn() && connection.ended == old(connection.ended) + {native.id}
      ensures Step(old(connection.View()), Call.Commit(native.id), out, connection.View())
      ensures !old(done) && !old(native.done) && connection.core.children == 0 ==>
                connection.core.link.session.commits == old(connection.core.link.session.commits) + 1
    {
      if done { return Some(Failed(TxDone)); }
      done := true;
      out := Resolve();
    }

    /** What `Commit` does once. */
    method Resolve() returns (out: Option<Failure>)
      requires Tied()
      modifies connection`activeTx, connection`broken, connection`ended, native,
               connection.core`txActive, connection.core`tx,
               connection.core.link`session, connection.core.link`armed, connection.core.link`lapses
      ensures Tied() && TakesItsOwn() && connection.ended == old(connection.ended) + {native.id}
      ensures CommitStep(old(connection.View()), connection.View(), native.id, out)
      ensures !old(native.done) && connection.core.children == 0 ==>
                connection.core.link.session.commits == old(connection.core.link.session.commits) + 1
    {
      hide SafeCore.Conn.Valid, SafeCore.Tx.Valid;
      ghost var a, x := connection.View(), native.id;
      var err, rollbackError;
      ghost var c1;
      err, rollbackError, c1 := CommitOrRollback();
      connection.FinishTransaction(native, err.Some?, err == None || rollbackError == None);
      out := Join(err, rollbackError);
      assert CommitStep(a, connection.View(), x, out);
    }

    /** The commit, and after a failed one the rollback. */
    method CommitOrRollback() returns (err: Option<Error>, rollbackError: Option<Error>, ghost c1: Core)
      requires connection.Base() && Bound()
      modifies native, connection.core`txActive, connection.core`tx,
               connection.core.link`session, connection.core.link`armed, connection.core.link`lapses
      ensures connection.Base() && Bound()
      ensures CoreFinishTx(old(connection.core.View()), c1, native.id, true, err)
      ensures if err.Some? then CoreFinishTx(c1, connection.core.View(), native.id, false, rollbackError)
              else connection.core.View() == c1
      ensures connection.core.tx == if err == None || rollbackError == None then null else old(connection.core.tx)
      ensures err == None || rollbackError == None ==> old(connection.core.tx) == native
      ensures err == None ==> rollbackError == None
      ensures !old(native.done) && connection.core.children == 0 ==>
                && Committed(old(connection.core.link.session), c1.session, err)
                && (err.Some? ==> RolledBack(c1.session, connection.core.link.session, rollbackError))
                && SafeCore.Answered(err) && SafeCore.Answered(rollbackError)
    {
      rollbackError := None;
      err := Complete(true);
      c1 := connection.core.View();
      if err.Some? {
        rollbackError := Complete(false);
      }
    }

    method Rollback() returns (out: Option<Failure>)
      requires Valid()
      modifies this`done, connection`activeTx, connection`broken, connection`ended, native,
               connection.core`txActive, connection.core`tx,
               connection.core.link`session, connection.core.link`armed, connection.core.link`lapses
      ensures Valid() && done && TakesItsOwn() && connection.ended == old(connection.ended) + {native.id}
      ensures Step(old(connection.View()), Call.Rollback(native.id), out, connection.View())
      ensures out.Some? ==> out.value.Failed?
      ensures !old(done) && !old(native.done) && connection.core.children == 0 ==>
                var err := if out == None then None else Some(out.value.error);
                SafeCore.Answered(err) && RolledBack(old(connection.core.link.session), connection.core.link.session, err)
    {
      if done { return Some(Failed(TxDone)); }
      done := true;
      out := Undo();
    }

    /** What `Rollback` does once. */
    method Undo() returns (out: Option<Failure>)
      requires Tied()
      modifies connection`activeTx, connection`broken, connection`ended, native,
               connection.core`txActive, connection.core`tx,
               connection.core.link`session, connection.core.link`armed, connection.core.link`lapses
      ensures Tied() && TakesItsOwn() && connection.ended == old(connection.ended) + {native.id}
      ensures RollbackStep(old(connection.View()), connection.View(), native.id, out)
      ensures out.Some? ==> out.value.Failed?
      ensures !old(native.done) && connection.core.children == 0 ==>
                var err := if out == None then None else Some(out.value.error);
                SafeCore.Answered(err) && RolledBack(old(connection.core.link.session), connection.core.link.session, err)
    {
      hide SafeCore.Conn.Valid, SafeCore.Tx.Valid;
      ghost var a, x := connection.View(), native.id;
      var err := Complete(false);
      connection.FinishTransaction(native, err.Some?, err == None);
      out := if err == None then None else Some(Failed(err.value));
      assert RollbackStep(a, connection.View(), x, out);
    }
  }

  // ---------------------------------------------------------------- statements

  /** `stmt`: it keeps only the SQL text and goes back to the connection. */
  class Statement {
    const query: string
    var connection: Conn?
    var closed: bool

    constructor (connection: Conn, query: string)
      ensures this.connection == connection && this.query == query && !closed
    {
      this.connection, this.query, closed := connection, query, false;
    }

    method Close()
      modifies this
      ensures closed && connection == null
    {
      closed := true;
      connection := null;
    }

    method Exec(ctx: Context, arguments: seq<NamedValue>) returns (result: SafeCore.Result, out: Option<Failure>)
      requires ctx.Valid() && (connection != null ==> connection.Valid())
      modifies ctx, (if connection == null then {} else {connection})`broken,
               if connection == null then {} else {connection.core.link},
               if connection == null then {} else {connection.core.link.heap},
               if connection == null then {} else {connection.core.link.sdk}
      ensures ctx.Valid()
      ensures closed || connection == null ==> out == Some(Failed(Closed))
      ensures !closed && connection != null ==>
                && connection.Valid() && Step(old(connection.View()), Call.Exec(query), out, connection.View())
                && (out == Some(Rejected) <==> !Convertible(arguments))
                && (out == None ==> connection.core.OwnMetrics(ctx, result) && connection.Reached(Values(arguments)))
                && (ctx.background && old(connection.Usable()) && connection.Admits(query) && Convertible(arguments) ==>
                      Served(out))
    {
      if closed || connection == null { return SafeCore.NO_RESULT, Some(Failed(Closed)); }
      result, out := connection.Exec(ctx, query, arguments);
    }
  }

  // ---------------------------------------------------------------- rows

  /** `rows`. */
  class Rows {
    const connection: Conn
    const types: seq<int>
    var native: SafeCore.Rows?

    constructor (connection: Conn, native: SafeCore.Rows)
      ensures this.connection == connection && this.native == native && types == native.types
    {
      this.connection, this.native, types := connection, native, native.types;
    }

    /** An open adapter cursor is the live cursor of its connection, which takes its statement along when it closes. */
    ghost predicate Valid()
      reads *
    {
      && connection.Valid()
      && (native != null ==>
            && connection.core.rows == native && native.types == types
            && (connection.core.stmt != null ==> native.closeStmt))
    }

    ghost function Cells(): seq<seq<Cell>>
      requires Valid() && native != null
      reads *
    {
      native.native.cells
    }

    /** An error that the caller is told of has been observed. */
    twostate predicate Observed(new out: Option<Failure>)
      reads connection
    {
      && (out.Some? ==> out.value.Failed?)
      && connection.broken == (old(connection.broken) || TellsBreak(out))
    }

    /** A failure is the server's, the cursor's own error, or a column of the current row that does not convert. */
    ghost predicate Justified(out: Option<Failure>, isFloat: seq<BindGraph.Byte> -> bool)
      requires Valid() && native != null
      reads *
    {
      out.Some? ==>
        && out.value.Failed?
        && (|| out.value.error.Sdk?
            || native.err == Some(out.value.error)
            || (out.value.error == ScanFailed && 1 <= native.current <= native.total
                && Cursor.Unconverted(types, Cells()[native.current - 1], isFloat)))
    }

    /** `Next`; `isFloat` says which texts parse as floats. None is a delivered row, and `eof` is io.EOF. */
    method Next(destination: array<Cursor.Converted>, isFloat: seq<BindGraph.Byte> -> bool)
      returns (eof: bool, out: Option<Failure>)
      requires Valid()
      modifies destination, connection`broken,
               (if native == null then {} else {native})`current, (if native == null then {} else {native})`err,
               (if native == null then {} else native.Handle())`at,
               connection.core.link`armed, connection.core.link`lapses
      ensures Valid() && native == old(native)
      ensures native == null ==> eof && out == None
      ensures Step(old(connection.View()), NextRow, out, connection.View())
      ensures native != null && destination.Length == |types| ==>
                Cursor.Deliver(old(native.Position()), native.Position(), types, Cells(), isFloat,
                               if eof then Cursor.EndOfFile
                               else if out == None then Cursor.Row(destination[..]) else Cursor.Failure)
      ensures native != null && destination.Length == |types| ==> Justified(out, isFloat)
      ensures native != null && destination.Length != |types| ==> !eof && out == Some(Failed(ScanFailed))
    {
      hide SafeCore.Conn.Valid, Cursor.Deliver, Cursor.Unconverted;
      if native == null { return true, None; }
      if destination.Length != |types| { return false, Some(Failed(ScanFailed)); }
      eof, out := Deliver(destination, isFloat);
    }

    /** `Next` of an open cursor into a destination of the right size. */
    method Deliver(destination: array<Cursor.Converted>, isFloat: seq<BindGraph.Byte> -> bool)
      returns (eof: bool, out: Option<Failure>)
      requires Valid() && native != null && destination.Length == |types|
      modifies destination, connection`broken, native`current, native`err, native.Handle()`at,
               connection.core.link`armed, connection.core.link`lapses
      ensures Valid() && Observed(out)
      ensures Cursor.Deliver(old(native.Position()), native.Position(), types, Cells(), isFloat,
                             if eof then Cursor.EndOfFile
                             else if out == None then Cursor.Row(destination[..]) else Cursor.Failure)
      ensures Justified(out, isFloat)
    {
      hide Cursor.ConvertRow, Cursor.NextStep, Cursor.Unconverted;
      var background := new Context.Background();
      var more;
      more, out := Advance(background);
      if !more { return out == None, out; }
      eof := false;
      out := Fill(background, destination, isFloat);
    }

    /** The core `Next`, and its error if it has one. */
    method Advance(background: Context) returns (more: bool, out: Option<Failure>)
      requires Valid() && background.Valid() && background.background && native != null
      modifies background, connection`broken, native`current, native`err, native.Handle()`at,
               connection.core.link`armed, connection.core.link`lapses
      ensures Valid() && background.Valid() && Observed(out)
      ensures Cursor.NextStep(old(native.Position()), native.Position(), more, None)
      ensures more ==> out == None && 1 <= native.current <= native.total
      ensures !more ==> out == if native.err == None then None else Some(Failed(native.err.value))
    {
      more := native.Next(background);
      out := None;
      if !more && native.err.Some? {
        connection.Observe(native.err.value);
        out := Some(Failed(native.err.value));
      }
    }

    /** A converted column of the current row. */
    method Column(background: Context, index: int, isFloat: seq<BindGraph.Byte> -> bool)
      returns (value: Cursor.Converted, out: Option<Failure>)
      requires Valid() && background.Valid() && native != null && 0 <= index < |types|
      requires 1 <= native.current <= native.total
      modifies background, connection`broken, connection.core.link`armed, connection.core.link`lapses
      ensures Valid() && background.Valid() && Observed(out)
      ensures out == None ==>
                Cursor.DriverValue(types[index], Cells()[native.current - 1][index], isFloat) == Some(value)
      ensures background.background && out.Some? ==>
                || out.value.error.Sdk?
                || (out == Some(Failed(ScanFailed))
                    && Cursor.DriverValue(types[index], Cells()[native.current - 1][index], isFloat) == None)
    {
      value := Cursor.NilValue;
      var cell, err := native.Value(background, index + 1);
      if err.Some? {
        connection.Observe(err.value);
        return value, Some(Failed(err.value));
      }
      var converted := Cursor.DriverValue(types[index], cell, isFloat);
      if converted == None { return value, Some(Failed(ScanFailed)); }
      return converted.value, None;
    }

    /** Copies and converts the columns of the current row, stopping at the first failure. */
    method Fill(background: Context, destination: array<Cursor.Converted>, isFloat: seq<BindGraph.Byte> -> bool)
      returns (out: Option<Failure>)
      requires Valid() && background.Valid() && native != null && destination.Length == |types|
      requires 1 <= native.current <= native.total
      modifies background, destination, connection`broken, connection.core.link`armed, connection.core.link`lapses
      ensures Valid() && Observed(out)
      ensures out == None ==> Cursor.ConvertRow(types, Cells()[native.current - 1], isFloat) == Some(destination[..])
      ensures background.background ==> Justified(out, isFloat)
    {
      ghost var row := Cells()[native.current - 1];
      hide Cursor.ConvertRow, Cursor.DriverValue;
      Cursor.ConvertNone(types, row, isFloat);
      var index := 0;
      while index < destination.Length
        invariant 0 <= index <= destination.Length
        invariant Valid() && background.Valid() && native.native.cells == old(native.native.cells)
        invariant connection.broken == old(connection.broken)
        invariant Cursor.ConvertRow(types[..index], row[..index], isFloat) == Some(destination[..index])
      {
        var value, failed := Column(background, index, isFloat);
        if failed.Some? { return failed; }
        Cursor.ConvertNext(types, row, isFloat, index, destination[..index], value);
        destination[index] := value;
        assert destination[..index + 1] == destination[..index] + [value];
        index := index + 1;
      }
      assert types[..index] == types && row[..index] == row && destination[..index] == destination[..];
      return None;
    }

    method Close() returns (out: Option<Failure>)
      requires Valid()
      modifies this`native, connection`broken, connection.core`children, connection.core`rows, connection.core`stmt,
               connection.core.link`children, connection.core.link`handles,
               if native == null then {} else {native},
               if native == null || native.native == null then {} else {native.native},
               (if native == null then {} else native.ParentStmt())`rows,
               (if native == null then {} else native.ParentStmt())`native,
               (if native == null then {} else native.ParentStmt())`registered,
               if native == null || native.parentStmt == null || native.parentStmt.native == null then {}
               else {native.parentStmt.native}
      ensures Valid() && native == null
      ensures if old(native) == null then out == None && connection.View() == old(connection.View())
              else Step(old(connection.View()), CloseRows, out, connection.View())
      ensures old(native) != null ==> connection.core.rows == null && connection.core.stmt == null
    {
      if native == null { return None; }
      var err := native.Close();
      native := null;
      hide SafeCore.Conn.Valid;
      if err == None { return None; }
      connection.Observe(err.value);
      return Some(Failed(err.value));
    }
  }

  // ---------------------------------------------------------------- connecting

  /** `Connector.Connect`; opening the native connection may fail. */
  method Connect(ctx: Context, heap: BindGraph.Heap, database: string) returns (connection: Conn?, err: Option<Error>)
    requires ctx.Valid()
    modifies ctx
    ensures ctx.Valid() && (err == None <==> connection != null) && (ctx.background ==> SafeCore.Answered(err))
    ensures connection != null ==> fresh(connection) && connection.Valid() && Connected(connection.View())
    ensures connection != null ==>
              && connection.database == database && connection.activeTx == null
              && connection.core.stmt == null && connection.core.rows == null
              && fresh(connection.core) && fresh(connection.core.link) && fresh(connection.core.link.sdk)
              && connection.core.link.heap == heap
  {
    connection := null;
    err := ctx.Poll();
    if err.Some? { return; }
    var refused: bool := *;
    if refused {
      var e := AnySdkError();
      return null, Some(e);
    }
    var link := new NativeConn(heap);
    var core := new SafeCore.Conn(link);
    if database != "" {
      err := core.SetDatabase(ctx, database);
      if err.Some? {
        var _ := core.Close();
        return;
      }
    }
    connection := new Conn(core, database);
  }
}
