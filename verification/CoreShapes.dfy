/**
  The methods of the core, as changes of what a connection owns. They are the changes `Layers` proves of the operations of
  the concurrent step system, so the two descriptions of the core agree on them.
 */
module CoreShapes {
  import opened Basics
  import opened Errors
  import opened Parameters
  import opened Native
  import opened Interleaving
  import opened Layers
  import Cursor
  import BindGraph
  import SafeCore

  ghost function Owned(conn: SafeCore.Conn): Shape
    reads conn, conn.rows
  {
    Shape(conn.native != null, conn.tx != null, conn.stmt != null, conn.rows != null,
          conn.rows != null && conn.rows.parentStmt != null && conn.rows.closeStmt)
  }

  /** A call that returns nil had the effect of the operation; one that fails failed as the operation does. */
  predicate As(op: Op, ok: bool, a: Shape, b: Shape) { if ok then Done(op, a, b) else Failed(op, a, b) }

  // ---------------------------------------------------------------- the connection

  method Exec(conn: SafeCore.Conn, ctx: Context, query: string, args: seq<Value>) returns (err: Option<Error>)
    requires conn.Valid() && ctx.Valid()
    modifies ctx, conn.link, conn.link.heap, conn.link.sdk
    ensures conn.Valid() && As(RunConn(ConnExec), err == None, old(Owned(conn)), Owned(conn))
  {
    var result;
    result, err := conn.Exec(ctx, query, args);
  }

  method Prepare(conn: SafeCore.Conn, ctx: Context, query: string) returns (stmt: SafeCore.Stmt?, err: Option<Error>)
    requires conn.Valid() && ctx.Valid()
    modifies ctx, conn`children, conn`stmt,
             conn.link`children, conn.link`handles, conn.link`armed, conn.link`lapses, conn.link`prepared
    ensures conn.Valid() && As(RunConn(ConnPrepare), err == None, old(Owned(conn)), Owned(conn))
  {
    stmt, err := conn.Prepare(ctx, query);
  }

  method QueryPlain(conn: SafeCore.Conn, ctx: Context, query: string) returns (rows: SafeCore.Rows?, err: Option<Error>)
    requires conn.Valid() && ctx.Valid()
    modifies ctx, conn`children, conn`rows, conn.link
    ensures conn.Valid() && As(RunConn(ConnQuery), err == None, old(Owned(conn)), Owned(conn))
  {
    rows, err := conn.QueryPlain(ctx, query);
  }

  /** A query with arguments is a preparation, a query that closes its statement, and after a failure a close. */
  method QueryPrepared(conn: SafeCore.Conn, ctx: Context, query: string, args: seq<Value>)
    returns (rows: SafeCore.Rows?, err: Option<Error>)
    requires conn.Valid() && ctx.Valid()
    modifies ctx, conn`children, conn`rows, conn`stmt, conn.link
    ensures conn.Valid()
    ensures err == None ==>
              exists m: Shape, stmt: Interleaving.Id ::
                && Done(RunConn(ConnPrepare), old(Owned(conn)), m)
                && Done(RunStmt(stmt, StmtQuery(true)), m, Owned(conn))
    ensures err.Some? ==> Owned(conn) == old(Owned(conn))
  {
    ghost var a := Owned(conn);
    rows, err := conn.QueryPrepared(ctx, query, args);
    if err == None {
      assert Done(RunConn(ConnPrepare), a, a.(stmt := true));
      assert Done(RunStmt(0, StmtQuery(true)), a.(stmt := true), Owned(conn));
    }
  }

  /** Closing a closed connection is no operation. */
  method Close(conn: SafeCore.Conn) returns (err: Option<Error>)
    requires conn.Valid()
    modifies conn`native, conn.link`open
    ensures conn.Valid()
    ensures if old(conn.native) == null then err == None && Owned(conn) == old(Owned(conn))
            else As(RunConn(ConnClose), err == None, old(Owned(conn)), Owned(conn))
  {
    err := conn.Close();
  }

  method Ping(conn: SafeCore.Conn, ctx: Context) returns (err: Option<Error>)
    requires conn.Valid() && ctx.Valid()
    modifies ctx, conn.link`armed, conn.link`lapses
    ensures conn.Valid() && As(RunShared(true), err == None, old(Owned(conn)), Owned(conn))
  {
    err := conn.Ping(ctx);
  }

  method SetDatabase(conn: SafeCore.Conn, ctx: Context, name: string) returns (err: Option<Error>)
    requires conn.Valid() && ctx.Valid()
    modifies ctx, conn.link`session, conn.link`armed, conn.link`lapses
    ensures conn.Valid() && As(RunConn(ConnSetDatabase), err == None, old(Owned(conn)), Owned(conn))
  {
    err := conn.SetDatabase(ctx, name);
  }

  method Begin(conn: SafeCore.Conn, ctx: Context) returns (tx: SafeCore.Tx?, err: Option<Error>)
    requires conn.Valid() && ctx.Valid()
    modifies ctx, conn`txActive, conn`tx, conn.link`session, conn.link`armed, conn.link`lapses
    ensures conn.Valid() && As(RunConn(ConnBegin), err == None, old(Owned(conn)), Owned(conn))
  {
    tx, err := conn.Begin(ctx);
  }

  method FinishImplicit(conn: SafeCore.Conn, ctx: Context, commit: bool) returns (err: Option<Error>)
    requires conn.Valid() && ctx.Valid()
    modifies ctx, conn.link`session, conn.link`armed, conn.link`lapses
    ensures conn.Valid() && As(RunConn(ConnFinish(commit)), err == None, old(Owned(conn)), Owned(conn))
  {
    err := conn.FinishImplicit(ctx, commit);
  }

  method FinishTx(conn: SafeCore.Conn, tx: SafeCore.Tx, ctx: Context, commit: bool) returns (err: Option<Error>)
    requires conn.Valid() && tx.Valid() && !tx.done && tx.conn == conn && ctx.Valid()
    modifies ctx, tx, conn`txActive, conn`tx, conn.link`session, conn.link`armed, conn.link`lapses
    ensures conn.Valid() && As(RunTx(0, commit), err == None, old(Owned(conn)), Owned(conn))
  {
    err := tx.Finish(ctx, commit);
  }

  // ---------------------------------------------------------------- the statement

  method Bind(stmt: SafeCore.Stmt, index: int, value: Value) returns (err: Option<Error>)
    requires stmt.Valid()
    modifies if stmt.native == null then {} else {stmt.native}, stmt.conn.link`armed, stmt.conn.link`lapses
    ensures stmt.Valid() && As(RunStmt(0, StmtBind), err == None, old(Owned(stmt.conn)), Owned(stmt.conn))
  {
    err := stmt.Bind(index, value);
  }

  method ExecStmt(stmt: SafeCore.Stmt, ctx: Context) returns (err: Option<Error>)
    requires stmt.Valid() && ctx.Valid()
    modifies ctx, stmt.conn.link`session, stmt.conn.link`armed, stmt.conn.link`lapses, stmt.conn.link`failures,
             stmt.conn.link`affected, stmt.conn.link`lastId, stmt.conn.link`sent
    ensures stmt.Valid() && As(RunStmt(0, StmtExec), err == None, old(Owned(stmt.conn)), Owned(stmt.conn))
  {
    var result;
    result, err := stmt.Exec(ctx);
  }

  /** Closing a closed statement is no operation; the close of a live one without cursor is done whatever it reports. */
  method CloseStmt(stmt: SafeCore.Stmt) returns (err: Option<Error>)
    requires stmt.Valid()
    modifies stmt`native, stmt`registered, if stmt.native == null then {} else {stmt.native},
             stmt.conn`children, stmt.conn`stmt, stmt.conn.link`children, stmt.conn.link`handles
    ensures stmt.Valid()
    ensures if old(stmt.native) == null || old(stmt.rows) != 0 then Owned(stmt.conn) == old(Owned(stmt.conn))
            else Done(RunStmt(0, StmtClose), old(Owned(stmt.conn)), Owned(stmt.conn))
  {
    err := stmt.Close();
  }

  /** A failed query of a statement that goes with its cursor may have closed it, as an operation of its own. */
  method QueryStmt(stmt: SafeCore.Stmt, ctx: Context, close: bool) returns (rows: SafeCore.Rows?, err: Option<Error>)
    requires stmt.Valid() && ctx.Valid()
    modifies ctx, stmt`rows, stmt`native, stmt`registered, if stmt.native == null then {} else {stmt.native},
             stmt.conn`children, stmt.conn`stmt, stmt.conn`rows, stmt.conn.link`children, stmt.conn.link`handles,
             stmt.conn.link`session, stmt.conn.link`armed, stmt.conn.link`lapses, stmt.conn.link`failures,
             stmt.conn.link`affected, stmt.conn.link`lastId, stmt.conn.link`sent
    ensures stmt.Valid()
    ensures var a, b := old(Owned(stmt.conn)), Owned(stmt.conn);
            As(RunStmt(0, StmtQuery(close)), err == None, a, b) || (close && Done(RunStmt(0, StmtClose), a, b))
  {
    rows, err := stmt.Query(ctx, close);
  }

  method Reset(stmt: SafeCore.Stmt, ctx: Context) returns (err: Option<Error>)
    requires stmt.Valid() && ctx.Valid()
    modifies ctx, stmt`native, stmt`registered, if stmt.native == null then {} else {stmt.native},
             stmt.conn`children, stmt.conn`stmt, stmt.conn.link`children, stmt.conn.link`handles,
             stmt.conn.link`armed, stmt.conn.link`lapses, stmt.conn.link`prepared
    ensures stmt.Valid() && As(RunStmt(0, StmtReset), err == None, old(Owned(stmt.conn)), Owned(stmt.conn))
  {
    err := stmt.Reset(ctx);
  }

  // ---------------------------------------------------------------- the cursor

  method Next(conn: SafeCore.Conn, rows: SafeCore.Rows, ctx: Context) returns (more: bool)
    requires conn.Valid() && conn.rows == rows && rows.Live() && ctx.Valid()
    modifies ctx, rows`current, rows`err, rows.Handle()`at, rows.Link()`armed, rows.Link()`lapses
    ensures conn.Valid() && As(RunRows(0, false), more, old(Owned(conn)), Owned(conn))
  {
    more := rows.Next(ctx);
  }

  /** The close of an open cursor is done whatever it reports. */
  method CloseRows(conn: SafeCore.Conn, rows: SafeCore.Rows) returns (err: Option<Error>)
    requires conn.Valid() && conn.rows == rows
    modifies rows, rows.native, conn.link`children, conn.link`handles, conn`children, conn`rows, conn`stmt,
             rows.ParentStmt()`rows, rows.ParentStmt()`native, rows.ParentStmt()`registered,
             if rows.parentStmt == null || rows.parentStmt.native == null then {} else {rows.parentStmt.native}
    ensures conn.Valid() && Done(RunRows(0, true), old(Owned(conn)), Owned(conn))
  {
    err := rows.Close();
  }
}
