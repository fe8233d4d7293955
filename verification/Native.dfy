/**
  The native layer `internal/csdk` as the core uses it: connections, statements and cursors whose pointers
  are cleared by a close, and the child count that keeps a connection open while it has live handles.

  Environment assumptions are the contracts of the calls into the SDK: a call returns, with any result; a
  close destroys its handle whatever it reports. Each call is a method whose body picks any allowed outcome.
 */
module Native {
  import opened Basics
  import opened Errors
  import opened BindGraph
  import opened Parameters
  import opened NativeBind
  import opened Session
  import Cursor

  /** A context: alive, or done for good. A nil context is one that is done from the start. */
  class Context {
    const background: bool
    var done: Option<Error>

    constructor Background()
      ensures Valid() && background
    {
      background, done := true, None;
    }

    ghost predicate Valid()
      reads this
    {
      && (background ==> done == None)
      && (done.Some? ==> done.value.Canceled? || done.value.DeadlineExceeded? || done.value.InvalidArgument?)
    }

    /** The context as it is now. */
    method Poll() returns (err: Option<Error>)
      requires Valid()
      modifies this
      ensures Valid() && err == done
      ensures old(done).Some? ==> done == old(done)
    {
      var expired: bool := *;
      if expired && !background && done == None {
        var deadline: bool := *;
        done := Some(if deadline then DeadlineExceeded else Canceled);
      }
      return done;
    }

    /** `contextError`. A passed check clears the way for one native call on the connection. */
    method Error(ghost conn: NativeConn) returns (err: Option<Error>)
      requires Valid()
      modifies this, conn`armed
      ensures Valid() && err == done && conn.armed == (err == None)
      ensures old(done).Some? ==> done == old(done)
    {
      err := Poll();
      conn.armed := err == None;
    }
  }

  /** An SDK error of any code and kind. */
  method AnySdkError() returns (e: Error)
    ensures e.Sdk?
  {
    var code: int := *;
    var kind: Kind := *;
    return Sdk(code, kind);
  }

  /** The same for a rollback: no database is selected only when nothing is pending. */
  method AnyRollbackError(ghost idle: bool) returns (e: Error)
    ensures e.Sdk? && (NoDatabaseSelected(e) ==> idle)
  {
    e := AnySdkError();
    if e.code == NO_DATABASE_SELECTED {
      e := e.(code := 1);
    }
  }

  /** A cell as the SDK reports it: NULL or bytes. */
  type Cell = Option<seq<Byte>>

  /** A result set whose sizes fit a C int. */
  predicate IsTable(cells: seq<seq<Cell>>, types: seq<int>) {
    && |cells| < 0x8000_0000 && |types| < 0x8000_0000
    && forall i :: 0 <= i < |cells| ==> |cells[i]| == |types|
  }

  /** What a query returns. */
  method AnyTable() returns (cells: seq<seq<Cell>>, types: seq<int>)
    ensures IsTable(cells, types)
  {
    return [], [];
  }

  /** `csdk.Conn`. */
  class NativeConn {
    const heap: Heap
    const sdk: BindGraph.Sdk
    var open: bool                       // ptr != nil
    var children: int
    ghost var handles: set<object>       // live native statements and cursors
    ghost var session: Session
    ghost var armed: bool                // a context check has passed since the last native call
    ghost var lapses: nat                // native calls other than closes made without one
    ghost var failures: nat              // executions that reported an error
    ghost var sent: map<int, Param>      // parameters of the last execution that took any
    ghost var prepared: seq<string>      // texts of the successful preparations
    var affected: int                    // metrics of the last execution
    var lastId: int

    constructor (heap: Heap)
      ensures Valid() && open && handles == {} && session == NewSession() && this.heap == heap && lapses == 0
      ensures fresh(sdk)
    {
      this.heap := heap;
      sdk := new BindGraph.Sdk();
      open, children, affected, lastId := true, 0, 0, 0;
      handles, session, armed, lapses, failures, sent, prepared := {}, NewSession(), false, 0, 0, map[], [];
    }

    ghost predicate Valid()
      reads this`open, this`children, this`handles
    {
      && children == |handles|
      && (!open ==> handles == {})
    }

    /** The monitor of context checks after one more native call. */
    twostate predicate Counted()
      reads this
    {
      !armed && lapses == if old(armed) then old(lapses) else old(lapses) + 1
    }

    /** One execution was issued, and its outcome is the one reported. */
    twostate predicate ExecutedOnce(sql: string, new err: Option<Error>)
      reads this
    {
      && Executed(old(session), session, sql, err)
      && failures == old(failures) + if err.Some? then 1 else 0
    }

    twostate predicate SameHandles()
      reads this
    {
      open == old(open) && children == old(children) && handles == old(handles)
    }

    /** A native execution and what it may do to the session. */
    method Execute(sql: string, failed: bool)
      modifies this`session, this`armed, this`lapses, this`failures, this`affected, this`lastId
      ensures Counted() && failures == old(failures) + if failed then 1 else 0
      ensures if failed then Ran(old(session), session, sql, true) || Ran(old(session), session, sql, false)
              else Ran(old(session), session, sql, true)
    {
      ghost var applied: bool := *;
      session := session.(nextWork := session.nextWork + 1, executes := session.executes + 1,
        pending := session.pending + if applied || !failed then [Work(session.nextWork, sql, session.tx)] else []);
      failures := failures + if failed then 1 else 0;
      affected := *;
      lastId := *;
      lapses := if armed then lapses else lapses + 1;
      armed := false;
    }

    /** Any native call that leaves the session alone. */
    ghost method Touch()
      modifies this`armed, this`lapses
      ensures Counted()
    {
      lapses := if armed then lapses else lapses + 1;
      armed := false;
    }

    method Close() returns (err: Option<Error>)
      requires Valid()
      modifies this`open
      ensures Valid()
      ensures if old(open) && handles != {} then err == Some(Busy) && open else err == None && !open
    {
      if !open {
        return None;
      }
      if children != 0 {
        return Some(Busy);
      }
      open := false;
      return None;
    }

    method Exec(sql: string) returns (err: Option<Error>)
      requires Valid()
      modifies this`session, this`armed, this`lapses, this`failures, this`affected, this`lastId
      ensures Valid()
      ensures sql == "" ==> err == Some(InvalidArgument) && unchanged(this)
      ensures sql != "" && !open ==> err == Some(Closed) && unchanged(this)
      ensures sql != "" && open ==> Counted() && ExecutedOnce(sql, err)
    {
      if sql == "" {
        return Some(InvalidArgument);
      }
      if !open {
        return Some(Closed);
      }
      var failed: bool := *;
      Execute(sql, failed);
      if failed {
        var e := AnySdkError();
        return Some(e);
      }
      return None;
    }

    /** `ExecBind` with an open graph. */
    method ExecBind(sql: string, bind: GoBind) returns (err: Option<Error>)
      requires Valid() && bind.Valid() && bind.heap == heap && sql != "" && bind.ptr != null
      modifies this`session, this`armed, this`lapses, this`failures, this`affected, this`lastId, this`sent, heap, sdk
      ensures Valid() && bind.Valid()
      ensures heap.live == old(heap.live) && bind.ptr.Contents() == old(bind.ptr.Contents())
      ensures !open ==> err == Some(Closed) && unchanged(this)
      ensures open ==> Counted() && ExecutedOnce(sql, err)
      ensures open && err == None ==> sent == Numbered(MeanAll(bind.ptr.Contents())) && Unset !in bind.ptr.Contents()
    {
      if !open {
        return Some(Closed);
      }
      var result := bind.ptr.Execute(sdk);
      Execute(sql, result != OK);
      sent := Numbered(MeanAll(bind.ptr.Contents()));
      if result != OK {
        var e := AnySdkError();
        return Some(e);
      }
      return None;
    }

    /** A call that only reports success or failure: Ping. */
    method Ping() returns (err: Option<Error>)
      modifies this`armed, this`lapses
      ensures !open ==> err == Some(Closed) && unchanged(this)
      ensures open ==> Counted() && (err.Some? ==> err.value.Sdk?)
    {
      if !open {
        return Some(Closed);
      }
      Touch();
      var failed: bool := *;
      if failed {
        var e := AnySdkError();
        return Some(e);
      }
      return None;
    }

    method SetDatabase(name: string) returns (err: Option<Error>)
      modifies this`session, this`armed, this`lapses
      ensures !open ==> err == Some(Closed) && unchanged(this)
      ensures open ==> Counted() && DatabaseSet(old(session), session, name, err) && (err.Some? ==> err.value.Sdk?)
    {
      if !open {
        return Some(Closed);
      }
      Touch();
      ghost var applied: bool := *;
      var failed: bool := *;
      if applied || !failed {
        session := session.(database := name);
      }
      if failed {
        var e := AnySdkError();
        return Some(e);
      }
      return None;
    }

    method Begin() returns (err: Option<Error>)
      modifies this`session, this`armed, this`lapses
      ensures !open ==> err == Some(Closed) && unchanged(this)
      ensures open ==> Counted() && Began(old(session), session, err) && (err.Some? ==> err.value.Sdk?)
    {
      if !open {
        return Some(Closed);
      }
      Touch();
      var failed: bool := *;
      if failed {
        var e := AnySdkError();
        return Some(e);
      }
      session := session.(tx := Some(session.nextTx), nextTx := session.nextTx + 1);
      return None;
    }

    method Commit() returns (err: Option<Error>)
      modifies this`session, this`armed, this`lapses
      ensures !open ==> err == Some(Closed) && unchanged(this)
      ensures open ==> Counted() && Committed(old(session), session, err) && (err.Some? ==> err.value.Sdk?)
    {
      if !open {
        return Some(Closed);
      }
      Touch();
      ghost var applied: bool := *;
      var failed: bool := *;
      session := session.(commits := session.commits + 1);
      if applied || !failed {
        session := session.(committed := session.committed + session.pending, pending := []);
      }
      if failed {
        var e := AnySdkError();
        return Some(e);
      }
      session := session.(tx := None);
      return None;
    }

    method Rollback() returns (err: Option<Error>)
      modifies this`session, this`armed, this`lapses
      ensures !open ==> err == Some(Closed) && unchanged(this)
      ensures open ==> Counted() && RolledBack(old(session), session, err) && (err.Some? ==> err.value.Sdk?)
    {
      if !open {
        return Some(Closed);
      }
      Touch();
      ghost var applied: bool := *;
      var failed: bool := *;
      ghost var idle := session.pending == [];
      if applied || !failed {
        session := session.(dropped := session.dropped + session.pending, pending := []);
      }
      if failed {
        var e := AnyRollbackError(idle);
        return Some(e);
      }
      session := session.(tx := None);
      return None;
    }

    /** AffectedRows and LastInsertID, whose values belong to the last execution. */
    method Metric(last: bool) returns (value: int, err: Option<Error>)
      modifies this`armed, this`lapses
      ensures !open ==> err == Some(Closed) && unchanged(this)
      ensures open ==> Counted() && if err == None then value == (if last then lastId else affected) else err.value.Sdk?
    {
      if !open {
        return 0, Some(Closed);
      }
      Touch();
      var failed: bool := *;
      if failed {
        var e := AnySdkError();
        return 0, Some(e);
      }
      return if last then lastId else affected, None;
    }

    method Prepare(sql: string) returns (stmt: NativeStmt?, err: Option<Error>)
      requires Valid()
      modifies this`children, this`handles, this`armed, this`lapses, this`prepared
      ensures Valid() && (err == None <==> stmt != null)
      ensures prepared == old(prepared) + if stmt == null then [] else [sql]
      ensures sql == "" ==> err == Some(InvalidArgument) && unchanged(this)
      ensures sql != "" && !open ==> err == Some(Closed) && unchanged(this)
      ensures sql != "" && open ==> Counted() && (err.Some? ==> err.value.Sdk? && SameHandles())
      ensures stmt != null ==> fresh(stmt) && stmt.conn == this && stmt.Valid() && stmt.ptr && stmt.sql == sql && stmt.params == map[]
      ensures stmt != null ==> handles == old(handles) + {stmt} && children == old(children) + 1
    {
      if sql == "" {
        return null, Some(InvalidArgument);
      }
      if !open {
        return null, Some(Closed);
      }
      Touch();
      var failed: bool := *;
      if failed {
        var e := AnySdkError();
        return null, Some(e);
      }
      stmt := new NativeStmt(this, sql);
      prepared := prepared + [sql];
      children := children + 1;
      handles := handles + {stmt};
      return stmt, None;
    }

    method Query(sql: string) returns (rows: NativeRows?, err: Option<Error>)
      requires Valid()
      modifies this`children, this`handles, this`session, this`armed, this`lapses, this`failures, this`affected, this`lastId
      ensures Valid() && (err == None <==> rows != null)
      ensures sql == "" ==> err == Some(InvalidArgument) && unchanged(this)
      ensures sql != "" && !open ==> err == Some(Closed) && unchanged(this)
      ensures sql != "" && open ==> Counted() && ExecutedOnce(sql, err) && (err.Some? ==> SameHandles())
      ensures rows != null ==> fresh(rows) && rows.conn == this && rows.Valid() && rows.ptr
      ensures rows != null ==> handles == old(handles) + {rows} && children == old(children) + 1
    {
      if sql == "" {
        return null, Some(InvalidArgument);
      }
      if !open {
        return null, Some(Closed);
      }
      var failed: bool := *;
      Execute(sql, failed);
      if failed {
        var e := AnySdkError();
        return null, Some(e);
      }
      var cells, types := AnyTable();
      rows := new NativeRows(this, cells, types);
      children := children + 1;
      handles := handles + {rows};
      return rows, None;
    }
  }

  /** `csdk.Stmt`. */
  class NativeStmt {
    const conn: NativeConn
    const sql: string                    // the text its VM was prepared from
    var ptr: bool                        // ptr != nil
    ghost var params: map<int, Param>

    constructor (conn: NativeConn, sql: string)
      ensures this.conn == conn && this.sql == sql && ptr && params == map[]
    {
      this.conn, this.sql, ptr, params := conn, sql, true, map[];
    }

    ghost predicate Valid()
      reads this`ptr, conn`handles
    {
      ptr <==> this in conn.handles
    }

    /** Destroys the handle whatever it reports, and only once. */
    method Close() returns (err: Option<Error>)
      requires Valid() && conn.Valid()
      modifies this`ptr, conn`children, conn`handles
      ensures Valid() && conn.Valid() && !ptr
      ensures conn.handles == old(conn.handles) - {this}
      ensures conn.children == old(conn.children) - if old(ptr) then 1 else 0
      ensures !old(ptr) ==> err == None && conn.children == old(conn.children)
      ensures err.Some? ==> err.value.Sdk?
    {
      if !ptr {
        return None;
      }
      ptr := false;
      conn.children := conn.children - 1;
      conn.handles := conn.handles - {this};
      var failed: bool := *;
      if failed {
        var e := AnySdkError();
        return Some(e);
      }
      return None;
    }

    /** The binder `setPrepared` picks for a value. */
    method Set(index: int, value: Value) returns (err: Option<Error>)
      requires Valid() && conn.Valid()
      modifies this`params, conn`armed, conn`lapses
      ensures Valid() && conn.Valid()
      ensures old(conn.armed) ==> conn.lapses == old(conn.lapses)
      ensures !ptr || !conn.open ==> err.Some? && params == old(params)
      ensures err == None ==> Truncated(value) != Garbage && params == old(params)[CInt(index) := Truncated(value)]
      ensures err.Some? ==> params == old(params) && !err.value.Unsupported?
      ensures ptr && conn.open ==> Attempted(err)
    {
      if || value.OtherValue?
         || (value.DoubleValue? && !value.finite)
         || (index <= 0 && (value.TextValue? || value.BlobValue? || value.ZeroBlobValue?))
         || (value.ZeroBlobValue? && value.size < 0) {
        return Some(InvalidArgument);
      }
      if !ptr || !conn.open {
        return Some(Closed);
      }
      conn.Touch();
      var length := CInt(Length(value));
      if length < 0 || (value.BlobValue? && value.bytes != [] && length == 0) {
        var e := AnySdkError();
        return Some(e);
      }
      var failed: bool := *;
      if failed {
        var e := AnySdkError();
        return Some(e);
      }
      params := params[CInt(index) := Truncated(value)];
      return None;
    }

    method Exec() returns (err: Option<Error>)
      requires Valid() && conn.Valid()
      modifies conn`session, conn`armed, conn`lapses, conn`failures, conn`affected, conn`lastId, conn`sent
      ensures Valid() && conn.Valid()
      ensures !ptr || !conn.open ==> err == Some(Closed) && unchanged(conn)
      ensures ptr && conn.open ==> conn.Counted() && conn.ExecutedOnce(sql, err) && conn.sent == params
    {
      if !ptr || !conn.open {
        return Some(Closed);
      }
      var failed: bool := *;
      conn.Execute(sql, failed);
      conn.sent := params;
      if failed {
        var e := AnySdkError();
        return Some(e);
      }
      return None;
    }

    method Query() returns (rows: NativeRows?, err: Option<Error>)
      requires Valid() && conn.Valid() && sql != ""
      modifies conn`children, conn`handles, conn`session, conn`armed, conn`lapses, conn`failures, conn`affected, conn`lastId, conn`sent
      ensures Valid() && conn.Valid() && (err == None <==> rows != null)
      ensures !ptr || !conn.open ==> err == Some(Closed) && unchanged(conn)
      ensures ptr && conn.open ==> conn.Counted() && conn.ExecutedOnce(sql, err) && conn.sent == params
      ensures err.Some? ==> conn.SameHandles()
      ensures rows != null ==> fresh(rows) && rows.conn == conn && rows.Valid() && rows.ptr
      ensures rows != null ==> conn.handles == old(conn.handles) + {rows} && conn.children == old(conn.children) + 1
    {
      if !ptr || !conn.open {
        return null, Some(Closed);
      }
      rows, err := conn.Query(sql);
      conn.sent := params;
    }
  }

  /** `csdk.Rows`. */
  class NativeRows {
    const conn: NativeConn
    const cells: seq<seq<Cell>>
    const types: seq<int>
    var ptr: bool                        // ptr != nil
    var at: int                          // current_row

    constructor (conn: NativeConn, cells: seq<seq<Cell>>, types: seq<int>)
      requires IsTable(cells, types)
      ensures this.conn == conn && this.cells == cells && this.types == types && ptr
    {
      this.conn, this.cells, this.types, ptr, at := conn, cells, types, true, 1;
    }

    ghost predicate Valid()
      reads this`ptr, conn`handles
    {
      (ptr <==> this in conn.handles) && IsTable(cells, types)
    }

    method Close() returns (err: Option<Error>)
      requires Valid() && conn.Valid()
      modifies this`ptr, conn`children, conn`handles
      ensures Valid() && conn.Valid() && !ptr && err == None
      ensures conn.handles == old(conn.handles) - {this}
      ensures conn.children == old(conn.children) - if old(ptr) then 1 else 0
    {
      if !ptr {
        return None;
      }
      ptr := false;
      conn.children := conn.children - 1;
      conn.handles := conn.handles - {this};
      return None;
    }

    /** A call on an open cursor; it may fail without any effect. */
    method Call() returns (err: Option<Error>)
      modifies conn`armed, conn`lapses
      ensures !ptr || !conn.open ==> err == Some(Closed) && unchanged(conn)
      ensures ptr && conn.open ==> conn.Counted() && (err.Some? ==> err.value.Sdk?)
    {
      if !ptr || !conn.open {
        return Some(Closed);
      }
      conn.Touch();
      var failed: bool := *;
      if failed {
        var e := AnySdkError();
        return Some(e);
      }
      return None;
    }

    method NumRows() returns (count: nat, err: Option<Error>)
      modifies conn`armed, conn`lapses
      ensures !ptr || !conn.open ==> err == Some(Closed) && unchanged(conn)
      ensures ptr && conn.open ==> conn.Counted() && (err.Some? ==> err.value.Sdk?)
      ensures err == None ==> count == |cells|
    {
      err := Call();
      count := |cells|;
    }

    method NumColumns() returns (count: nat, err: Option<Error>)
      modifies conn`armed, conn`lapses
      ensures !ptr || !conn.open ==> err == Some(Closed) && unchanged(conn)
      ensures ptr && conn.open ==> conn.Counted() && (err.Some? ==> err.value.Sdk?)
      ensures err == None ==> count == |types|
    {
      err := Call();
      count := |types|;
    }

    method ColumnType(column: int) returns (kind: int, err: Option<Error>)
      requires 1 <= column <= |types|
      modifies conn`armed, conn`lapses
      ensures !ptr || !conn.open ==> err == Some(Closed) && unchanged(conn)
      ensures ptr && conn.open ==> conn.Counted() && (err.Some? ==> err.value.Sdk?)
      ensures err == None ==> kind == types[column - 1]
    {
      err := Call();
      kind := types[column - 1];
    }

    /** `cubesql_cursor_seek` of an open cursor, which moves only to a row. */
    method Seek(row: int) returns (err: Option<Error>)
      modifies this`at, conn`armed, conn`lapses
      ensures ptr && conn.open && row > 0 ==> conn.Counted()
      ensures err == None ==>
                && ptr && conn.open && row > 0
                && at == Cursor.SeekTarget(CInt(row), old(at), |cells|) && 1 <= at <= |cells|
      ensures err.Some? ==>
                && at == old(at)
                && err.value == if row > 0 && (!ptr || !conn.open) then Closed else InvalidArgument
    {
      if row <= 0 {
        return Some(InvalidArgument);
      }
      if !ptr || !conn.open {
        return Some(Closed);
      }
      conn.Touch();
      var target := Cursor.SeekTarget(CInt(row), at, |cells|);
      var failed: bool := *;
      if failed || target > |cells| || target <= 0 {
        return Some(InvalidArgument);
      }
      at := target;
      return None;
    }

    method Field(row: int, column: int) returns (cell: Cell, err: Option<Error>)
      requires 1 <= row <= |cells| && 1 <= column <= |types| && IsTable(cells, types)
      modifies conn`armed, conn`lapses
      ensures !ptr || !conn.open ==> err == Some(Closed) && unchanged(conn)
      ensures ptr && conn.open ==> conn.Counted() && (err.Some? ==> err.value.Sdk?)
      ensures err == None ==> cell == cells[row - 1][column - 1]
    {
      err := Call();
      cell := cells[row - 1][column - 1];
    }
  }
}
