/**
  The public core handles over the native layer, method by method.

  `Conn.Valid` is the ownership invariant: which statement, cursor and transaction are live, that both child
  counts agree with them, and that the native layer holds exactly their handles. Every method keeps it.
  Mutexes do not appear: interleavings of these methods are the subject of `Interleaving`.
 */
module SafeCore {
  import opened Basics
  import opened Errors
  import opened BindGraph
  import opened Parameters
  import opened NativeBind
  import opened Session
  import opened Native
  import Cursor

  datatype Result = Result(rowsAffected: int, lastInsertID: int, rowsError: Option<Error>, lastError: Option<Error>)

  /** The native layer was asked and gave this answer. */
  predicate Answered(err: Option<Error>) { err == None || err.value.Sdk? }

  const NO_RESULT := Result(0, 0, None, None)

  /** `resultForContext`: metric failures go into the Result. */
  method ResultFor(ctx: Context, native: NativeConn) returns (result: Result)
    requires ctx.Valid() && native.open
    modifies ctx, native`armed, native`lapses
    ensures ctx.Valid() && native.lapses == old(native.lapses)
    ensures result.rowsError == None ==> result.rowsAffected == native.affected
    ensures result.lastError == None ==> result.lastInsertID == native.lastId
    ensures ctx.background ==> Answered(result.rowsError) && Answered(result.lastError)
  {
    var err := ctx.Error(native);
    if err.Some? { return Result(0, 0, err, err); }
    var rowsAffected, rowsError := native.Metric(false);
    err := ctx.Error(native);
    if err.Some? { return Result(rowsAffected, 0, rowsError, err); }
    var lastInsertID, lastError := native.Metric(true);
    return Result(rowsAffected, lastInsertID, rowsError, lastError);
  }

  /** `newRowsContext`: an unpublished cursor, or an error with the native cursor closed. */
  method NewRows(ctx: Context, native: NativeRows) returns (rows: Rows?, err: Option<Error>)
    requires ctx.Valid() && native.Valid() && native.ptr && native.conn.Valid() && native.conn.open
    modifies ctx, native, native.conn`children, native.conn`handles, native.conn`armed, native.conn`lapses
    ensures ctx.Valid() && native.conn.Valid() && native.Valid() && native.conn.lapses == old(native.conn.lapses)
    ensures err == None <==> rows != null
    ensures ctx.background ==> Answered(err)
    ensures rows == null ==> !native.ptr && native.conn.handles == old(native.conn.handles) - {native}
    ensures native.conn.children == old(native.conn.children) - if rows == null then 1 else 0
    ensures rows != null ==>
              && fresh(rows) && rows.native == native && native.ptr && native.conn.handles == old(native.conn.handles)
              && rows.Described() && rows.parentConn == null && rows.parentStmt == null && !rows.closeStmt
  {
    rows := null;
    var total, count;
    total, count, err := Measure(ctx, native);
    if err.Some? {
      var _ := native.Close();
      return;
    }
    var built := new Rows(native, total);
    built.types := seq(count, _ => 0);
    var index := 1;
    while index <= count
      invariant 1 <= index <= count + 1
      invariant ctx.Valid() && native.conn.Valid() && native.Valid() && native.ptr
      invariant native.conn.lapses == old(native.conn.lapses)
      invariant native.conn.handles == old(native.conn.handles) && native.conn.children == old(native.conn.children)
      invariant built.native == native && built.parentConn == null && built.parentStmt == null && !built.closeStmt
      invariant built.total == total && built.current == 0 && |built.types| == count
      invariant forall i :: 0 <= i < index - 1 ==> built.types[i] == native.types[i]
    {
      var kind;
      kind, err := DescribeColumn(ctx, native, index);
      if err.Some? {
        var _ := built.Close();
        return;
      }
      built.types := built.types[index - 1 := kind];
      index := index + 1;
    }
    return built, None;
  }

  /** The row and column counts, each cleared by a context check. */
  method Measure(ctx: Context, native: NativeRows) returns (total: nat, count: nat, err: Option<Error>)
    requires ctx.Valid() && native.ptr && native.conn.open
    modifies ctx, native.conn`armed, native.conn`lapses
    ensures ctx.Valid() && native.conn.lapses == old(native.conn.lapses)
    ensures ctx.background ==> Answered(err)
    ensures err == None ==> total == |native.cells| && count == |native.types|
  {
    total, count := 0, 0;
    err := ctx.Error(native.conn);
    if err.Some? { return; }
    total, err := native.NumRows();
    if err.Some? { return; }
    err := ctx.Error(native.conn);
    if err.Some? { return; }
    count, err := native.NumColumns();
  }

  /** The name and type of a column, each cleared by a context check. */
  method DescribeColumn(ctx: Context, native: NativeRows, index: int) returns (kind: int, err: Option<Error>)
    requires ctx.Valid() && native.ptr && native.conn.open && 1 <= index <= |native.types|
    modifies ctx, native.conn`armed, native.conn`lapses
    ensures ctx.Valid() && native.conn.lapses == old(native.conn.lapses)
    ensures ctx.background ==> Answered(err)
    ensures err == None ==> kind == native.types[index - 1]
  {
    kind := 0;
    err := ctx.Error(native.conn);
    if err.Some? { return; }
    err := native.Call();                // ColumnName
    if err.Some? { return; }
    err := ctx.Error(native.conn);
    if err.Some? { return; }
    kind, err := native.ColumnType(index);
  }

  class Conn {
    const link: NativeConn               // the native connection, open or closed
    var native: NativeConn?
    var txActive: bool
    var children: int
    ghost var stmt: Stmt?                // the live statement
    ghost var rows: Rows?                // the live cursor
    ghost var tx: Tx?                    // the unfinished transaction

    /** `OpenContext`, once the native connection is open. */
    constructor (link: NativeConn)
      requires link.Valid() && link.open && link.children == 0 && link.session.tx == None
      ensures Valid() && this.link == link && native == link
      ensures stmt == null && rows == null && tx == null
    {
      this.link, native, txActive, children := link, link, false, 0;
      stmt, rows, tx := null, null, null;
    }

    ghost function StmtHandle(): set<NativeStmt>
      reads this, stmt
    {
      if stmt == null || stmt.native == null then {} else {stmt.native}
    }

    ghost function RowsHandle(): set<NativeRows>
      reads this, rows
    {
      if rows == null || rows.native == null then {} else {rows.native}
    }

    /** The native handles of the live statement and cursor. */
    ghost function Natives(): set<object>
      reads this, stmt, rows
    {
      (if stmt == null || stmt.native == null then {} else {stmt.native})
      + (if rows == null || rows.native == null then {} else {rows.native})
    }

    ghost predicate StmtOk()
      reads this, link`handles, stmt, rows, StmtHandle()`ptr
    {
      stmt != null ==>
        && stmt.conn == this && stmt.registered && stmt.queryText != ""
        && stmt.native != null && stmt.native.conn == link && stmt.native.sql == stmt.queryText && stmt.native.Valid() && stmt.native.ptr
        && stmt.rows == if rows == null then 0 else 1
    }

    ghost predicate RowsOk()
      reads this, link`handles, stmt, rows, RowsHandle()`ptr
    {
      rows != null ==>
        && rows.parentConn == this && rows.parentStmt == stmt && (stmt == null ==> !rows.closeStmt)
        && rows.native != null && rows.native.conn == link && rows.native.Valid() && rows.native.ptr
        && rows.Described()
    }

    ghost predicate TxOk()
      reads this, link`session, tx
    {
      && (txActive <==> tx != null)
      && (tx != null ==> tx.conn == this && !tx.done)
      && link.session.tx == if tx == null then None else Some(tx.id)
    }

    ghost predicate Valid()
      reads this, link`open, link`children, link`handles, link`session, stmt, rows, tx, StmtHandle()`ptr, RowsHandle()`ptr
    {
      && link.Valid()
      && native == (if link.open then link else null)
      && StmtOk() && RowsOk() && TxOk()
      && children == (if stmt == null then 0 else 1) + (if rows == null then 0 else 1)
      && link.children == children
      && (!link.open ==> tx == null)
    }

    /** As `Valid`, but the cursor has already closed its native handle. */
    ghost predicate Orphaned()
      reads this, link`open, link`children, link`handles, link`session, stmt, rows, tx, StmtHandle()`ptr
    {
      && link.Valid()
      && native == (if link.open then link else null)
      && StmtOk() && rows != null && TxOk()
      && children == (if stmt == null then 0 else 1) + 1
      && link.children == children - 1
      && (!link.open ==> tx == null)
    }

    ghost function View(): Core
      reads this, link`session
    {
      Core(native != null, if children >= 0 then children else 0, link.session)
    }

    /** The live handles and the transaction are the same as before. */
    twostate predicate SameOwned()
      reads this
    {
      stmt == old(stmt) && rows == old(rows) && tx == old(tx) && native == old(native)
      && txActive == old(txActive) && children == old(children)
    }

    method Close() returns (err: Option<Error>)
      requires Valid()
      modifies this`native, link`open
      ensures Valid() && CoreClose(old(View()), View(), err)
      ensures err == None <==> old(native) == null || (!txActive && children == 0)
    {
      if native == null {
        return None;
      }
      if txActive || children != 0 {
        return Some(Busy);
      }
      err := native.Close();
      if err.Some? {
        return err;
      }
      native := null;
      return None;
    }

    /** `PingContext`, which open children do not stop. */
    method Ping(ctx: Context) returns (err: Option<Error>)
      requires Valid() && ctx.Valid()
      modifies ctx, link`armed, link`lapses
      ensures Valid() && ctx.Valid() && link.lapses == old(link.lapses)
      ensures err == None ==> native != null && !link.armed
      ensures ctx.background && native != null ==> Answered(err)
    {
      err := ctx.Error(link);
      if err.Some? { return; }
      if native == null { return Some(Closed); }
      err := ctx.Error(link);
      if err.Some? { return; }
      err := native.Ping();
    }

    /** `SetDatabaseContext`. */
    method SetDatabase(ctx: Context, name: string) returns (err: Option<Error>)
      requires Valid() && ctx.Valid()
      modifies ctx, link`session, link`armed, link`lapses
      ensures Valid() && ctx.Valid() && CoreSetDatabase(old(View()), View(), name, err)
      ensures ctx.background && Free(old(View())) ==> Answered(err)
      ensures link.lapses == old(link.lapses)
    {
      err := ctx.Error(link);
      if err.Some? { return; }
      if native == null { return Some(Closed); }
      if txActive || children != 0 { return Some(Busy); }
      err := ctx.Error(link);
      if err.Some? { return; }
      err := native.SetDatabase(name);
    }

    /** `BeginContext`. */
    method Begin(ctx: Context) returns (begun: Tx?, err: Option<Error>)
      requires Valid() && ctx.Valid()
      modifies ctx, this`txActive, this`tx, link`session, link`armed, link`lapses
      ensures Valid() && ctx.Valid() && CoreBegin(old(View()), View(), err)
      ensures ctx.background && Free(old(View())) ==> Answered(err)
      ensures err == None <==> begun != null
      ensures begun != null ==> fresh(begun) && tx == begun && begun.id == old(link.session.nextTx)
      ensures err.Some? ==> tx == old(tx)
      ensures stmt == old(stmt) && rows == old(rows) && native == old(native)
      ensures link.lapses == old(link.lapses)
    {
      begun := null;
      err := ctx.Error(link);
      if err.Some? { return; }
      if native == null { return null, Some(Closed); }
      if txActive || children != 0 { return null, Some(Busy); }
      err := ctx.Error(link);
      if err.Some? { return; }
      ghost var id := link.session.nextTx;
      err := native.Begin();
      if err.Some? { return; }
      txActive := true;
      begun := new Tx(this, id);
      tx := begun;
    }

    /** `finishImplicit`: CommitContext and RollbackContext without a Tx. */
    method FinishImplicit(ctx: Context, commit: bool) returns (err: Option<Error>)
      requires Valid() && ctx.Valid()
      modifies ctx, link`session, link`armed, link`lapses
      ensures Valid() && ctx.Valid() && CoreFinishImplicit(old(View()), View(), commit, ctx.background, err)
      ensures ctx.background && Free(old(View())) ==> Answered(err)
      ensures link.lapses == old(link.lapses)
    {
      err := ctx.Error(link);
      if err.Some? { return; }
      if native == null { return Some(Closed); }
      if txActive { return Some(Busy); }
      if children != 0 { return Some(Busy); }
      err := ctx.Error(link);
      if err.Some? { return; }
      if commit {
        err := native.Commit();
      } else {
        err := native.Rollback();
      }
    }

    /** At most one native execution, cleared by a context check, whose outcome is the one reported. */
    twostate predicate RanOrNot(sql: string, new err: Option<Error>)
      reads link`session, link`lapses, link`failures
    {
      && (|| Executed(old(link.session), link.session, sql, err)
          || (err.Some? && link.session == old(link.session)))
      && link.lapses == old(link.lapses)
      && (link.session.executes != old(link.session.executes) ==> (err.Some? <==> link.failures > old(link.failures)))
    }

    /** What is promised about the metrics of a Result. */
    ghost predicate OwnMetrics(ctx: Context, result: Result)
      reads link`affected, link`lastId
    {
      && (result.rowsError == None ==> result.rowsAffected == link.affected)
      && (result.lastError == None ==> result.lastInsertID == link.lastId)
      && (ctx.background ==> Answered(result.rowsError) && Answered(result.lastError))
    }

    /** Execution without arguments. */
    method ExecPlain(ctx: Context, query: string) returns (result: Result, err: Option<Error>)
      requires link.Valid() && link.open && link.armed && ctx.Valid() && query != ""
      modifies ctx, link`session, link`armed, link`lapses, link`failures, link`affected, link`lastId
      ensures link.Valid() && ctx.Valid() && RanOrNot(query, err)
      ensures err == None ==> OwnMetrics(ctx, result)
      ensures err != Some(Unsupported) && link.session.executes == old(link.session.executes) + 1
    {
      result := NO_RESULT;
      err := link.Exec(query);
      if err.Some? { return; }
      result := ResultFor(ctx, link);
    }

    /** Execution through a temporary prepared statement, for argument lists with an empty byte slice. */
    method ExecPrepared(ctx: Context, query: string, args: seq<Value>) returns (result: Result, err: Option<Error>)
      requires link.Valid() && link.open && link.armed && ctx.Valid() && query != ""
      modifies ctx, link`children, link`handles, link`prepared,
               link`session, link`armed, link`lapses, link`failures, link`affected, link`lastId, link`sent
      ensures link.Valid() && ctx.Valid() && RanOrNot(query, err) && link.SameHandles()
      ensures err == None ==> OwnMetrics(ctx, result)
      ensures err != Some(Unsupported) && (ctx.background ==> Attempted(err))
      ensures err == None && |args| < 0x8000_0000 ==> link.sent == Numbered(TruncateAll(args))
    {
      result := NO_RESULT;
      var temporary;
      temporary, err := link.Prepare(query);
      if err.Some? { return; }
      result, err := ExecTemporary(ctx, query, args, temporary);
      var _ := temporary.Close();
    }

    /** Binds the arguments of a temporary statement in order. */
    method SetAll(ctx: Context, args: seq<Value>, temporary: NativeStmt) returns (err: Option<Error>)
      requires ctx.Valid() && link.Valid() && temporary.conn == link && temporary.Valid() && temporary.params == map[]
      modifies ctx, temporary`params, link`armed, link`lapses
      ensures ctx.Valid() && link.Valid() && temporary.Valid() && link.lapses == old(link.lapses)
      ensures err != Some(Unsupported) && (ctx.background && link.open && temporary.ptr ==> Attempted(err))
      ensures err == None && |args| < 0x8000_0000 ==> temporary.params == Numbered(TruncateAll(args))
    {
      var index := 0;
      while index < |args|
        invariant 0 <= index <= |args|
        invariant ctx.Valid() && link.Valid() && temporary.Valid() && link.lapses == old(link.lapses)
        invariant |args| < 0x8000_0000 ==> temporary.params == Numbered(TruncateAll(args[..index]))
      {
        err := ctx.Error(link);
        if err.Some? { return; }
        err := temporary.Set(index + 1, args[index]);
        if err.Some? { return; }
        NumberedNext(args, index);
        index := index + 1;
      }
      assert args[..|args|] == args;
      err := None;
    }

    /** The part of the prepared path before its deferred close. */
    method ExecTemporary(ctx: Context, query: string, args: seq<Value>, temporary: NativeStmt)
      returns (result: Result, err: Option<Error>)
      requires ctx.Valid() && link.Valid() && link.open && temporary.conn == link && temporary.Valid() && temporary.ptr
      requires temporary.params == map[] && temporary.sql == query
      modifies ctx, temporary`params,
               link`session, link`armed, link`lapses, link`failures, link`affected, link`lastId, link`sent
      ensures ctx.Valid() && link.Valid() && temporary.Valid()
      ensures RanOrNot(query, err)
      ensures err == None ==> OwnMetrics(ctx, result)
      ensures err != Some(Unsupported) && (ctx.background ==> Attempted(err))
      ensures err == None && |args| < 0x8000_0000 ==> link.sent == Numbered(TruncateAll(args))
    {
      result := NO_RESULT;
      err := SetAll(ctx, args, temporary);
      if err.Some? { return; }
      err := ctx.Error(link);
      if err.Some? { return; }
      err := temporary.Exec();
      if err.Some? { return; }
      result := ResultFor(ctx, link);
    }

    /** Execution through a one-shot bind graph, which is freed whatever happens. */
    method ExecBound(ctx: Context, query: string, args: seq<Value>) returns (result: Result, err: Option<Error>)
      requires link.Valid() && link.open && link.armed && ctx.Valid() && query != "" && args != []
      requires forall i :: 0 <= i < |args| ==> !EmptyBlob(args[i])
      modifies ctx, link.heap, link.sdk, link`session, link`armed, link`lapses, link`failures, link`affected, link`lastId, link`sent
      ensures link.Valid() && ctx.Valid() && RanOrNot(query, err)
      ensures err == None ==> OwnMetrics(ctx, result) && link.sent == Numbered(TruncateAll(args))
      ensures err == Some(Unsupported) ==> exists i :: 0 <= i < |args| && args[i].ZeroBlobValue?
      ensures err == None ==> forall i :: 0 <= i < |args| ==> !args[i].ZeroBlobValue?
      ensures ctx.background ==> Attempted(err)
      ensures link.heap.live == old(link.heap.live)
    {
      hide Bind.Valid, Bind.Contents, Bind.Footprint, MeanAll, TruncateAll, Numbered;
      result := NO_RESULT;
      var bind;
      bind, err := NewGoBind(link.heap, |args|);
      if err.Some? { return; }
      result, err := ExecOnce(ctx, query, args, bind);
    }

    /** The life of a one-shot graph after it is made, up to the deferred close. */
    method ExecOnce(ctx: Context, query: string, args: seq<Value>, bind: GoBind) returns (result: Result, err: Option<Error>)
      requires link.Valid() && link.open && ctx.Valid() && query != ""
      requires bind.Valid() && bind.heap == link.heap && bind.ptr != null && bind.ptr.count == CInt(|args|)
      requires forall i :: 0 <= i < |args| ==> !EmptyBlob(args[i])
      modifies ctx, bind, link.heap, link.sdk, GoBind.Parts(bind.ptr),
               link`session, link`armed, link`lapses, link`failures, link`affected, link`lastId, link`sent
      ensures link.Valid() && ctx.Valid() && RanOrNot(query, err)
      ensures err == None ==> OwnMetrics(ctx, result) && link.sent == Numbered(TruncateAll(args))
      ensures err == Some(Unsupported) ==> exists i :: 0 <= i < |args| && args[i].ZeroBlobValue?
      ensures err == None ==> forall i :: 0 <= i < |args| ==> !args[i].ZeroBlobValue?
      ensures ctx.background ==> Attempted(err)
      ensures link.heap.live == old(link.heap.live - bind.ptr.Footprint())
    {
      assert bind !in GoBind.Parts(bind.ptr);
      hide GoBind.Parts, GoBind.Valid, Bind.Valid, Bind.Contents, Bind.Footprint, MeanAll, TruncateAll, Numbered;
      result, err := ExecGraph(ctx, query, args, bind);
      bind.Close();
    }

    /** The one-shot path between the making of its graph and the deferred close. */
    method ExecGraph(ctx: Context, query: string, args: seq<Value>, bind: GoBind)
      returns (result: Result, err: Option<Error>)
      requires link.Valid() && link.open && ctx.Valid() && query != ""
      requires bind.Valid() && bind.heap == link.heap && bind.ptr != null && bind.ptr.count == CInt(|args|)
      requires forall i :: 0 <= i < |args| ==> !EmptyBlob(args[i])
      modifies ctx, link.heap, link.sdk, GoBind.Parts(bind.ptr),
               link`session, link`armed, link`lapses, link`failures, link`affected, link`lastId, link`sent
      ensures link.Valid() && ctx.Valid() && bind.Valid() && RanOrNot(query, err)
      ensures err == None ==> OwnMetrics(ctx, result) && link.sent == Numbered(TruncateAll(args))
      ensures err == Some(Unsupported) ==> exists i :: 0 <= i < |args| && args[i].ZeroBlobValue?
      ensures err == None ==> forall i :: 0 <= i < |args| ==> !args[i].ZeroBlobValue?
      ensures ctx.background ==> Attempted(err)
      ensures link.heap.live - bind.ptr.Footprint() == old(link.heap.live - bind.ptr.Footprint())
    {
      ghost var parts := GoBind.Parts(bind.ptr);
      assert link !in parts && bind !in parts && ctx !in parts;
      hide GoBind.Parts, GoBind.Valid, Bind.Valid, Bind.Contents, Bind.Footprint, MeanAll, TruncateAll, Numbered;
      result := NO_RESULT;
      err := FillAll(ctx, args, bind);
      if err.Some? { return; }
      ghost var footprint := bind.ptr.Footprint();
      result, err := Send(ctx, query, bind);
      assert bind.ptr.Footprint() == footprint;
    }

    /** The execution of a filled graph. */
    method Send(ctx: Context, query: string, bind: GoBind) returns (result: Result, err: Option<Error>)
      requires ctx.Valid() && link.Valid() && link.open && query != ""
      requires bind.Valid() && bind.heap == link.heap && bind.ptr != null
      modifies ctx, link.heap, link.sdk, link`session, link`armed, link`lapses, link`failures, link`affected, link`lastId, link`sent
      ensures ctx.Valid() && link.Valid() && bind.Valid() && RanOrNot(query, err)
      ensures err == None ==> OwnMetrics(ctx, result) && link.sent == Numbered(MeanAll(bind.ptr.Contents()))
      ensures err != Some(Unsupported) && (ctx.background ==> Attempted(err))
      ensures link.heap.live == old(link.heap.live) && bind.ptr.Contents() == old(bind.ptr.Contents())
      ensures bind.ptr.Footprint() == old(bind.ptr.Footprint())
    {
      hide Bind.Valid, Bind.Contents, Bind.Footprint;
      result := NO_RESULT;
      err := ctx.Error(link);
      if err.Some? { return; }
      err := link.ExecBind(query, bind);
      if err.Some? { return; }
      result := ResultFor(ctx, link);
    }

    /** A context check, then one slot. */
    method FillOne(ctx: Context, index: int, value: Value, bind: GoBind) returns (err: Option<Error>)
      requires ctx.Valid() && bind.Valid() && bind.heap == link.heap && bind.ptr != null
      modifies ctx, link.heap, GoBind.Parts(bind.ptr), link`armed
      ensures ctx.Valid() && bind.Valid()
      ensures link.heap.live - bind.ptr.Footprint() == old(link.heap.live - bind.ptr.Footprint())
      ensures err == None ==>
                && 0 < CInt(index) <= bind.ptr.count && SlotFor(value) != Unset
                && bind.ptr.Contents() == old(bind.ptr.Contents())[CInt(index) - 1 := SlotFor(value)]
      ensures err == Some(Unsupported) ==> EmptyBlob(value) || value.ZeroBlobValue?
      ensures err == None ==> !value.ZeroBlobValue?
      ensures ctx.background ==> Attempted(err)
    {
      hide Bind.Valid, Bind.Contents, Bind.Footprint, SlotFor;
      err := ctx.Error(link);
      if err.Some? { return; }
      err := bind.Set(index, value);
      if err == None { SlotMeansArgument(value); }
    }

    /** Fills the slots of a one-shot graph in order. */
    method FillAll(ctx: Context, args: seq<Value>, bind: GoBind) returns (err: Option<Error>)
      requires ctx.Valid() && bind.Valid() && bind.heap == link.heap && bind.ptr != null && bind.ptr.count == CInt(|args|)
      requires forall i :: 0 <= i < |args| ==> !EmptyBlob(args[i])
      modifies ctx, link.heap, GoBind.Parts(bind.ptr), link`armed
      ensures ctx.Valid() && bind.Valid()
      ensures err == None ==> MeanAll(bind.ptr.Contents()) == TruncateAll(args)
      ensures err == Some(Unsupported) ==> exists i :: 0 <= i < |args| && args[i].ZeroBlobValue?
      ensures err == None ==> forall i :: 0 <= i < |args| ==> !args[i].ZeroBlobValue?
      ensures ctx.background ==> Attempted(err)
      ensures link.heap.live - bind.ptr.Footprint() == old(link.heap.live - bind.ptr.Footprint())
    {
      assert bind.ptr.count > 0 && |bind.ptr.Contents()| == bind.ptr.count;
      assert bind !in GoBind.Parts(bind.ptr);
      hide GoBind.Parts, GoBind.Valid, Bind.Valid, Bind.Contents, Bind.Footprint, Truncated, SlotFor, MeanAll, TruncateAll;
      hide Filled, EmptyBlob;
      NoneFilled(bind.ptr.Contents(), args);
      var index := 0;
      while index < |args|
        invariant 0 <= index <= |args| && index <= bind.ptr.count
        invariant ctx.Valid() && bind.Valid()
        invariant link.heap.live - bind.ptr.Footprint() == old(link.heap.live - bind.ptr.Footprint())
        invariant forall i :: 0 <= i < index ==> !args[i].ZeroBlobValue?
        invariant |bind.ptr.Contents()| == bind.ptr.count && Filled(bind.ptr.Contents(), args, index)
      {
        ghost var slots := bind.ptr.Contents();
        err := FillOne(ctx, index + 1, args[index], bind);
        if err.Some? { return; }
        FilledNext(slots, args, index);
        index := index + 1;
      }
      SlotsMeanArguments(bind.ptr.Contents(), args);
      err := None;
    }

    /** `hasEmptyBlob`. */
    static method HasEmptyBlob(args: seq<Value>) returns (found: bool)
      ensures found <==> exists i :: 0 <= i < |args| && EmptyBlob(args[i])
    {
      for index := 0 to |args|
        invariant forall i :: 0 <= i < index ==> !EmptyBlob(args[i])
      {
        if args[index].BlobValue? && |args[index].bytes| == 0 {
          assert EmptyBlob(args[index]);
          return true;
        }
      }
      return false;
    }

    /** The three execution paths. */
    method ExecNative(ctx: Context, query: string, args: seq<Value>) returns (result: Result, err: Option<Error>)
      requires link.Valid() && link.open && link.armed && ctx.Valid() && query != ""
      modifies ctx, link.heap, link.sdk, link`children, link`handles, link`prepared,
               link`session, link`armed, link`lapses, link`failures, link`affected, link`lastId, link`sent
      ensures link.Valid() && ctx.Valid() && RanOrNot(query, err) && link.SameHandles()
      ensures err == None ==> OwnMetrics(ctx, result)
      ensures args == [] ==> link.session.executes == old(link.session.executes) + 1
      ensures err == None && args != [] && |args| < 0x8000_0000 ==> link.sent == Numbered(TruncateAll(args))
      ensures err == Some(Unsupported) ==>
                (exists i :: 0 <= i < |args| && args[i].ZeroBlobValue?) && forall i :: 0 <= i < |args| ==> !EmptyBlob(args[i])
      ensures err == None ==>
                (forall i :: 0 <= i < |args| ==> !args[i].ZeroBlobValue?) || exists i :: 0 <= i < |args| && EmptyBlob(args[i])
      ensures ctx.background ==> Attempted(err)
      ensures link.heap.live == old(link.heap.live)
    {
      hide OwnMetrics;
      if |args| == 0 {
        result, err := ExecPlain(ctx, query);
        return;
      }
      var viaStatement := HasEmptyBlob(args);
      if viaStatement {
        result, err := ExecPrepared(ctx, query, args);
      } else {
        result, err := ExecBound(ctx, query, args);
      }
    }

    /** The guards in front of an execution, a query or a preparation, and the check that clears it. */
    method Admit(ctx: Context, query: string) returns (err: Option<Error>)
      requires Valid() && ctx.Valid()
      modifies ctx, link`armed
      ensures Valid() && ctx.Valid()
      ensures err == None ==> native == link && link.open && children == 0 && query != "" && link.armed
      ensures ctx.background && native != null && children == 0 && query != "" ==> err == None
      ensures err != Some(Unsupported)
    {
      err := ctx.Error(link);
      if err.Some? { return; }
      if query == "" { return Some(InvalidArgument); }
      if native == null { return Some(Closed); }
      if children != 0 { return Some(Busy); }
      err := ctx.Error(link);
    }

    /** `ExecContext`. */
    method Exec(ctx: Context, query: string, args: seq<Value>) returns (result: Result, err: Option<Error>)
      requires Valid() && ctx.Valid()
      modifies ctx, link, link.heap, link.sdk
      ensures Valid() && ctx.Valid()
      ensures CoreExec(old(View()), View(), query, err) && RanOrNot(query, err)
      ensures err == Some(Canceled) || err == Some(DeadlineExceeded) ==> link.session == old(link.session)
      ensures err == None ==> OwnMetrics(ctx, result)
      ensures ctx.background && args == [] && native != null && children == 0 && query != "" ==>
                link.session.executes == old(link.session.executes) + 1
      ensures err == None && args != [] && |args| < 0x8000_0000 ==>
                && link.sent == Numbered(TruncateAll(args))
                && ((forall i :: 0 <= i < |args| ==> Fits(args[i])) ==> link.sent == Numbered(DenoteAll(args)))
      ensures err == Some(Unsupported) ==>
                (exists i :: 0 <= i < |args| && args[i].ZeroBlobValue?) && forall i :: 0 <= i < |args| ==> !EmptyBlob(args[i])
      ensures err == None ==>
                (forall i :: 0 <= i < |args| ==> !args[i].ZeroBlobValue?) || exists i :: 0 <= i < |args| && EmptyBlob(args[i])
      ensures ctx.background && native != null && children == 0 && query != "" ==> Attempted(err)
      ensures link.heap.live == old(link.heap.live)
    {
      result := NO_RESULT;
      err := Admit(ctx, query);
      if err.Some? { return; }
      result, err := ExecNative(ctx, query, args);
      ListIsDenoted(args);
    }

    /** `PrepareContext`. */
    method Prepare(ctx: Context, query: string) returns (prepared: Stmt?, err: Option<Error>)
      requires Valid() && ctx.Valid()
      modifies ctx, this`children, this`stmt, link`children, link`handles, link`armed, link`lapses, link`prepared
      ensures Valid() && ctx.Valid() && link.lapses == old(link.lapses)
      ensures link.prepared == old(link.prepared) + if prepared == null then [] else [query]
      ensures ctx.background && native != null && old(children) == 0 && query != "" ==> Answered(err)
      ensures err == None <==> prepared != null
      ensures err.Some? ==> SameOwned()
      ensures prepared != null ==>
                && fresh(prepared) && stmt == prepared && rows == null && native == link && old(children) == 0
                && prepared.queryText == query && fresh(prepared.native)
                && prepared.native.params == map[]
    {
      prepared := null;
      err := Admit(ctx, query);
      if err.Some? { return; }
      var handle;
      handle, err := native.Prepare(query);
      if err.Some? { return; }
      prepared := Adopt(handle, query);
    }

    /** A freshly prepared handle becomes a registered statement and a child of the connection. */
    method Adopt(handle: NativeStmt, query: string) returns (prepared: Stmt)
      requires link.Valid() && native == link && link.open && TxOk() && stmt == null && rows == null && children == 0
      requires handle.conn == link && handle.Valid() && handle.ptr && handle.sql == query && link.children == 1 && query != ""
      modifies this`children, this`stmt
      ensures Valid() && fresh(prepared) && stmt == prepared && prepared.queryText == query && prepared.native == handle
    {
      children := children + 1;
      prepared := new Stmt(this, handle, query);
      stmt := prepared;
    }

    /** A query was issued at most once; its session is as `CoreQuery` says. */
    twostate predicate QueriedOrNot(sql: string, new err: Option<Error>)
      reads link`session, link`lapses
    {
      && (|| link.session == old(link.session)
          || Ran(old(link.session), link.session, sql, true) || Ran(old(link.session), link.session, sql, false))
      && (err == None ==> Ran(old(link.session), link.session, sql, true))
      && link.lapses == old(link.lapses)
    }

    /** `QueryContext` without arguments. */
    method QueryPlain(ctx: Context, query: string) returns (cursor: Rows?, err: Option<Error>)
      requires Valid() && ctx.Valid()
      modifies ctx, this`children, this`rows, link
      ensures Valid() && ctx.Valid() && QueriedOrNot(query, err)
      ensures link.session == old(link.session) || (old(native) != null && old(children) == 0)
      ensures ctx.background && native != null && old(children) == 0 && query != "" ==> Answered(err)
      ensures err == None <==> cursor != null
      ensures err.Some? ==> SameOwned()
      ensures cursor != null ==>
                && fresh(cursor) && fresh(cursor.native)
                && rows == cursor && stmt == null && native == link && old(children) == 0
    {
      cursor := null;
      err := Admit(ctx, query);
      if err.Some? { return; }
      var handle;
      handle, err := native.Query(query);
      if err.Some? { return; }
      cursor, err := NewRows(ctx, handle);
      if err.Some? { return; }
      Publish(cursor);
    }

    /** A cursor without a statement becomes a child of the connection. */
    method Publish(cursor: Rows)
      requires native == link && link.open && link.Valid() && TxOk() && stmt == null && rows == null && children == 0
      requires cursor.native != null && cursor.native.conn == link && cursor.native.Valid() && cursor.native.ptr
      requires cursor.Described() && cursor.parentStmt == null && !cursor.closeStmt && link.children == 1
      modifies this`children, this`rows, cursor
      ensures Valid() && rows == cursor && cursor.native == old(cursor.native)
    {
      children := children + 1;
      cursor.parentConn := this;
      rows := cursor;
    }

    /** `QueryContext` with arguments: a statement that closes with its cursor. */
    method QueryPrepared(ctx: Context, query: string, args: seq<Value>) returns (cursor: Rows?, err: Option<Error>)
      requires Valid() && ctx.Valid()
      modifies ctx, this`children, this`rows, this`stmt, link
      ensures Valid() && ctx.Valid() && QueriedOrNot(query, err)
      ensures link.session == old(link.session) || (old(native) != null && old(children) == 0)
      ensures ctx.background && native != null && old(children) == 0 && query != "" ==> Attempted(err)
      ensures err == None <==> cursor != null
      ensures err.Some? ==> SameOwned()
      ensures cursor != null ==>
                && fresh(cursor) && fresh(cursor.native) && rows == cursor && cursor.closeStmt
                && stmt != null && fresh(stmt) && fresh(stmt.native) && native == link && old(children) == 0
                && (|args| < 0x8000_0000 ==> link.sent == Numbered(TruncateAll(args)))
    {
      cursor := null;
      err := ctx.Error(link);
      if err.Some? { return; }
      if query == "" { return null, Some(InvalidArgument); }
      var temporary;
      temporary, err := Prepare(ctx, query);
      if err.Some? { return; }
      cursor, err := temporary.QueryOnce(ctx, args);
    }

    /** `QueryContext`. */
    method Query(ctx: Context, query: string, args: seq<Value>) returns (cursor: Rows?, err: Option<Error>)
      requires Valid() && ctx.Valid()
      modifies ctx, this`children, this`rows, this`stmt, link
      ensures Valid() && ctx.Valid() && CoreQuery(old(View()), View(), query, err)
      ensures ctx.background && native != null && old(children) == 0 && query != "" ==>
                Attempted(err) && (args == [] ==> Answered(err))
      ensures err == None <==> cursor != null
      ensures err.Some? ==> SameOwned()
      ensures cursor != null ==>
                && fresh(cursor) && fresh(cursor.native) && rows == cursor && old(children) == 0
                && (stmt == null <==> args == [])
                && (stmt != null ==> cursor.closeStmt && fresh(stmt) && fresh(stmt.native))
      ensures cursor != null && args != [] && |args| < 0x8000_0000 ==>
                && link.sent == Numbered(TruncateAll(args))
                && ((forall i :: 0 <= i < |args| ==> Fits(args[i])) ==> link.sent == Numbered(DenoteAll(args)))
      ensures link.lapses == old(link.lapses)
    {
      if |args| == 0 {
        cursor, err := QueryPlain(ctx, query);
      } else {
        cursor, err := QueryPrepared(ctx, query, args);
        ListIsDenoted(args);
      }
    }

    /** The native layer holds the handles of the live statement and cursor, and no other. */
    lemma ExactHandles()
      requires Valid()
      ensures link.handles == Natives() && link.children == children == |Natives()| <= 2
    {
      assert Natives() <= link.handles;
      SubsetOfSameSize(Natives(), link.handles);
    }

    static lemma SubsetOfSameSize(a: set<object>, b: set<object>)
      requires a <= b && |a| == |b|
      ensures a == b
    {
      assert |b - a| == 0;
    }

    /** `releaseChild`, with its clamp. */
    method ReleaseChild()
      modifies this`children
      ensures children == if old(children) > 0 then old(children) - 1 else old(children)
    {
      if children > 0 {
        children := children - 1;
      }
    }

    /** `addChild`. */
    method AddChild() returns (err: Option<Error>)
      modifies this`children
      ensures if native == null then err == Some(Closed) && children == old(children)
              else err == None && children == old(children) + 1
    {
      if native == null { return Some(Closed); }
      children := children + 1;
      return None;
    }
  }

  class Stmt {
    const conn: Conn
    const queryText: string
    var native: NativeStmt?
    var rows: int
    var registered: bool

    constructor (conn: Conn, native: NativeStmt, queryText: string)
      ensures this.conn == conn && this.native == native && this.queryText == queryText && rows == 0 && registered
    {
      this.conn, this.native, this.queryText := conn, native, queryText;
      rows, registered := 0, true;
    }

    ghost predicate Valid()
      reads this, conn, conn.link`open, conn.link`children, conn.link`handles, conn.link`session,
            conn.stmt, conn.rows, conn.tx, conn.StmtHandle()`ptr, conn.RowsHandle()`ptr
    {
      conn.Valid() && (native != null ==> conn.stmt == this)
    }

    /** The close sequence of `Close` and `releaseRow`. */
    method Discard() returns (err: Option<Error>)
      requires native != null && native.Valid() && native.ptr && native.conn == conn.link && conn.link.Valid()
      requires registered && conn.children > 0 && conn.stmt == this
      modifies this`native, this`registered, native`ptr, conn`children, conn`stmt, conn.link`children, conn.link`handles
      ensures native == null && !registered && conn.stmt == null && Answered(err)
      ensures conn.children == old(conn.children) - 1 && conn.link.Valid()
      ensures conn.link.handles == old(conn.link.handles) - {old(native)} && conn.link.children == old(conn.link.children) - 1
    {
      var handle := native;
      native := null;
      err := handle.Close();
      if registered {
        registered := false;
        conn.ReleaseChild();
      }
      conn.stmt := null;
    }

    method Close() returns (err: Option<Error>)
      requires Valid()
      modifies this`native, this`registered, if native == null then {} else {native},
               conn`children, conn`stmt, conn.link`children, conn.link`handles
      ensures Valid()
      ensures if old(native) == null then err == None && conn.SameOwned()
              else if old(rows) != 0 then err == Some(Busy) && conn.SameOwned()
              else native == null && conn.stmt == null && conn.children == 0 && Answered(err)
    {
      if native == null { return None; }
      if rows != 0 { return Some(Busy); }
      err := Discard();
    }

    method Bind(index: int, value: Value) returns (err: Option<Error>)
      requires Valid()
      modifies if native == null then {} else {native}, conn.link`armed, conn.link`lapses
      ensures Valid()
      ensures old(conn.link.armed) ==> conn.link.lapses == old(conn.link.lapses)
      ensures native != null && err == None ==> native.params == old(native.params)[CInt(index) := Truncated(value)]
      ensures native != null && err.Some? ==> native.params == old(native.params)
      ensures native == null ==> err.Some?
      ensures native != null && rows == 0 && conn.native != null && index > 0 ==> Attempted(err)
      ensures err == None ==> rows == 0
    {
      if index <= 0 { return Some(InvalidArgument); }
      if native == null { return Some(Closed); }
      if rows != 0 { return Some(Busy); }
      err := native.Set(index, value);
    }

    /** The guards in front of an execution or a reset. */
    method Admit(ctx: Context) returns (err: Option<Error>)
      requires Valid() && ctx.Valid()
      modifies ctx, conn.link`armed
      ensures Valid() && ctx.Valid()
      ensures err == None ==> native != null && rows == 0 && conn.native == conn.link && conn.link.open && conn.link.armed
      ensures ctx.background && native != null && rows == 0 && conn.native != null ==> err == None
    {
      err := ctx.Error(conn.link);
      if err.Some? { return; }
      if native == null { return Some(Closed); }
      if rows != 0 { return Some(Busy); }
      if conn.native == null { return Some(Closed); }
      err := ctx.Error(conn.link);
    }

    /** `ExecContext`. */
    method Exec(ctx: Context) returns (result: Result, err: Option<Error>)
      requires Valid() && ctx.Valid()
      modifies ctx, conn.link`session, conn.link`armed, conn.link`lapses, conn.link`failures, conn.link`affected,
               conn.link`lastId, conn.link`sent
      ensures Valid() && ctx.Valid() && conn.RanOrNot(queryText, err)
      ensures ctx.background && native != null && rows == 0 && conn.native != null ==>
                conn.link.session.executes == old(conn.link.session.executes) + 1
      ensures err == None ==> conn.OwnMetrics(ctx, result) && native != null && rows == 0 && conn.link.sent == native.params
    {
      result := NO_RESULT;
      err := Admit(ctx);
      if err.Some? { return; }
      err := native.Exec();
      if err.Some? { return; }
      result := ResultFor(ctx, conn.link);
    }

    /** `ResetContext`. The old VM is closed before the new one is prepared. */
    method Reset(ctx: Context) returns (err: Option<Error>)
      requires Valid() && ctx.Valid()
      modifies ctx, this`native, this`registered, if native == null then {} else {native},
               conn`children, conn`stmt, conn.link`children, conn.link`handles, conn.link`armed, conn.link`lapses, conn.link`prepared
      ensures Valid() && ctx.Valid() && conn.link.lapses == old(conn.link.lapses)
      ensures ctx.background && old(native) != null && rows == 0 && conn.native != null ==> Answered(err)
      ensures err == None ==>
                native != null && fresh(native) && native.params == map[] && conn.stmt == this && old(native) != null && rows == 0
      ensures err.Some? ==>
                || (native == old(native) && conn.SameOwned())
                || (old(native) != null && native == null && !registered && conn.stmt == null && conn.children == 0)
    {
      err := Admit(ctx);
      if err.Some? { return; }
      var previous := native;
      native := null;
      native, err := Renew(ctx, previous);
      if err.Some? { Unregister(); }
    }

    /** Closes the old VM, then prepares the replacement. */
    method Renew(ctx: Context, previous: NativeStmt) returns (replacement: NativeStmt?, err: Option<Error>)
      requires ctx.Valid() && conn.link.Valid() && conn.link.open && queryText != ""
      requires previous.conn == conn.link && previous.Valid() && previous.ptr
      modifies ctx, previous`ptr, conn.link`children, conn.link`handles, conn.link`armed, conn.link`lapses, conn.link`prepared
      ensures ctx.Valid() && conn.link.Valid() && conn.link.lapses == old(conn.link.lapses)
      ensures err == None <==> replacement != null
      ensures ctx.background ==> Answered(err)
      ensures replacement == null ==> conn.link.handles == old(conn.link.handles) - {previous}
      ensures conn.link.children == old(conn.link.children) - if replacement == null then 1 else 0
      ensures replacement != null ==>
                && fresh(replacement) && conn.link.handles == old(conn.link.handles) - {previous} + {replacement}
                && replacement.conn == conn.link && replacement.Valid() && replacement.ptr
                && replacement.sql == queryText && replacement.params == map[]
    {
      replacement := null;
      err := previous.Close();
      if err.Some? { return; }
      err := ctx.Error(conn.link);
      if err.Some? { return; }
      replacement, err := conn.link.Prepare(queryText);
    }

    /** The undo step of a failed Reset, which subtracts without a clamp. */
    method Unregister()
      requires conn.stmt == this
      modifies this`registered, conn`children, conn`stmt
      ensures !registered && conn.stmt == null
      ensures conn.children == if old(registered) then old(conn.children) - 1 else old(conn.children)
    {
      if registered {
        registered := false;
        conn.children := conn.children - 1;
      }
      conn.stmt := null;
    }

    /** The argument loop of `QueryContext` and the check after it. */
    method BindAll(ctx: Context, args: seq<Value>) returns (err: Option<Error>)
      requires Valid() && ctx.Valid() && native != null && rows == 0 && native.params == map[]
      modifies ctx, native, conn.link`armed, conn.link`lapses
      ensures Valid() && ctx.Valid() && conn.link.lapses == old(conn.link.lapses)
      ensures ctx.background && conn.native != null ==> Attempted(err)
      ensures err == None && |args| < 0x8000_0000 ==> native.params == Numbered(TruncateAll(args))
    {
      assert args[..0] == [] && TruncateAll([]) == [];
      hide TruncateAll, Numbered, Truncated, Conn.Valid;
      var index := 0;
      while index < |args|
        invariant 0 <= index <= |args|
        invariant Valid() && ctx.Valid() && conn.link.lapses == old(conn.link.lapses)
        invariant |args| < 0x8000_0000 ==> native.params == Numbered(TruncateAll(args[..index]))
      {
        err := ctx.Error(conn.link);
        if err.Some? { return; }
        err := Bind(index + 1, args[index]);
        if err.Some? { return; }
        NumberedNext(args, index);
        index := index + 1;
      }
      assert args[..|args|] == args;
      err := ctx.Error(conn.link);
    }

    /** `query`. With `closeWithRows`, a failure after the native query also closes the statement. */
    method Query(ctx: Context, closeWithRows: bool) returns (cursor: Rows?, err: Option<Error>)
      requires Valid() && ctx.Valid()
      modifies ctx, this`rows, this`native, this`registered, if native == null then {} else {native},
               conn`children, conn`stmt, conn`rows, conn.link`children, conn.link`handles, conn.link`session,
               conn.link`armed, conn.link`lapses, conn.link`failures, conn.link`affected, conn.link`lastId, conn.link`sent
      ensures Valid() && ctx.Valid() && conn.QueriedOrNot(queryText, err)
      ensures ctx.background && old(native) != null && old(rows) == 0 ==> Answered(err)
      ensures err == None <==> cursor != null
      ensures cursor != null ==>
                && fresh(cursor) && fresh(cursor.native)
                && conn.rows == cursor && conn.stmt == this && cursor.closeStmt == closeWithRows
                && native == old(native) != null && conn.link.sent == old(native.params) && old(rows) == 0
      ensures err.Some? ==>
                || (native == old(native) && conn.SameOwned())
                || (closeWithRows && old(native) != null && old(rows) == 0
                    && native == null && conn.stmt == null && conn.children == 0)
    {
      cursor := null;
      err := AdmitQuery(ctx);
      if err.Some? { return; }
      var queried;
      cursor, queried, err := Draw(ctx);
      if err == None {
        Publish(cursor, closeWithRows);
      } else if queried && closeWithRows {
        var _ := Close();
      }
    }

    /** What `QueryContext` does with its freshly prepared statement: the statement lives as long as its cursor. */
    method QueryOnce(ctx: Context, args: seq<Value>) returns (cursor: Rows?, err: Option<Error>)
      requires Valid() && ctx.Valid() && native != null && rows == 0 && native.params == map[]
      modifies ctx, this`rows, this`native, this`registered, native,
               conn`children, conn`stmt, conn`rows, conn.link`children, conn.link`handles, conn.link`session,
               conn.link`armed, conn.link`lapses, conn.link`failures, conn.link`affected, conn.link`lastId, conn.link`sent
      ensures Valid() && ctx.Valid() && conn.QueriedOrNot(queryText, err)
      ensures ctx.background && conn.native != null ==> Attempted(err)
      ensures err == None <==> cursor != null
      ensures cursor != null ==>
                && fresh(cursor) && fresh(cursor.native) && native == old(native)
                && conn.rows == cursor && conn.stmt == this && cursor.closeStmt
                && (|args| < 0x8000_0000 ==> conn.link.sent == Numbered(TruncateAll(args)))
      ensures err.Some? ==> native == null && conn.stmt == null && conn.rows == null && conn.children == 0
    {
      cursor := null;
      err := BindAll(ctx, args);
      if err == None {
        cursor, err := Query(ctx, true);
      }
      if err.Some? {
        var _ := Close();                // a second close when `query` has already closed it
      }
    }

    /** The guards of `query`. */
    method AdmitQuery(ctx: Context) returns (err: Option<Error>)
      requires Valid() && ctx.Valid()
      modifies ctx, conn.link`armed
      ensures Valid() && ctx.Valid()
      ensures ctx.background && native != null && rows == 0 ==> err == None
      ensures err == None ==> native != null && rows == 0 && conn.link.open && conn.link.armed
    {
      err := ctx.Error(conn.link);
      if err.Some? { return; }
      if native == null { return Some(Closed); }
      if rows != 0 { return Some(Busy); }
      err := ctx.Error(conn.link);
    }

    /** The native query and its `newRowsContext`; `queried` when only the latter failed. */
    method Draw(ctx: Context) returns (cursor: Rows?, queried: bool, err: Option<Error>)
      requires ctx.Valid() && conn.link.Valid() && conn.link.open && conn.link.armed && queryText != ""
      requires native != null && native.conn == conn.link && native.sql == queryText && native.Valid() && native.ptr
      modifies ctx, conn.link`children, conn.link`handles, conn.link`session, conn.link`armed, conn.link`lapses,
               conn.link`failures, conn.link`affected, conn.link`lastId, conn.link`sent
      ensures ctx.Valid() && conn.link.Valid() && conn.QueriedOrNot(queryText, err)
      ensures err == None <==> cursor != null
      ensures ctx.background ==> Answered(err)
      ensures cursor == null ==> conn.link.SameHandles()
      ensures cursor != null ==> Drawn(cursor) && fresh(cursor) && fresh(cursor.native)
      ensures cursor != null ==>
                && conn.link.handles == old(conn.link.handles) + {cursor.native}
                && conn.link.children == old(conn.link.children) + 1
      ensures conn.link.sent == native.params
    {
      cursor, queried := null, false;
      var handle;
      handle, err := native.Query();
      if err.Some? { return; }
      cursor, err := NewRows(ctx, handle);
      queried := true;
    }

    /** A cursor ready to be published. */
    ghost predicate Drawn(cursor: Rows)
      reads this, conn, cursor, cursor.Link()`handles, if cursor.native == null then {} else {cursor.native}
    {
      && cursor.native != null && cursor.native.conn == conn.link && cursor.native.Valid() && cursor.native.ptr
      && cursor.Described()
    }

    /** The cursor becomes a child of the connection and of the statement. */
    method Publish(cursor: Rows, closeWithRows: bool)
      requires native != null && rows == 0 && conn.stmt == this && conn.rows == null && conn.children == 1
      requires conn.native == conn.link && conn.link.open && conn.link.Valid() && conn.StmtOk() && conn.TxOk()
      requires Drawn(cursor) && conn.link.children == 2
      modifies this`rows, conn`children, conn`rows, cursor
      ensures Valid() && conn.rows == cursor && conn.stmt == this && cursor.closeStmt == closeWithRows
      ensures cursor.native == old(cursor.native)
    {
      var err := conn.AddChild();
      if err.Some? {
        assert false;                    // addChild fails only on a closed connection
        return;
      }
      rows := rows + 1;
      cursor.parentConn := conn;
      cursor.parentStmt := this;
      cursor.closeStmt := closeWithRows;
      conn.rows := cursor;
    }

    /** `releaseRow`. */
    method ReleaseRow(closeStatement: bool) returns (err: Option<Error>)
      requires native != null ==>
                 && native.Valid() && native.ptr && native.conn == conn.link && conn.link.Valid()
                 && registered && conn.children > 0 && conn.stmt == this
      modifies this`rows, this`native, this`registered, if native == null then {} else {native},
               conn`children, conn`stmt, conn.link`children, conn.link`handles
      ensures rows == if old(rows) > 0 then old(rows) - 1 else old(rows)
      ensures if closeStatement && old(native) != null && rows == 0 then
                && native == null && !registered && conn.stmt == null && conn.children == old(conn.children) - 1
                && conn.link.Valid() && conn.link.handles == old(conn.link.handles) - {old(native)}
                && conn.link.children == old(conn.link.children) - 1
              else
                && native == old(native) && registered == old(registered) && conn.stmt == old(conn.stmt)
                && conn.children == old(conn.children) && conn.link.children == old(conn.link.children)
                && conn.link.handles == old(conn.link.handles) && (native != null ==> native.ptr)
      ensures err == Some(Busy) <==> closeStatement && old(native) != null && rows != 0
    {
      if rows > 0 {
        rows := rows - 1;
      }
      if !closeStatement || native == null { return None; }
      if rows != 0 { return Some(Busy); }
      err := Discard();
    }
  }

  class Rows {
    var native: NativeRows?
    var parentConn: Conn?
    var parentStmt: Stmt?
    var closeStmt: bool
    var types: seq<int>
    var total: int
    var current: int
    var err: Option<Error>

    constructor (native: NativeRows, total: int)
      ensures this.native == native && parentConn == null && parentStmt == null && !closeStmt
      ensures types == [] && this.total == total && current == 0 && err == None
    {
      this.native, parentConn, parentStmt, closeStmt := native, null, null, false;
      types, this.total, current, err := [], total, 0, None;
    }

    /** The copied metadata is the cursor's own. */
    ghost predicate Described()
      reads this
    {
      native != null && types == native.types && total == |native.cells| && 0 <= current
    }

    ghost function Link(): set<NativeConn>
      reads this
    {
      if native == null then {} else {native.conn}
    }

    ghost function Handle(): set<NativeRows>
      reads this
    {
      if native == null then {} else {native}
    }

    ghost function Parent(): set<Conn>
      reads this
    {
      if parentConn == null then {} else {parentConn}
    }

    ghost function ParentStmt(): set<Stmt>
      reads this
    {
      if parentStmt == null then {} else {parentStmt}
    }

    /** `Close`, of an unpublished, a published, or a closed cursor. */
    method Close() returns (err: Option<Error>)
      requires native != null && parentConn == null ==>
                 native.Valid() && native.ptr && native.conn.Valid() && parentStmt == null
      requires native != null && parentConn != null ==> parentConn.Valid() && parentConn.rows == this
      modifies this, native, Link()`children, Link()`handles, Parent()`children, Parent()`rows, Parent()`stmt,
               ParentStmt()`rows, ParentStmt()`native, ParentStmt()`registered,
               if parentStmt == null || parentStmt.native == null then {} else {parentStmt.native}
      ensures native == null
      ensures old(native) == null ==> err == None
      ensures old(native) != null ==>
                var link := old(native.conn);
                && !old(native).ptr && link.Valid()
                && (old(parentConn) == null ==> err == None && link.handles == old(link.handles) - {old(native)})
                && (old(parentConn) == null ==> link.children == old(link.children) - 1)
      ensures old(native) != null && old(parentConn) != null ==>
                var conn := old(parentConn);
                && conn.Valid() && conn.rows == null && conn.stmt == if old(closeStmt) then null else old(conn.stmt)
      ensures err != Some(Busy)
    {
      if native == null { return None; }
      var handle, stmt, conn, close := native, parentStmt, parentConn, closeStmt;
      native, parentConn, parentStmt, closeStmt := null, null, null, false;
      var nativeError := handle.Close();
      var statementError := None;
      if conn != null {
        statementError := Leave(conn, stmt, close);
      }
      err := if nativeError.Some? then nativeError else statementError;
    }

    /** Gives back what a published cursor, whose native handle is gone, holds of its parents. */
    static method Leave(conn: Conn, stmt: Stmt?, close: bool) returns (err: Option<Error>)
      requires conn.Orphaned() && conn.stmt == stmt && (stmt == null ==> !close)
      modifies conn`children, conn`rows, conn`stmt, conn.link`children, conn.link`handles,
               (if stmt == null then {} else {stmt})`rows, (if stmt == null then {} else {stmt})`native,
               (if stmt == null then {} else {stmt})`registered,
               if stmt == null || stmt.native == null then {} else {stmt.native}
      ensures conn.Valid() && conn.rows == null && conn.stmt == if close then null else old(conn.stmt)
      ensures err != Some(Busy)
    {
      conn.ReleaseChild();
      conn.rows := null;
      err := None;
      if stmt != null {
        err := stmt.ReleaseRow(close);
      }
    }

    // ---------------------------------------------------------------- iteration

    /** The cursor as a value. */
    ghost function Position(): Cursor.Cursor
      reads this, native
    {
      Cursor.Cursor(native != null, total, current, if native == null then 0 else native.at, err)
    }

    /** An open cursor is the live cursor of its connection. */
    ghost predicate Live()
      reads *
    {
      native != null ==> parentConn != null && parentConn.Valid() && parentConn.rows == this
    }

    /** `contextError`, clearing the way for a native call if the cursor is open. */
    method Check(ctx: Context) returns (ended: Option<Error>)
      requires ctx.Valid() && Live()
      modifies ctx, Link()`armed
      ensures ctx.Valid() && ended == ctx.done && Live()
      ensures native != null ==> native.conn.armed == (ended == None)
    {
      if native == null {
        ended := ctx.Poll();
      } else {
        ended := ctx.Error(native.conn);
      }
    }

    /** A native seek, and the position it leaves. */
    method MoveTo(row: int) returns (failed: Option<Error>)
      requires Live() && native != null && native.conn.armed && row > 0
      modifies this`current, this`err, Handle()`at, Link()`armed, Link()`lapses
      ensures Live() && native.conn.lapses == old(native.conn.lapses)
      ensures failed == None ==>
                && native.at == Cursor.SeekTarget(CInt(row), old(native.at), total) && 1 <= native.at <= total
                && current == row && err == None
      ensures failed.Some? ==> failed == Some(InvalidArgument) && Position() == old(Position())
    {
      failed := native.Seek(row);
      if failed == None {
        current := row;
        err := None;
      }
    }

    /** `rows.err = e`. */
    method Fail(e: Error)
      requires Live()
      modifies this`err
      ensures Live() && err == Some(e)
    {
      err := Some(e);
    }

    /** `NextContext`. */
    method Next(ctx: Context) returns (more: bool)
      requires ctx.Valid() && Live()
      modifies ctx, this`current, this`err, Handle()`at, Link()`armed, Link()`lapses
      ensures ctx.Valid() && Cursor.NextStep(old(Position()), Position(), more, ctx.done)
      ensures Live() && (native != null ==> native.conn.lapses == old(native.conn.lapses))
    {
      assert native != null ==> 0 <= current && total < 0x8000_0000;
      hide Conn.Valid;
      var ended := Check(ctx);
      if ended.Some? {
        Fail(ended.value);
        return false;
      }
      if native == null {
        if err == None {
          Fail(Closed);
        }
        return false;
      }
      if err.Some? || current >= total { return false; }
      more := MoveOn();
    }

    /** The native seek to the next row, whose error sticks. */
    method MoveOn() returns (more: bool)
      requires Live() && native != null && native.conn.armed && err == None && 0 <= current < total < 0x8000_0000
      modifies this`current, this`err, Handle()`at, Link()`armed, Link()`lapses
      ensures Live() && native.conn.lapses == old(native.conn.lapses)
      ensures Cursor.NextStep(old(Position()), Position(), more, None)
    {
      hide Conn.Valid;
      var row := current + 1;
      var failed := MoveTo(row);
      if failed.Some? {
        Fail(failed.value);
        return false;
      }
      return true;
    }

    /** `SeekContext`. */
    method Seek(ctx: Context, row: int) returns (failed: Option<Error>)
      requires ctx.Valid() && Live()
      modifies ctx, this`current, this`err, Handle()`at, Link()`armed, Link()`lapses
      ensures ctx.Valid()
      ensures Live() && (native != null ==> native.conn.lapses == old(native.conn.lapses))
      ensures failed == None ==> Cursor.Sought(Position(), failed) == Cursor.Seek(old(Position()), row, None)
      ensures failed.Some? ==>
                && Position() == old(Position())
                && (failed == ctx.done || failed == Some(InvalidArgument) || (failed == Some(Closed) && native == null))
    {
      failed := Check(ctx);
      if failed.Some? { return; }
      if row <= 0 { return Some(InvalidArgument); }
      if native == null { return Some(Closed); }
      failed := Check(ctx);
      if failed.Some? { return; }
      failed := MoveTo(row);
    }

    /** `valueLocked`: a copied cell of the current row. */
    method Value(ctx: Context, column: int) returns (cell: Cell, failed: Option<Error>)
      requires ctx.Valid() && Live()
      modifies ctx, Link()`armed, Link()`lapses
      ensures ctx.Valid()
      ensures Live() && (native != null ==> native.conn.lapses == old(native.conn.lapses))
      ensures failed == None ==>
                && native != null && 1 <= current <= total && 1 <= column <= |types|
                && cell == native.cells[current - 1][column - 1]
      ensures ctx.background ==>
                if native == null then failed == Some(Closed)
                else if 1 <= current <= total && 1 <= column <= |types| then Answered(failed)
                else failed == Some(InvalidArgument)
    {
      cell := None;
      if native == null { return None, Some(Closed); }
      if current <= 0 || current > total || column <= 0 || column > |types| {
        return None, Some(InvalidArgument);
      }
      failed := Check(ctx);
      if failed.Some? { return; }
      cell, failed := native.Field(current, column);
    }

    /** One column of the current row for one destination. */
    method ScanColumn(ctx: Context, index: nat, target: Cursor.Target, isFloat: seq<Byte> -> bool)
      returns (scanned: Cursor.Converted, failed: Option<Error>)
      requires ctx.Valid() && Live() && native != null && 1 <= current <= total && index < |types|
      modifies ctx, Link()`armed, Link()`lapses
      ensures ctx.Valid() && Live() && native.conn.lapses == old(native.conn.lapses)
      ensures failed == None ==>
                Cursor.ScanValue(target, types[index], native.cells[current - 1][index], isFloat) == Some(scanned)
      ensures ctx.background && !Answered(failed) ==>
                && failed == Some(ScanFailed)
                && Cursor.ScanValue(target, types[index], native.cells[current - 1][index], isFloat) == None
    {
      scanned := Cursor.NilValue;
      failed := Check(ctx);
      if failed.Some? { return; }
      var cell;
      cell, failed := Value(ctx, index + 1);
      if failed.Some? { return; }
      var converted := Cursor.ScanValue(target, types[index], cell, isFloat);
      if converted == None { return scanned, Some(ScanFailed); }
      return converted.value, None;
    }

    /** `ScanContext`: the first `done` destinations hold the columns of the current row, the others what they held. */
    method Scan(ctx: Context, targets: seq<Cursor.Target>, destinations: array<Cursor.Converted>,
                isFloat: seq<Byte> -> bool)
      returns (failed: Option<Error>, done: nat)
      requires ctx.Valid() && Live() && destinations.Length == |targets|
      modifies ctx, destinations, Link()`armed, Link()`lapses
      ensures ctx.Valid() && Live() && (native != null ==> native.conn.lapses == old(native.conn.lapses))
      ensures failed == None ==> native != null && done == |targets| == |types|
      ensures done > 0 ==>
                && native != null && 1 <= current <= total
                && Cursor.Scanned(targets, destinations[..], done, types, native.cells[current - 1], isFloat)
      ensures done <= |targets| && destinations[done..] == old(destinations[done..])
      ensures ctx.background && !Answered(failed) && native != null && 1 <= current <= total && |targets| == |types| ==>
                && failed == Some(ScanFailed) && done < |targets|
                && Cursor.ScanValue(targets[done], types[done], native.cells[current - 1][done], isFloat) == None
    {
      done := 0;
      failed := Check(ctx);
      if failed.Some? { return; }
      if native == null { return Some(Closed), 0; }
      if current <= 0 || current > total { return Some(ScanFailed), 0; }
      if |targets| != |types| { return Some(ScanFailed), 0; }
      failed, done := ScanColumns(ctx, targets, destinations, isFloat);
    }

    /** The columns of the current row in order, up to the first that fails. */
    method ScanColumns(ctx: Context, targets: seq<Cursor.Target>, destinations: array<Cursor.Converted>,
                       isFloat: seq<Byte> -> bool)
      returns (failed: Option<Error>, done: nat)
      requires ctx.Valid() && Live() && native != null && 1 <= current <= total
      requires destinations.Length == |targets| == |types|
      modifies ctx, destinations, Link()`armed, Link()`lapses
      ensures ctx.Valid() && Live() && native.conn.lapses == old(native.conn.lapses)
      ensures done <= |targets| && (failed == None ==> done == |targets|)
      ensures ctx.background && !Answered(failed) ==>
                && failed == Some(ScanFailed) && done < |targets|
                && Cursor.ScanValue(targets[done], types[done], native.cells[current - 1][done], isFloat) == None
      ensures Cursor.Scanned(targets, destinations[..], done, types, native.cells[current - 1], isFloat)
      ensures destinations[done..] == old(destinations[done..])
    {
      ghost var row, before := native.cells[current - 1], destinations[..];
      hide Cursor.ScanValue;
      done := 0;
      failed := None;
      while done < |targets|
        invariant done <= |targets|
        invariant ctx.Valid() && Live() && native.conn.lapses == old(native.conn.lapses)
        invariant Cursor.Scanned(targets, destinations[..], done, types, row, isFloat)
        invariant destinations[done..] == before[done..]
      {
        var scanned;
        scanned, failed := ScanColumn(ctx, done, targets[done], isFloat);
        if failed.Some? { return; }
        destinations[done] := scanned;
        done := done + 1;
      }
      return None, done;
    }
  }

  class Tx {
    ghost const id: nat
    var conn: Conn?
    var done: bool

    constructor (conn: Conn, ghost id: nat)
      ensures this.conn == conn && !done && this.id == id
    {
      this.conn, done, this.id := conn, false, id;
    }

    ghost function Link(): set<NativeConn>
      reads this
    {
      if conn == null then {} else {conn.link}
    }

    ghost predicate Valid()
      reads *
    {
      if done then conn == null else conn != null && conn.Valid() && conn.tx == this
    }

    /** The guards of `finish`. On a live transaction the closed and inactive guards never fail. */
    method Admit(ctx: Context) returns (err: Option<Error>)
      requires Valid() && ctx.Valid()
      modifies ctx, (if conn == null then {} else {conn.link})`armed
      ensures Valid() && ctx.Valid()
      ensures done ==> err.Some?
      ensures !done ==> err != Some(Closed) && err != Some(TxDone)
      ensures !done && ctx.background && conn.children == 0 ==> err == None
      ensures err.Some? ==> !err.value.Sdk?
      ensures err == None ==> conn.children == 0 && conn.native == conn.link && conn.link.armed && conn.txActive
    {
      err := ctx.Poll();
      if err.Some? { return; }
      if done || conn == null { return Some(TxDone); }
      if conn.native == null {
        assert false;
        return Some(Closed);
      }
      if !conn.txActive {
        assert false;
        return Some(TxDone);
      }
      if conn.children != 0 { return Some(Busy); }
      err := ctx.Error(conn.link);
    }

    /** `finish`: CommitContext and RollbackContext. */
    method Finish(ctx: Context, commit: bool) returns (err: Option<Error>)
      requires Valid() && ctx.Valid()
      modifies ctx, this, (if conn == null then {} else {conn})`txActive, (if conn == null then {} else {conn})`tx,
               Link()`session, Link()`armed, Link()`lapses
      ensures Valid() && ctx.Valid()
      ensures old(done) ==> done && err.Some?
      ensures !old(done) ==>
                var core := old(conn);
                && core.Valid()
                && CoreFinishTx(old(conn.View()), core.View(), id, commit, err)
                && core.link.lapses == old(conn.link.lapses)
                && (done <==> err == None)
                && core.tx == (if done then null else this)
                && err != Some(Closed) && err != Some(TxDone)
                && (ctx.background && old(conn.children) == 0 ==>
                      && Answered(err)
                      && if commit then Committed(old(conn.link.session), core.link.session, err)
                      else RolledBack(old(conn.link.session), core.link.session, err))
    {
      err := Admit(ctx);
      if err.Some? { return; }
      var core := conn;
      if commit {
        err := core.native.Commit();
      } else {
        err := core.native.Rollback();
      }
      if err.Some? { return; }
      core.txActive := false;
      core.tx := null;
      done := true;
      conn := null;
    }

    /** The forwarding `ExecContext`. */
    method Exec(ctx: Context, query: string, args: seq<Value>) returns (result: Result, err: Option<Error>)
      requires Valid() && ctx.Valid()
      modifies ctx, if conn == null then {} else {conn.link}, if conn == null then {} else {conn.link.heap},
               if conn == null then {} else {conn.link.sdk}
      ensures Valid() && ctx.Valid()
      ensures done ==> err.Some?
      ensures !done ==>
                && CoreExec(old(conn.View()), conn.View(), query, err)
                && conn.link.session.tx == Some(id) && conn.RanOrNot(query, err)
                && (err == None ==> conn.OwnMetrics(ctx, result))
                && (err == None && args != [] && |args| < 0x8000_0000 ==> conn.link.sent == Numbered(TruncateAll(args)))
                && (ctx.background && conn.children == 0 && query != "" ==> Attempted(err))
                && (ctx.background && args == [] && conn.children == 0 && query != "" ==>
                      conn.link.session.executes == old(conn.link.session.executes) + 1)
    {
      err := ctx.Poll();
      if err.Some? { return NO_RESULT, err; }
      if done || conn == null { return NO_RESULT, Some(TxDone); }
      result, err := conn.Exec(ctx, query, args);
    }
  }
}
