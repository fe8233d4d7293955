/**
  The server side of one connection, as seen through the native calls the driver issues.

  Environment assumptions: every native call returns; a successful execution adds its work to the
  pending work and a failed one may or may not have; only commits and rollbacks resolve pending work;
  a commit or rollback that reports an error either took effect as a whole or not at all; error 7030
  from a rollback means that no database is selected, hence that nothing is pending; SQL text does not
  itself begin, commit, roll back or change database; a begin that reports an error gives the client no
  transaction.
 */
module Session {
  import opened Basics
  import opened Errors

  /** One executed statement. `tx` is the explicit transaction it ran under. */
  datatype Work = Work(id: nat, sql: string, tx: Option<nat>)

  datatype Session = Session(
    database: string,          // "" when none is selected
    tx: Option<nat>,           // explicit transaction not yet finished successfully
    pending: seq<Work>,
    committed: seq<Work>,
    dropped: seq<Work>,
    nextWork: nat, nextTx: nat,
    executes: nat, commits: nat)   // calls issued so far

  function NewSession(): Session {
    Session("", None, [], [], [], 0, 0, 0, 0)
  }

  /** An execution was issued; its work is pending if it succeeded, and may be if it failed. */
  predicate Ran(s: Session, s': Session, sql: string, applied: bool) {
    s' == s.(nextWork := s.nextWork + 1, executes := s.executes + 1,
             pending := s.pending + if applied then [Work(s.nextWork, sql, s.tx)] else [])
  }

  /** An execution was issued and reported `err`. */
  predicate Executed(s: Session, s': Session, sql: string, err: Option<Error>) {
    match err
    case None => Ran(s, s', sql, true)
    case Some(e) => e.Sdk? && (Ran(s, s', sql, true) || Ran(s, s', sql, false))
  }

  predicate Began(s: Session, s': Session, err: Option<Error>) {
    s' == if err == None then s.(tx := Some(s.nextTx), nextTx := s.nextTx + 1) else s
  }

  predicate Committed(s: Session, s': Session, err: Option<Error>) {
    var issued := s.(commits := s.commits + 1);
    var applied := issued.(committed := s.committed + s.pending, pending := []);
    if err == None then s' == applied.(tx := None) else s' == issued || s' == applied
  }

  predicate RolledBack(s: Session, s': Session, err: Option<Error>) {
    var applied := s.(dropped := s.dropped + s.pending, pending := []);
    if err == None then s' == applied.(tx := None)
    else (s' == s || s' == applied) && (NoDatabaseSelected(err.value) ==> s.pending == [])
  }

  predicate DatabaseSet(s: Session, s': Session, database: string, err: Option<Error>) {
    if err == None then s' == s.(database := database) else s' == s || s' == s.(database := database)
  }

  // ---------------------------------------------------------------- the core connection

  /** What the rest of the program can tell about a `cubesql.Conn` between operations. */
  datatype Core = Core(open: bool, children: nat, session: Session)

  /** No transaction, statement or cursor stands in the way. */
  predicate Free(c: Core) { c.open && c.children == 0 && c.session.tx == None }

  /** `cubesql.Conn.ExecContext`, also when called through a live Tx. */
  predicate CoreExec(c: Core, c': Core, sql: string, err: Option<Error>) {
    && c' == c.(session := c'.session)
    && (|| (c.open && c.children == 0 && Executed(c.session, c'.session, sql, err))
        || (err.Some? && c' == c))
  }

  /** `cubesql.Conn.QueryContext`: on success a cursor, and possibly its statement, are children. */
  predicate CoreQuery(c: Core, c': Core, sql: string, err: Option<Error>) {
    && c'.open == c.open
    && (|| c'.session == c.session
        || (&& c.open && c.children == 0
            && (Ran(c.session, c'.session, sql, true) || Ran(c.session, c'.session, sql, false))))
    && match err
       case None => c.open && c.children == 0 && 1 <= c'.children <= 2 && Ran(c.session, c'.session, sql, true)
       case Some(_) => c'.children == c.children
  }

  /** `cubesql.Conn.PrepareContext` followed by `Stmt.Close`; a failed prepare leaves nothing to close. */
  predicate CorePrepareClose(c: Core, c': Core) { c' == c }

  predicate CoreBegin(c: Core, c': Core, err: Option<Error>) {
    && c' == c.(session := c'.session)
    && (err == None ==> Free(c))
    && Began(c.session, c'.session, err)
  }

  /**
    `cubesql.Conn.CommitContext` and `RollbackContext`, without a Tx. `background`: the context can never end,
    so on a free connection the native call is certain to be issued.
   */
  predicate CoreFinishImplicit(c: Core, c': Core, commit: bool, background: bool, err: Option<Error>) {
    var issued := Free(c) && c' == c.(session := c'.session)
                  && if commit then Committed(c.session, c'.session, err) else RolledBack(c.session, c'.session, err);
    issued || (!(Free(c) && background) && err.Some? && !NoDatabaseSelected(err.value) && c' == c)
  }

  /** `cubesql.Tx.CommitContext` and `RollbackContext` of transaction `x`. */
  predicate CoreFinishTx(c: Core, c': Core, x: nat, commit: bool, err: Option<Error>) {
    var issued := c.open && c.children == 0 && c.session.tx == Some(x) && c' == c.(session := c'.session)
                  && if commit then Committed(c.session, c'.session, err) else RolledBack(c.session, c'.session, err);
    issued || (err.Some? && c' == c)
  }

  predicate CoreSetDatabase(c: Core, c': Core, database: string, err: Option<Error>) {
    || (Free(c) && c' == c.(session := c'.session) && DatabaseSet(c.session, c'.session, database, err))
    || (err.Some? && c' == c)
  }

  predicate CoreClose(c: Core, c': Core, err: Option<Error>) {
    if err == None then (c.open ==> Free(c)) && c' == c.(open := false) else c' == c
  }
}
