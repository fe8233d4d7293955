/** What every driver call does to the history of a session: nothing is lost, nothing is undone. */
module AdapterHistory {
  import opened Basics
  import opened Errors
  import opened Session
  import opened AdapterProtocol
  import opened AdapterRuns

  /** Pending work of a transaction belongs to the live one. */
  predicate Tagged(s: Session) { forall w :: w in s.pending && w.tx.Some? ==> w.tx == s.tx }

  /** A transaction that is not live never becomes live again: numbers are given once. */
  predicate NoReturn(s: Session, s': Session) {
    && s.nextTx <= s'.nextTx
    && (s'.tx != s.tx && s'.tx.Some? ==> s.nextTx <= s'.tx.value < s'.nextTx)
  }

  /** No work is lost, and what is durable or dropped stays so, however the calls turned out. */
  ghost predicate Later(s: Session, s': Session) {
    && s.committed <= s'.committed && s.dropped <= s'.dropped
    && (forall w :: w in s.pending ==> w in s'.pending || w in s'.committed || w in s'.dropped)
    && s.executes <= s'.executes && s.commits <= s'.commits
    && (s'.commits == s.commits ==> s'.committed == s.committed)
    && (LogsOk(s) ==> LogsOk(s'))
    && (Tagged(s) ==> Tagged(s')) && NoReturn(s, s')
  }

  lemma LaterChain(s: Session, m: Session, s': Session)
    requires Later(s, m) && Later(m, s')
    ensures Later(s, s')
  {
    hide LogsOk, Tagged;
  }

  lemma RanLater(s: Session, s': Session, sql: string, applied: bool)
    requires Ran(s, s', sql, applied)
    ensures Later(s, s')
  {
    if LogsOk(s) { RanKeepsLogs(s, s', sql, applied); }
    hide LogsOk;
  }

  /** The pending work is resolved, or the call changed no log. */
  lemma ResolvedLater(s: Session, s': Session)
    requires s'.nextWork == s.nextWork && s'.executes == s.executes && s.commits <= s'.commits
    requires || (s'.pending == [] && s'.committed == s.committed + s.pending && s'.dropped == s.dropped && s'.commits > s.commits)
             || (s'.pending == [] && s'.dropped == s.dropped + s.pending && s'.committed == s.committed)
             || (s'.pending == s.pending && s'.committed == s.committed && s'.dropped == s.dropped)
    requires NoReturn(s, s') && (s'.pending == [] || s'.tx == s.tx || s.tx == None)
    ensures Later(s, s')
  {
    if LogsOk(s) && s'.pending == [] && s'.committed + s'.dropped != s.committed + s.dropped {
      ApplyKeepsLogs(s, s');
    }
    if s'.pending == [] && s.pending == [] {
      assert s.committed + s.pending == s.committed && s.dropped + s.pending == s.dropped;
    }
  }

  lemma FinishLater(s: Session, s': Session, commit: bool, err: Option<Error>)
    requires if commit then Committed(s, s', err) else RolledBack(s, s', err)
    ensures Later(s, s')
    ensures if commit then s'.commits == s.commits + 1 else s'.commits == s.commits
    ensures s'.executes == s.executes
  {
    hide Later;
    ResolvedLater(s, s');
  }

  lemma ExecLater(c: Core, c': Core, sql: string, err: Option<Error>)
    requires CoreExec(c, c', sql, err) || CoreQuery(c, c', sql, err)
    ensures Later(c.session, c'.session) && c'.session.commits == c.session.commits
    ensures c'.session.executes <= c.session.executes + 1
  {
    if c'.session == c.session {
      ResolvedLater(c.session, c'.session);
    } else {
      hide Later;
      var applied :| Ran(c.session, c'.session, sql, applied);
      RanLater(c.session, c'.session, sql, applied);
    }
  }

  lemma AbandonLater(a: Adapter, c: Core, err: Option<Error>)
    requires AbandonActive(a, c, err)
    ensures Later(a.core.session, c.session)
    ensures c.session.commits == a.core.session.commits && c.session.executes == a.core.session.executes
  {
    hide Later, LogsOk;
    if c == a.core {
      ResolvedLater(a.core.session, c.session);
    } else {
      FinishLater(a.core.session, c.session, false, err);
    }
  }

  lemma FinishTxLater(c: Core, c': Core, x: nat, commit: bool, err: Option<Error>)
    requires CoreFinishTx(c, c', x, commit, err)
    ensures Later(c.session, c'.session) && c'.session.executes == c.session.executes
    ensures c.session.commits <= c'.session.commits <= c.session.commits + if commit then 1 else 0
    ensures c'.session.commits > c.session.commits ==> c.session.tx == Some(x)
  {
    hide Later, LogsOk;
    if c' == c {
      ResolvedLater(c.session, c'.session);
    } else {
      FinishLater(c.session, c'.session, commit, err);
    }
  }

  lemma FinishImplicitLater(c: Core, c': Core, commit: bool, background: bool, err: Option<Error>)
    requires CoreFinishImplicit(c, c', commit, background, err)
    ensures Later(c.session, c'.session) && c'.session.executes == c.session.executes
    ensures c.session.commits <= c'.session.commits <= c.session.commits + if commit then 1 else 0
    ensures c'.session.commits > c.session.commits ==> c.session.tx == None
  {
    hide Later, LogsOk;
    if c' == c {
      ResolvedLater(c.session, c'.session);
    } else {
      FinishLater(c.session, c'.session, commit, err);
    }
  }

  lemma SetDatabaseLater(c: Core, c': Core, database: string, err: Option<Error>)
    requires CoreSetDatabase(c, c', database, err)
    ensures Later(c.session, c'.session)
    ensures c'.session.commits == c.session.commits && c'.session.executes == c.session.executes
  {
    hide Later, LogsOk;
    ResolvedLater(c.session, c'.session);
  }

  lemma CloseLater(a: Adapter, a': Adapter, out: Option<Failure>)
    requires CloseStep(a, a', out)
    ensures Later(a.core.session, a'.core.session)
    ensures a'.core.session.executes == a.core.session.executes && a'.core.session.commits == a.core.session.commits
  {
    hide Later, AbandonActive;
    var c1: Core, e1: Option<Error>, e2: Option<Error> :| AbandonActive(a, c1, e1) && CoreClose(c1, a'.core, e2)
      && a' == a.(core := a'.core, active := None, held := e2 != None && a.held, closed := e2 == None)
      && out == Join(e1, e2);
    AbandonLater(a, c1, e1);
  }

  lemma ResetLater(a: Adapter, a': Adapter, out: Option<Failure>)
    requires ResetStep(a, a', out)
    ensures Later(a.core.session, a'.core.session)
    ensures a'.core.session.executes == a.core.session.executes && a'.core.session.commits == a.core.session.commits
  {
    hide Later, AbandonActive, CoreFinishImplicit, CoreSetDatabase;
    var c1: Core, e1: Option<Error> :| AbandonActive(a, c1, e1)
      && if e1.Some? then a' == a.(core := c1, broken := true) && out == Some(BadConn)
         else ResetIdle(a.(core := c1, active := None), a', out);
    AbandonLater(a, c1, e1);
    if e1 == None {
      var c2: Core, e2: Option<Error> :| CoreFinishImplicit(c1, c2, false, false, e2)
        && (a'.core == c2 || exists e3 :: CoreSetDatabase(c2, a'.core, a.database, e3));
      FinishImplicitLater(c1, c2, false, false, e2);
      if a'.core != c2 {
        var e3 :| CoreSetDatabase(c2, a'.core, a.database, e3);
        SetDatabaseLater(c2, a'.core, a.database, e3);
        LaterChain(c1.session, c2.session, a'.core.session);
      }
      LaterChain(a.core.session, c1.session, a'.core.session);
    }
  }

  lemma ExecStepLater(a: Adapter, a': Adapter, sql: string, out: Option<Failure>)
    requires ExecStep(a, a', sql, out)
    ensures Later(a.core.session, a'.core.session)
    ensures a'.core.session.executes <= a.core.session.executes + 1
    ensures a'.core.session.commits > a.core.session.commits ==> a.active == None && a.core.session.tx == None
  {
    hide Later, CoreFinishImplicit;
    var c1: Core, e1: Option<Error> :| CoreExec(a.core, c1, sql, e1)
      && (a'.core == c1
          || (e1 == None && a.active == None && exists e2 :: CoreFinishImplicit(c1, a'.core, true, true, e2)));
    ExecLater(a.core, c1, sql, e1);
    if a'.core != c1 {
      var e2 :| CoreFinishImplicit(c1, a'.core, true, true, e2);
      FinishImplicitLater(c1, a'.core, true, true, e2);
      LaterChain(a.core.session, c1.session, a'.core.session);
    }
  }

  lemma CommitLater(a: Adapter, a': Adapter, x: nat, out: Option<Failure>)
    requires CommitStep(a, a', x, out)
    ensures Later(a.core.session, a'.core.session) && a'.core.session.executes == a.core.session.executes
    ensures a'.core.session.commits > a.core.session.commits ==> a.core.session.tx == Some(x)
  {
    hide Later, CoreFinishTx;
    var c1: Core, e1: Option<Error> :| CoreFinishTx(a.core, c1, x, true, e1)
      && (a'.core == c1 || exists e2 :: CoreFinishTx(c1, a'.core, x, false, e2));
    FinishTxLater(a.core, c1, x, true, e1);
    if a'.core != c1 {
      var e2 :| CoreFinishTx(c1, a'.core, x, false, e2);
      FinishTxLater(c1, a'.core, x, false, e2);
      LaterChain(a.core.session, c1.session, a'.core.session);
    }
  }

  lemma RollbackLater(a: Adapter, a': Adapter, x: nat, out: Option<Failure>)
    requires RollbackStep(a, a', x, out)
    ensures Later(a.core.session, a'.core.session)
    ensures a'.core.session.executes == a.core.session.executes && a'.core.session.commits == a.core.session.commits
  {
    hide Later, CoreFinishTx;
    var e: Option<Error> :| CoreFinishTx(a.core, a'.core, x, false, e);
    FinishTxLater(a.core, a'.core, x, false, e);
  }

  lemma StepLater(a: Adapter, call: Call, out: Option<Failure>, a': Adapter)
    requires Step(a, call, out, a')
    ensures Later(a.core.session, a'.core.session)
  {
    if a'.core.session == a.core.session {
      ResolvedLater(a.core.session, a'.core.session);
    } else {
      hide Later;
      match call
      case Close => CloseLater(a, a', out);
      case Reset => ResetLater(a, a', out);
      case Exec(sql) => ExecStepLater(a, a', sql, out);
      case Query(sql) =>
        var e :| CoreQuery(a.core, a'.core, sql, e);
        ExecLater(a.core, a'.core, sql, e);
      case Commit(x) => CommitLater(a, a', x, out);
      case Rollback(x) => RollbackLater(a, a', x, out);
      case Begin =>
        var e :| CoreBegin(a.core, a'.core, e);
        ResolvedLater(a.core.session, a'.core.session);
      case _ =>
    }
  }
}
