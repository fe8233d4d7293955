/** What every run of driver calls on one adapter connection keeps. */
module AdapterRuns {
  import opened Basics
  import opened Errors
  import opened Session
  import opened AdapterProtocol

  // ---------------------------------------------------------------- the session invariant

  predicate Increasing(log: seq<Work>, bound: nat) {
    && (forall i, j :: 0 <= i < j < |log| ==> log[i].id < log[j].id)
    && (forall i :: 0 <= i < |log| ==> log[i].id < bound)
  }

  predicate Disjoint(log: seq<Work>, other: seq<Work>) {
    forall i, j :: 0 <= i < |log| && 0 <= j < |other| ==> log[i].id != other[j].id
  }

  /** Work is durable in the order it was issued, and dropped work is not durable. */
  predicate LogsOk(s: Session) {
    && Increasing(s.committed + s.pending, s.nextWork)
    && Increasing(s.dropped + s.pending, s.nextWork)
    && Disjoint(s.committed, s.dropped)
  }

  predicate RanUnder(log: seq<Work>, x: nat) { exists i :: 0 <= i < |log| && log[i].tx == Some(x) }

  /** All statements of a transaction share one fate: durable, pending or dropped. */
  ghost predicate Atomic(s: Session) {
    forall x ::
      && (RanUnder(s.committed, x) ==> !RanUnder(s.pending, x) && !RanUnder(s.dropped, x))
      && (RanUnder(s.dropped, x) ==> !RanUnder(s.pending, x))
  }

  /** The live transaction already has resolved work: its last commit or rollback took effect but reported an error. */
  predicate Spent(s: Session) {
    s.tx.Some? && (RanUnder(s.committed, s.tx.value) || RanUnder(s.dropped, s.tx.value))
  }

  predicate TagsOk(s: Session) {
    && (forall i :: 0 <= i < |s.pending| && s.pending[i].tx.Some? ==> s.pending[i].tx == s.tx)
    && (forall i :: 0 <= i < |s.committed| && s.committed[i].tx.Some? ==> s.committed[i].tx.value < s.nextTx)
    && (forall i :: 0 <= i < |s.dropped| && s.dropped[i].tx.Some? ==> s.dropped[i].tx.value < s.nextTx)
    && (s.tx.Some? ==> s.tx.value < s.nextTx)
  }

  ghost predicate Whole(s: Session) { TagsOk(s) && Atomic(s) }

  // ---------------------------------------------------------------- one session step

  lemma RanKeepsLogs(s: Session, s': Session, sql: string, applied: bool)
    requires LogsOk(s) && Ran(s, s', sql, applied)
    ensures LogsOk(s')
  {
    assert s'.committed + s'.pending == s.committed + s.pending + s'.pending[|s.pending|..];
    assert s'.dropped + s'.pending == s.dropped + s.pending + s'.pending[|s.pending|..];
  }

  lemma Halves(log: seq<Work>, more: seq<Work>, bound: nat)
    requires Increasing(log + more, bound)
    ensures Increasing(log, bound) && Disjoint(log, more)
  {
    var all := log + more;
    assert forall i :: 0 <= i < |log| ==> all[i] == log[i];
    forall i, j | 0 <= i < |log| && 0 <= j < |more| ensures log[i].id != more[j].id {
      assert all[i].id < all[|log| + j].id;
    }
  }

  lemma DisjointConcat(a: seq<Work>, b: seq<Work>, other: seq<Work>)
    requires Disjoint(a, other) && Disjoint(b, other)
    ensures Disjoint(a + b, other) && Disjoint(other, a + b)
  {
  }

  /** Resolving all pending work at once keeps the logs in order and apart. */
  lemma ApplyKeepsLogs(s: Session, s': Session)
    requires LogsOk(s)
    requires s'.nextWork == s.nextWork && s'.pending == []
    requires (s'.committed == s.committed + s.pending && s'.dropped == s.dropped)
          || (s'.dropped == s.dropped + s.pending && s'.committed == s.committed)
    ensures LogsOk(s')
  {
    Halves(s.committed, s.pending, s.nextWork);
    Halves(s.dropped, s.pending, s.nextWork);
    assert Disjoint(s.pending, s.committed) && Disjoint(s.pending, s.dropped);
    assert Disjoint(s.dropped, s.committed);
    DisjointConcat(s.committed, s.pending, s.dropped);
    DisjointConcat(s.dropped, s.pending, s.committed);
    assert s'.committed + s'.pending == s'.committed && s'.dropped + s'.pending == s'.dropped;
    hide Increasing, Disjoint;
  }

  lemma RanUnderConcat(a: seq<Work>, b: seq<Work>, x: nat)
    ensures RanUnder(a + b, x) <==> RanUnder(a, x) || RanUnder(b, x)
  {
    if RanUnder(a, x) {
      var i :| 0 <= i < |a| && a[i].tx == Some(x);
      assert (a + b)[i].tx == Some(x);
    }
    if RanUnder(b, x) {
      var i :| 0 <= i < |b| && b[i].tx == Some(x);
      assert (a + b)[|a| + i].tx == Some(x);
    }
  }

  /** Resolving all pending work at once keeps transactions whole. */
  lemma ApplyKeepsWhole(s: Session, s': Session)
    requires Whole(s)
    requires s'.nextTx == s.nextTx && s'.pending == [] && (s'.tx == s.tx || s'.tx == None)
    requires (s'.committed == s.committed + s.pending && s'.dropped == s.dropped)
          || (s'.dropped == s.dropped + s.pending && s'.committed == s.committed)
    ensures Whole(s')
  {
    forall x: nat
      ensures RanUnder(s'.committed, x) ==> !RanUnder(s'.pending, x) && !RanUnder(s'.dropped, x)
      ensures RanUnder(s'.dropped, x) ==> !RanUnder(s'.pending, x)
    {
      RanUnderConcat(s.committed, s.pending, x);
      RanUnderConcat(s.dropped, s.pending, x);
    }
  }

  /** A statement keeps transactions whole unless it runs under a spent one. */
  lemma RanKeepsWhole(s: Session, s': Session, sql: string, applied: bool)
    requires Whole(s) && Ran(s, s', sql, applied)
    ensures Whole(s') <==> !(Spent(s) && applied)
  {
    var added := s'.pending[|s.pending|..];
    assert s'.pending == s.pending + added;
    if s.tx.Some? {
      RanUnderConcat(s.pending, added, s.tx.value);
      if applied { assert added[0].tx == s.tx; }
    }
    forall x: nat ensures RanUnder(s'.pending, x) <==> RanUnder(s.pending, x) || (applied && s.tx == Some(x)) {
      RanUnderConcat(s.pending, added, x);
      if applied { assert added[0].tx == s.tx; }
    }
  }

  lemma BeganKeepsWhole(s: Session, s': Session, err: Option<Error>)
    requires Whole(s) && Began(s, s', err) && s.tx == None
    ensures Whole(s') && !Spent(s')
  {
  }

  // ---------------------------------------------------------------- core operations

  ghost predicate Sound(s: Session) { LogsOk(s) && Whole(s) }

  lemma FinishTxKeeps(c: Core, c': Core, x: nat, commit: bool, err: Option<Error>)
    requires Sound(c.session) && CoreFinishTx(c, c', x, commit, err)
    ensures Sound(c'.session)
    ensures if err == None then c.session.tx == Some(x) && c'.session.tx == None else c'.session.tx == c.session.tx
    ensures c'.open == c.open && c'.children == c.children && c'.session.database == c.session.database
  {
    if c'.session.pending != c.session.pending {
      ApplyKeepsLogs(c.session, c'.session);
      ApplyKeepsWhole(c.session, c'.session);
    } else if err == None {
      ApplyKeepsLogs(c.session, c'.session);
      ApplyKeepsWhole(c.session, c'.session);
    }
  }

  lemma FinishImplicitKeeps(c: Core, c': Core, commit: bool, background: bool, err: Option<Error>)
    requires Sound(c.session) && CoreFinishImplicit(c, c', commit, background, err)
    ensures Sound(c'.session) && c'.session.tx == c.session.tx
    ensures c.session.tx.Some? ==> c' == c
    ensures c'.open == c.open && c'.children == c.children && c'.session.database == c.session.database
  {
    if c'.session.pending != c.session.pending || err == None {
      ApplyKeepsLogs(c.session, c'.session);
      ApplyKeepsWhole(c.session, c'.session);
    }
  }

  lemma ExecKeeps(c: Core, c': Core, sql: string, err: Option<Error>)
    requires Sound(c.session) && !Spent(c.session) && CoreExec(c, c', sql, err)
    ensures Sound(c'.session) && !Spent(c'.session) && c'.session.tx == c.session.tx
  {
    if c' != c {
      var applied :| Ran(c.session, c'.session, sql, applied);
      RanKeepsLogs(c.session, c'.session, sql, applied);
      RanKeepsWhole(c.session, c'.session, sql, applied);
    }
  }

  lemma QueryKeeps(c: Core, c': Core, sql: string, err: Option<Error>)
    requires Sound(c.session) && !Spent(c.session) && CoreQuery(c, c', sql, err)
    ensures Sound(c'.session) && !Spent(c'.session) && c'.session.tx == c.session.tx
  {
    if c'.session != c.session {
      var applied :| Ran(c.session, c'.session, sql, applied);
      RanKeepsLogs(c.session, c'.session, sql, applied);
      RanKeepsWhole(c.session, c'.session, sql, applied);
    }
  }

  // ---------------------------------------------------------------- driver calls

  /** A non-nil `activeTx` is the live core transaction. (Not conversely: a failed `Close` forgets it.) */
  predicate ActiveIsLive(a: Adapter) { a.active.Some? ==> a.core.session.tx == a.active }

  ghost predicate Steady(a: Adapter) {
    && Sound(a.core.session)
    && ActiveIsLive(a)
    && (a.held <==> !a.closed)
    && (a.closed ==> !a.core.open)
  }

  predicate FailedClose(call: Call, out: Option<Failure>) { call == Close && out != None }

  /** A spent transaction sits under a connection that still accepts statements. */
  predicate Exposed(a: Adapter) { Usable(a) && Spent(a.core.session) }

  /** One call keeps `Steady`, and only a failed `Close` can expose a connection. */
  ghost predicate KeptBy(a: Adapter, call: Call, out: Option<Failure>, a': Adapter) {
    && Steady(a')
    && (Exposed(a') ==> Exposed(a) || FailedClose(call, out))
  }

  lemma CloseKeeps(a: Adapter, a': Adapter, out: Option<Failure>)
    requires Steady(a) && !a.closed && CloseStep(a, a', out)
    ensures KeptBy(a, Close, out, a')
  {
    var c1: Core, e1: Option<Error>, e2: Option<Error> :| AbandonActive(a, c1, e1) && CoreClose(c1, a'.core, e2)
      && a' == a.(core := a'.core, active := None, held := e2 != None && a.held, closed := e2 == None)
      && out == Join(e1, e2);
    if a.active.Some? { FinishTxKeeps(a.core, c1, a.active.value, false, e1); }
  }

  lemma BeginKeeps(a: Adapter, a': Adapter, out: Option<Failure>)
    requires Steady(a) && BeginStep(a, a', out)
    ensures KeptBy(a, Begin, out, a')
  {
    if a.active == None {
      var c: Core, e: Option<Error> :| CoreBegin(a.core, c, e) && a'.core == c
        && (e == None ==> a' == a.(core := c, active := Some(a.core.session.nextTx)))
        && (e.Some? ==> a' == Observe(a.(core := c), e.value));
      if e == None { BeganKeepsWhole(a.core.session, c.session, e); }
    }
  }

  lemma SetDatabaseKeeps(c: Core, c': Core, database: string, err: Option<Error>)
    requires Sound(c.session) && CoreSetDatabase(c, c', database, err)
    ensures Sound(c'.session) && c'.session.tx == c.session.tx && c'.open == c.open
    ensures c.session.tx.Some? ==> c' == c
    ensures c'.session.committed == c.session.committed && c'.session.dropped == c.session.dropped
    ensures c'.session.pending == c.session.pending
  {
  }

  lemma ResetIdleKeeps(a: Adapter, a': Adapter, out: Option<Failure>)
    requires Steady(a) && a.active == None && ResetIdle(a, a', out)
    ensures KeptBy(a, Reset, out, a')
  {
    hide Sound, CoreFinishImplicit, CoreSetDatabase;
    var c2: Core, e2: Option<Error> :| CoreFinishImplicit(a.core, c2, false, false, e2)
      && if e2.Some? && !NoDatabaseSelected(e2.value) then a' == a.(core := c2, broken := true) && out == Some(BadConn)
         else
           exists c3: Core, e3: Option<Error> ::
             && CoreSetDatabase(c2, c3, a.database, e3)
             && if e3.Some? then a' == a.(core := c3, broken := true) && out == Some(BadConn)
                else a' == a.(core := c3) && out == None;
    FinishImplicitKeeps(a.core, c2, false, false, e2);
    if a'.core != c2 {
      var e3: Option<Error> :| CoreSetDatabase(c2, a'.core, a.database, e3);
      SetDatabaseKeeps(c2, a'.core, a.database, e3);
    }
  }

  lemma ResetKeeps(a: Adapter, a': Adapter, out: Option<Failure>)
    requires Steady(a) && ResetStep(a, a', out)
    ensures KeptBy(a, Reset, out, a')
  {
    var c1: Core, e1: Option<Error> :| AbandonActive(a, c1, e1)
      && if e1.Some? then a' == a.(core := c1, broken := true) && out == Some(BadConn)
         else ResetIdle(a.(core := c1, active := None), a', out);
    if a.active.Some? { FinishTxKeeps(a.core, c1, a.active.value, false, e1); }
    if e1 == None { ResetIdleKeeps(a.(core := c1, active := None), a', out); }
  }

  lemma ExecStepKeeps(a: Adapter, a': Adapter, sql: string, out: Option<Failure>)
    requires Steady(a) && !Spent(a.core.session) && !a.closed && ExecStep(a, a', sql, out)
    ensures KeptBy(a, Exec(sql), out, a')
  {
    hide Sound, CoreExec, CoreFinishImplicit;
    var c1: Core, e1: Option<Error> :| CoreExec(a.core, c1, sql, e1)
      && match e1
         case Some(error) => a' == Observe(a.(core := c1), error) && out == Some(Failed(error))
         case None =>
           if a.active.Some? then a' == a.(core := c1) && out == None
           else
             exists c2: Core, e2: Option<Error> ::
               && CoreFinishImplicit(c1, c2, true, true, e2)
               && match e2
                  case Some(error) => a' == Observe(a.(core := c2), error) && out == Some(Failed(error))
                  case None => a' == a.(core := c2) && out == None;
    ExecKeeps(a.core, c1, sql, e1);
    if e1 == None && a.active == None {
      var c2: Core, e2: Option<Error> :| CoreFinishImplicit(c1, c2, true, true, e2) && a'.core == c2
        && (e2.Some? ==> a' == Observe(a.(core := c2), e2.value)) && (e2 == None ==> a' == a.(core := c2));
      FinishImplicitKeeps(c1, c2, true, true, e2);
    }
  }

  lemma CommitKeeps(a: Adapter, a': Adapter, x: nat, out: Option<Failure>)
    requires Steady(a) && CommitStep(a, a', x, out)
    ensures KeptBy(a, Commit(x), out, a')
  {
    var c1: Core, e1: Option<Error> :| CoreFinishTx(a.core, c1, x, true, e1)
      && match e1
         case None => a' == FinishTransaction(a.(core := c1, ended := a.ended + {x}), x, false, true) && out == None
         case Some(error) =>
           exists c2: Core, e2: Option<Error> ::
             && CoreFinishTx(c1, c2, x, false, e2)
             && a' == FinishTransaction(a.(core := c2, ended := a.ended + {x}), x, true, e2 == None)
             && out == Join(e1, e2);
    FinishTxKeeps(a.core, c1, x, true, e1);
    if e1.Some? {
      var c2: Core, e2: Option<Error> :| CoreFinishTx(c1, c2, x, false, e2)
        && a' == FinishTransaction(a.(core := c2, ended := a.ended + {x}), x, true, e2 == None);
      FinishTxKeeps(c1, c2, x, false, e2);
    }
  }

  lemma RollbackKeeps(a: Adapter, a': Adapter, x: nat, out: Option<Failure>)
    requires Steady(a) && RollbackStep(a, a', x, out)
    ensures KeptBy(a, Rollback(x), out, a')
  {
    var c: Core, e: Option<Error> :| CoreFinishTx(a.core, c, x, false, e)
      && a' == FinishTransaction(a.(core := c, ended := a.ended + {x}), x, e.Some?, e == None);
    FinishTxKeeps(a.core, c, x, false, e);
  }

  lemma StepKeeps(a: Adapter, call: Call, out: Option<Failure>, a': Adapter)
    requires Steady(a) && (call.Exec? || call.Query? ==> !Exposed(a)) && Step(a, call, out, a')
    ensures KeptBy(a, call, out, a')
  {
    if a' != a {
      match call
      case Close => CloseKeeps(a, a', out);
      case Begin => BeginKeeps(a, a', out);
      case Reset => ResetKeeps(a, a', out);
      case Exec(sql) => ExecStepKeeps(a, a', sql, out);
      case Query(sql) =>
        var c: Core, e: Option<Error> :| CoreQuery(a.core, c, sql, e) && a'.core == c
          && (e.Some? ==> a' == Observe(a.(core := c), e.value)) && (e == None ==> a' == a.(core := c));
        QueryKeeps(a.core, c, sql, e);
      case Commit(x) => CommitKeeps(a, a', x, out);
      case Rollback(x) => RollbackKeeps(a, a', x, out);
      case _ =>
    }
  }
}
