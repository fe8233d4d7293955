/** What whole runs of driver calls guarantee. */
module AdapterTheorems {
  import opened Basics
  import opened Errors
  import opened Session
  import opened AdapterProtocol
  import opened AdapterRuns
  import opened AdapterHistory

  // ---------------------------------------------------------------- atomicity

  /** No statement is executed on a connection that a failed `Close` has exposed. */
  ghost predicate NeverExposed(states: seq<Adapter>, turns: seq<Turn>) {
    |states| > |turns| && forall i :: 0 <= i < |turns| && (turns[i].call.Exec? || turns[i].call.Query?) ==> !Exposed(states[i])
  }

  lemma {:induction false} RunSteady(states: seq<Adapter>, turns: seq<Turn>, i: nat)
    requires IsRun(states, turns) && NeverExposed(states, turns) && i < |states|
    ensures Steady(states[i])
    decreases i
  {
    if i == 0 {
    } else {
      RunSteady(states, turns, i - 1);
      StepKeeps(states[i - 1], turns[i - 1].call, turns[i - 1].out, states[i]);
    }
  }

  lemma {:induction false} RunUnexposed(states: seq<Adapter>, turns: seq<Turn>, i: nat)
    requires IsRun(states, turns) && NothingAfterFailedClose(turns) && i < |turns|
    ensures Steady(states[i]) && !Exposed(states[i])
    decreases i
  {
    if i == 0 {
    } else {
      RunUnexposed(states, turns, i - 1);
      StepKeeps(states[i - 1], turns[i - 1].call, turns[i - 1].out, states[i]);
    }
  }

  /** The pool's discipline is enough: it never touches a connection again once `Close` was called. */
  lemma PoolNeverExposes(states: seq<Adapter>, turns: seq<Turn>)
    requires IsRun(states, turns) && NothingAfterFailedClose(turns)
    ensures NeverExposed(states, turns)
  {
    forall i | 0 <= i < |turns| && (turns[i].call.Exec? || turns[i].call.Query?) ensures !Exposed(states[i]) {
      RunUnexposed(states, turns, i);
    }
  }

  lemma MemberRanUnder(log: seq<Work>, w: Work)
    requires w in log && w.tx.Some?
    ensures RanUnder(log, w.tx.value)
  {
    var i :| 0 <= i < |log| && log[i] == w;
  }

  /** Once one statement of a transaction is durable, every statement run under it is. */
  lemma AllOrNothing(states: seq<Adapter>, turns: seq<Turn>, i: nat, v: Work, w: Work)
    requires IsRun(states, turns) && NothingAfterFailedClose(turns) && i < |states|
    requires var s := states[i].core.session;
             v in s.committed && w in s.committed + s.pending + s.dropped && v.tx.Some? && w.tx == v.tx
    ensures w in states[i].core.session.committed
  {
    PoolNeverExposes(states, turns);
    RunSteady(states, turns, i);
    var s := states[i].core.session;
    MemberRanUnder(s.committed, v);
    if w in s.pending { MemberRanUnder(s.pending, w); }
    if w in s.dropped { MemberRanUnder(s.dropped, w); }
  }

  /** A statement can split a transaction exactly on an exposed connection that would run it. */
  lemma AtomicityExactly(a: Adapter, call: Call)
    requires Steady(a) && (call.Exec? || call.Query?)
    ensures (exists a', out :: Step(a, call, out, a') && !Atomic(a'.core.session))
            <==> Exposed(a) && a.core.open && a.core.children == 0
  {
    if Exposed(a) && a.core.open && a.core.children == 0 {
      SpentSplits(a, call);
    } else {
      forall a', out | Step(a, call, out, a') ensures Atomic(a'.core.session) {
        if !Exposed(a) {
          StepKeeps(a, call, out, a');
        } else if call.Exec? {
          assert forall c: Core, e: Option<Error> :: CoreExec(a.core, c, call.sql, e) ==> c == a.core && e.Some?;
        } else {
          assert forall c: Core, e: Option<Error> :: CoreQuery(a.core, c, call.sql, e) ==> c.session == a.core.session;
        }
      }
    }
  }

  /** Even a statement that reports an error can be applied under a spent transaction. */
  lemma SpentSplits(a: Adapter, call: Call)
    requires Steady(a) && (call.Exec? || call.Query?)
    requires Exposed(a) && a.core.open && a.core.children == 0
    ensures exists a', out :: Step(a, call, out, a') && !Atomic(a'.core.session)
  {
    var s := a.core.session;
    var s' := s.(nextWork := s.nextWork + 1, executes := s.executes + 1, pending := s.pending + [Work(s.nextWork, call.sql, s.tx)]);
    assert Ran(s, s', call.sql, true);
    RanKeepsWhole(s, s', call.sql, true);
    assert TagsOk(s');
    var a' := a.(core := a.core.(session := s'));
    var error := Sdk(0, Server);
    assert Observe(a', error) == a';
    if call.Exec? {
      assert CoreExec(a.core, a'.core, call.sql, Some(error));
      assert ExecStep(a, a', call.sql, Some(Failed(error)));
    } else {
      assert CoreQuery(a.core, a'.core, call.sql, Some(error));
      assert QueryStep(a, a', call.sql, Some(Failed(error)));
    }
    assert Step(a, call, Some(Failed(error)), a');
  }

  // ---------------------------------------------------------------- the Close that splits

  /** What the caller of `Close` can see: an active transaction with unresolved statements, and nothing else open. */
  predicate Splittable(a: Adapter) {
    && Usable(a) && a.core.open && a.core.children == 0
    && a.active.Some? && RanUnder(a.core.session.pending, a.active.value)
  }

  /** Only the `Close` of a splittable connection can expose it. */
  lemma CloseExposes(a: Adapter, out: Option<Failure>, a': Adapter)
    requires Steady(a) && !Exposed(a) && Step(a, Close, out, a') && Exposed(a')
    ensures Splittable(a) && out.Some? && a'.active == None && a'.core.session.tx == a.active
  {
    StepKeeps(a, Close, out, a');
    var c1: Core, e1: Option<Error>, e2: Option<Error> :| AbandonActive(a, c1, e1) && CoreClose(c1, a'.core, e2)
      && a' == a.(core := a'.core, active := None, held := e2 != None && a.held, closed := e2 == None);
    if a.active.Some? {
      RanUnderConcat(a.core.session.dropped, a.core.session.pending, a.active.value);
    }
  }

  /** The rollback inside `Close` can take effect, report an error, and leave the connection in use. */
  lemma SplittableExposes(a: Adapter)
    requires Steady(a) && Splittable(a)
    ensures exists out, a' :: Step(a, Close, out, a') && Exposed(a') && a'.core.open && a'.core.children == 0
  {
    var s, x := a.core.session, a.active.value;
    var s' := s.(dropped := s.dropped + s.pending, pending := []);
    RanUnderConcat(s.dropped, s.pending, x);
    var a' := a.(core := a.core.(session := s'), active := None);
    var lost := Sdk(1, Server);
    assert RolledBack(s, s', Some(lost));
    assert AbandonActive(a, a'.core, Some(lost));
    assert CoreClose(a'.core, a'.core, Some(Busy));
    assert CloseStep(a, a', Some(Joined(lost, Busy)));
    assert Step(a, Close, Some(Joined(lost, Busy)), a') && Exposed(a');
  }

  /** A `Close` and one more statement can split a transaction exactly when the connection is splittable. */
  lemma CloseSplitsExactly(a: Adapter, call: Call)
    requires Steady(a) && !Exposed(a) && (call.Exec? || call.Query?)
    ensures (exists o1, a1, o2, a2 :: Step(a, Close, o1, a1) && Step(a1, call, o2, a2) && !Atomic(a2.core.session))
            <==> Splittable(a)
  {
    hide Splittable, Exposed, Atomic;
    if Splittable(a) {
      SplittableExposes(a);
      hide Step;
      var o1, a1 :| Step(a, Close, o1, a1) && Exposed(a1) && a1.core.open && a1.core.children == 0;
      StepKeeps(a, Close, o1, a1);
      SpentSplits(a1, call);
    }
    hide Step;
    forall o1, a1, o2, a2 | Step(a, Close, o1, a1) && Step(a1, call, o2, a2) && !Atomic(a2.core.session)
      ensures Splittable(a)
    {
      StepKeeps(a, Close, o1, a1);
      AtomicityExactly(a1, call);
      CloseExposes(a, o1, a1);
    }
  }

  /** No `Close` among the first `n` calls has failed. */
  predicate NoFailedClose(turns: seq<Turn>, n: nat) {
    n <= |turns| && forall i :: 0 <= i < n ==> !FailedClose(turns[i].call, turns[i].out)
  }

  lemma {:induction false} SteadySoFar(states: seq<Adapter>, turns: seq<Turn>, n: nat)
    requires IsRun(states, turns) && NoFailedClose(turns, n)
    ensures Steady(states[n]) && !Exposed(states[n])
  {
    if n == 0 {
    } else {
      SteadySoFar(states, turns, n - 1);
      StepKeeps(states[n - 1], turns[n - 1].call, turns[n - 1].out, states[n]);
    }
  }

  /** In every run, at every state before the first failed `Close`. */
  lemma RunSplitsExactly(states: seq<Adapter>, turns: seq<Turn>, n: nat, call: Call)
    requires IsRun(states, turns) && NoFailedClose(turns, n) && (call.Exec? || call.Query?)
    ensures (exists o1, a1, o2, a2 :: Step(states[n], Close, o1, a1) && Step(a1, call, o2, a2) && !Atomic(a2.core.session))
            <==> Splittable(states[n])
  {
    SteadySoFar(states, turns, n);
    CloseSplitsExactly(states[n], call);
  }

  /** The last call before `n` that turned an unexposed connection into an exposed one. */
  lemma {:induction false} ExposedByClose(states: seq<Adapter>, turns: seq<Turn>, n: nat) returns (k: nat)
    requires IsRun(states, turns) && n < |states|
    requires forall i :: 0 <= i < n && (turns[i].call.Exec? || turns[i].call.Query?) ==> !Exposed(states[i])
    requires Exposed(states[n])
    ensures k < n && turns[k].call == Close && turns[k].out.Some?
    ensures Splittable(states[k])
  {
    RunSteady(states[..n + 1], turns[..n], n - 1);
    StepKeeps(states[n - 1], turns[n - 1].call, turns[n - 1].out, states[n]);
    if Exposed(states[n - 1]) {
      k := ExposedByClose(states, turns, n - 1);
    } else {
      k := n - 1;
      CloseExposes(states[k], turns[k].out, states[n]);
    }
  }

  /** Whatever the caller does: a transaction is split only by a failed `Close` of it and a statement run later. */
  lemma {:induction false} SplitNeedsFailedClose(states: seq<Adapter>, turns: seq<Turn>, n: nat)
    requires IsRun(states, turns) && n < |states| && !Atomic(states[n].core.session)
    ensures exists k, m ::
              && 0 <= k < m < n
              && turns[k].call == Close && turns[k].out.Some? && Splittable(states[k])
              && (turns[m].call.Exec? || turns[m].call.Query?) && Exposed(states[m])
  {
    if m :| 0 <= m < n && (turns[m].call.Exec? || turns[m].call.Query?) && Exposed(states[m]) {
      var first := FirstExposed(states, turns, m);
      var k := ExposedByClose(states, turns, first);
    } else {
      RunSteady(states[..n + 1], turns[..n], n);
    }
  }

  lemma {:induction false} FirstExposed(states: seq<Adapter>, turns: seq<Turn>, m: nat) returns (first: nat)
    requires |states| == |turns| + 1 && m < |turns|
    requires (turns[m].call.Exec? || turns[m].call.Query?) && Exposed(states[m])
    ensures first <= m && (turns[first].call.Exec? || turns[first].call.Query?) && Exposed(states[first])
    ensures forall i :: 0 <= i < first && (turns[i].call.Exec? || turns[i].call.Query?) ==> !Exposed(states[i])
  {
    if i :| 0 <= i < m && (turns[i].call.Exec? || turns[i].call.Query?) && Exposed(states[i]) {
      first := FirstExposed(states, turns, i);
    } else {
      first := m;
    }
  }

  /** Statement A under a new transaction. */
  lemma SplitBegins(a0: Adapter, a1: Adapter, a2: Adapter)
    requires Connected(a0)
    requires var s := a0.core.session;
             a1 == a0.(core := a0.core.(session := s.(tx := Some(0), nextTx := 1)), active := Some(0))
    requires var s := a1.core.session;
             a2 == a1.(core := a1.core.(session := s.(nextWork := 1, executes := 1, pending := [Work(0, "A", Some(0))])))
    ensures Step(a0, Begin, None, a1) && Step(a1, Exec("A"), None, a2)
  {
    assert CoreBegin(a0.core, a1.core, None);
    assert Ran(a1.core.session, a2.core.session, "A", true);
    assert CoreExec(a1.core, a2.core, "A", None);
  }

  /** After the failed `Close`: B runs under the forgotten transaction, its automatic commit finds it, and Commit ends it. */
  lemma SplitEnds(a3: Adapter, a4: Adapter, a5: Adapter)
    requires Usable(a3) && a3.active == None && a3.core.open && a3.core.children == 0
    requires a3.core.session.tx == Some(0) && a3.core.session.pending == [] && 0 !in a3.ended
    requires var s := a3.core.session;
             a4 == a3.(core := a3.core.(session := s.(nextWork := s.nextWork + 1, executes := s.executes + 1,
                                                      pending := [Work(s.nextWork, "B", Some(0))])))
    requires var s := a4.core.session;
             a5 == a4.(core := a4.core.(session := s.(commits := s.commits + 1, committed := s.committed + s.pending,
                                                      pending := [], tx := None)),
                       ended := a4.ended + {0})
    ensures Step(a3, Exec("B"), Some(Failed(Busy)), a4) && Step(a4, Commit(0), None, a5)
  {
    assert Ran(a3.core.session, a4.core.session, "B", true);
    assert CoreExec(a3.core, a4.core, "B", None) && CoreFinishImplicit(a4.core, a4.core, true, true, Some(Busy));
    assert Observe(a4, Busy) == a4;
    assert CoreFinishTx(a4.core, a5.core, 0, true, None);
  }

  /**
    Calls after a failed `Close` do split a transaction: its statement A is dropped, B is durable.
    `Close` forgets the transaction when its rollback failed, without breaking the connection, so B runs
    under it (its automatic commit finds the connection busy) and the driver.Tx can still commit.
   */
  lemma CloseCanSplitATransaction(a0: Adapter)
    requires Connected(a0)
    ensures exists states: seq<Adapter>, turns: seq<Turn> ::
              && IsRun(states, turns) && states[0] == a0
              && (forall i :: 0 <= i < |turns| && turns[i].call.Close? ==> turns[i].out.Some?)
              && Work(0, "A", Some(0)) in states[|turns|].core.session.dropped
              && Work(1, "B", Some(0)) in states[|turns|].core.session.committed
  {
    var A, B := Work(0, "A", Some(0)), Work(1, "B", Some(0));
    var s1 := a0.core.session.(tx := Some(0), nextTx := 1);
    var s2 := s1.(nextWork := 1, executes := 1, pending := [A]);
    var s3 := s2.(dropped := [A], pending := []);
    var s4 := s3.(nextWork := 2, executes := 2, pending := [B]);
    var s5 := s4.(commits := 1, committed := [B], pending := [], tx := None);
    var a1 := a0.(core := a0.core.(session := s1), active := Some(0));
    var a2 := a1.(core := a0.core.(session := s2));
    var a3 := a2.(core := a0.core.(session := s3), active := None);
    var a4 := a3.(core := a0.core.(session := s4));
    var a5 := a4.(core := a0.core.(session := s5), ended := {0});
    var lost := Sdk(1, Server);
    SplitBegins(a0, a1, a2);
    assert Step(a2, Close, Some(Joined(lost, Busy)), a3) by {
      assert AbandonActive(a2, a3.core, Some(lost)) && CoreClose(a3.core, a3.core, Some(Busy));
    }
    SplitEnds(a3, a4, a5);
    hide Step;
    var states := [a0, a1, a2, a3, a4, a5];
    var turns := [Turn(Begin, None), Turn(Exec("A"), None), Turn(Close, Some(Joined(lost, Busy))),
                  Turn(Exec("B"), Some(Failed(Busy))), Turn(Commit(0), None)];
    forall i | 0 <= i < |turns| ensures Step(states[i], turns[i].call, turns[i].out, states[i + 1]) {
      assert i == 0 || i == 1 || i == 2 || i == 3 || i == 4;
    }
    assert IsRun(states, turns);
    assert s5.dropped[0] == A && s5.committed[0] == B;
  }

  // ---------------------------------------------------------------- histories

  lemma {:induction false} RunLater(states: seq<Adapter>, turns: seq<Turn>, i: nat, j: nat)
    requires IsRun(states, turns) && i <= j < |states|
    ensures Later(states[i].core.session, states[j].core.session)
    decreases j - i
  {
    if i == j {
      ResolvedLater(states[i].core.session, states[j].core.session);
    } else {
      hide Later, Step;
      RunLater(states, turns, i, j - 1);
      StepLater(states[j - 1], turns[j - 1].call, turns[j - 1].out, states[j]);
      LaterChain(states[i].core.session, states[j - 1].core.session, states[j].core.session);
    }
  }

  /** In every run whatever: durable work is in the order it was issued, and no dropped work is durable. */
  lemma DurableInIssueOrder(states: seq<Adapter>, turns: seq<Turn>, i: nat)
    requires IsRun(states, turns) && i < |states|
    ensures LogsOk(states[i].core.session)
  {
    RunLater(states, turns, 0, i);
  }

  /** A commit is issued under a live transaction only by that transaction's own `Commit`. */
  lemma OnlyItsOwnCommit(a: Adapter, call: Call, out: Option<Failure>, a': Adapter)
    requires Step(a, call, out, a') && a.core.session.tx.Some?
    requires a'.core.session.commits > a.core.session.commits || a'.core.session.committed != a.core.session.committed
    ensures call == Commit(a.core.session.tx.value)
  {
    StepLater(a, call, out, a');
    match call
    case Close => CloseLater(a, a', out);
    case Reset => ResetLater(a, a', out);
    case Exec(sql) => ExecStepLater(a, a', sql, out);
    case Query(sql) =>
      var e :| CoreQuery(a.core, a'.core, sql, e);
      ExecLater(a.core, a'.core, sql, e);
    case Commit(x) => CommitLater(a, a', x, out);
    case Rollback(x) => RollbackLater(a, a', x, out);
    case _ =>
  }

  // ---------------------------------------------------------------- pool reuse

  /** The connection without its history: logs, counters, and the driver transactions that have ended. */
  function Forget(a: Adapter): Adapter {
    a.(ended := {},
       core := a.core.(session := a.core.session.(committed := [], dropped := [],
                                                  nextWork := 0, nextTx := 0, executes := 0, commits := 0)))
  }

  lemma ResetSucceeds(a: Adapter, a': Adapter)
    requires Step(a, Reset, None, a')
    ensures Fresh(a') && a'.database == a.database && a'.core.session.committed == a.core.session.committed
    ensures Later(a.core.session, a'.core.session)
  {
    StepLater(a, Reset, None, a');
    ResetLater(a, a', None);
    hide Later;
    var c1: Core, e1: Option<Error> :| AbandonActive(a, c1, e1) && e1 == None
      && ResetIdle(a.(core := c1, active := None), a', None);
    var c2: Core, e2: Option<Error> :| CoreFinishImplicit(c1, c2, false, false, e2)
      && (e2 == None || NoDatabaseSelected(e2.value))
      && CoreSetDatabase(c2, a'.core, a.database, None) && a' == a.(core := a'.core, active := None);
  }

  /** From any state at all, a session reset that returns nil gives what a new connection gives. */
  lemma ResetRefinesConnect(a: Adapter, a': Adapter, c: Adapter)
    requires Step(a, Reset, None, a') && Connected(c) && c.database == a.database
    ensures Forget(a') == Forget(c)
  {
    ResetSucceeds(a, a');
  }

  /** Work left pending when a connection went back to the pool never becomes durable after a successful reset. */
  lemma PendingBeforeResetIsGone(states: seq<Adapter>, turns: seq<Turn>, i: nat, j: nat, w: Work)
    requires IsRun(states, turns) && i < j < |states|
    requires turns[i] == Turn(Reset, None) && w in states[i].core.session.pending
    ensures w !in states[j].core.session.committed && w !in states[j].core.session.pending
  {
    var s, s', later := states[i].core.session, states[i + 1].core.session, states[j].core.session;
    DurableInIssueOrder(states, turns, i);
    DurableInIssueOrder(states, turns, j);
    RunLater(states, turns, i + 1, j);
    assert Step(states[i], turns[i].call, turns[i].out, states[i + 1]);
    ResetSucceeds(states[i], states[i + 1]);
    OneLogOnly(s.committed, s.pending, s.nextWork, w);
    assert w in s'.dropped;
    OneLogOnly(later.dropped, later.pending, later.nextWork, w);
    NotBoth(later.committed, later.dropped, w);
  }

  lemma OneLogOnly(log: seq<Work>, pending: seq<Work>, bound: nat, w: Work)
    requires Increasing(log + pending, bound)
    ensures w in log ==> w !in pending
  {
    if w in log {
      var c :| 0 <= c < |log| && log[c] == w;
      forall p | 0 <= p < |pending| ensures pending[p] != w {
        assert (log + pending)[c].id < (log + pending)[|log| + p].id;
      }
    }
  }

  lemma NotBoth(log: seq<Work>, other: seq<Work>, w: Work)
    requires Disjoint(log, other)
    ensures w in log ==> w !in other
  {
  }

  // ---------------------------------------------------------------- retries

  /** A call that says "retry me" has issued neither an execution nor a commit. */
  lemma BadConnIsSafe(a: Adapter, call: Call, a': Adapter)
    requires Step(a, call, Some(BadConn), a')
    ensures a'.core.session.executes == a.core.session.executes
    ensures a'.core.session.commits == a.core.session.commits
    ensures a'.core.session.committed == a.core.session.committed
  {
    StepLater(a, call, Some(BadConn), a');
    if call.Reset? && a' != a { ResetLater(a, a', Some(BadConn)); }
  }

  /** One try of a statement on some connection. */
  datatype Attempt = Attempt(before: Adapter, call: Call, out: Option<Failure>, after: Adapter)

  function Issued(tries: seq<Attempt>): int {
    if tries == [] then 0
    else tries[0].after.core.session.executes - tries[0].before.core.session.executes + Issued(tries[1..])
  }

  /** Retrying exactly on `driver.ErrBadConn`, on any connections in any states, executes a statement at most once. */
  lemma {:induction false} AtMostOnce(tries: seq<Attempt>)
    requires forall i :: 0 <= i < |tries| ==>
               && (tries[i].call.Exec? || tries[i].call.Query?)
               && Step(tries[i].before, tries[i].call, tries[i].out, tries[i].after)
    requires forall i :: 0 <= i < |tries| - 1 ==> tries[i].out == Some(BadConn)
    ensures 0 <= Issued(tries) <= 1
    ensures tries != [] && tries[|tries| - 1].out == Some(BadConn) ==> Issued(tries) == 0
    ensures tries != [] && tries[|tries| - 1].out == None && tries[|tries| - 1].call.Exec? ==> Issued(tries) == 1
  {
    if tries == [] {
    } else {
      var a := tries[0];
      AttemptIssues(a);
      AtMostOnce(tries[1..]);
      if |tries| > 1 {
        assert tries[1..][|tries| - 2] == tries[|tries| - 1];
        BadConnIsSafe(a.before, a.call, a.after);
      }
    }
  }

  lemma AttemptIssues(t: Attempt)
    requires (t.call.Exec? || t.call.Query?) && Step(t.before, t.call, t.out, t.after)
    ensures var n := t.after.core.session.executes - t.before.core.session.executes;
            && 0 <= n <= 1
            && (t.out == Some(BadConn) ==> n == 0)
            && (t.out == None && t.call.Exec? ==> n == 1)
  {
    StepLater(t.before, t.call, t.out, t.after);
    if t.after != t.before {
      match t.call
      case Exec(sql) =>
        ExecStepLater(t.before, t.after, sql, t.out);
      case Query(sql) =>
        var e :| CoreQuery(t.before.core, t.after.core, sql, e);
        ExecLater(t.before.core, t.after.core, sql, e);
      case _ =>
    }
  }

  // ---------------------------------------------------------------- automatic commit

  /** Outside a transaction a successful Exec makes durable what was pending, then its own statement. */
  lemma AutomaticCommit(a: Adapter, sql: string, a': Adapter)
    requires Step(a, Exec(sql), None, a') && a.active == None
    ensures var s, s' := a.core.session, a'.core.session;
            && s'.committed == s.committed + s.pending + [Work(s.nextWork, sql, None)]
            && s'.pending == [] && s'.dropped == s.dropped
            && s'.executes == s.executes + 1 && s'.commits == s.commits + 1
  {
    var c1: Core :| CoreExec(a.core, c1, sql, None) && CoreFinishImplicit(c1, a'.core, true, true, None);
    var s := a.core.session;
    assert s.committed + (s.pending + [Work(s.nextWork, sql, None)]) == s.committed + s.pending + [Work(s.nextWork, sql, None)];
  }

  /** Inside a transaction an Exec, successful or not, commits nothing; a successful one adds its statement to the transaction. */
  lemma NoCommitInside(a: Adapter, sql: string, out: Option<Failure>, a': Adapter)
    requires Step(a, Exec(sql), out, a') && a.active.Some? && ActiveIsLive(a)
    ensures var s, s' := a.core.session, a'.core.session;
            && s'.committed == s.committed && s'.commits == s.commits && s'.dropped == s.dropped
            && (out == None ==> s'.pending == s.pending + [Work(s.nextWork, sql, a.active)])
  {
  }

  /**
    No cancellation separates an execution from its commit: when no commit was issued, the execution itself
    failed or never happened, and the caller was told.
   */
  lemma NoExecutionWithoutCommit(a: Adapter, sql: string, out: Option<Failure>, a': Adapter)
    requires Step(a, Exec(sql), out, a') && a.active == None && a.core.session.tx == None
    ensures a'.core.session.commits == a.core.session.commits ==>
              || (a' == a && out.Some?)
              || (exists e :: CoreExec(a.core, a'.core, sql, Some(e)) && out == Some(Failed(e)))
  {
    if Usable(a) && out != Some(Rejected) {
      var c1: Core, e1: Option<Error> :| CoreExec(a.core, c1, sql, e1)
        && match e1
           case Some(error) => a' == Observe(a.(core := c1), error) && out == Some(Failed(error))
           case None => exists e2 :: CoreFinishImplicit(c1, a'.core, true, true, e2);
      if e1 == None {
        var e2 :| CoreFinishImplicit(c1, a'.core, true, true, e2);
        assert Free(c1);
      }
    }
  }

  // ---------------------------------------------------------------- reported errors

  /**
    An `Exec` that reports an error can have made its statement durable at once exactly when it had to commit
    by itself: the execution succeeds and the commit takes effect but reports an error.
   */
  lemma FailedExecIsDurableExactly(a: Adapter, sql: string)
    requires LogsOk(a.core.session)
    ensures (exists f: Failure, a' :: Step(a, Exec(sql), Some(f), a')
               && Work(a.core.session.nextWork, sql, a.core.session.tx) in a'.core.session.committed)
            <==> Usable(a) && a.active == None && Free(a.core)
  {
    var s := a.core.session;
    var w := Work(s.nextWork, sql, s.tx);
    if Usable(a) && a.active == None && Free(a.core) {
      var ran := s.(nextWork := s.nextWork + 1, executes := s.executes + 1, pending := s.pending + [w]);
      ExecCommits(a, sql, ran);
    }
    assert w !in s.committed by {
      assert forall i :: 0 <= i < |s.committed| ==> (s.committed + s.pending)[i] == s.committed[i];
    }
    forall f: Failure, a' | Step(a, Exec(sql), Some(f), a') && w in a'.core.session.committed
      ensures Usable(a) && a.active == None && Free(a.core)
    {
      CommitsGuard(a, Exec(sql), Some(f), a');
    }
  }

  /** The execution succeeds and its automatic commit takes effect, reporting an error. */
  lemma ExecCommits(a: Adapter, sql: string, ran: Session)
    requires Usable(a) && a.active == None && Free(a.core) && Ran(a.core.session, ran, sql, true)
    ensures exists f: Failure, a' :: Step(a, Exec(sql), Some(f), a') && a'.core.session.committed == ran.committed + ran.pending
  {
    var c1 := a.core.(session := ran);
    var c2 := c1.(session := ran.(commits := ran.commits + 1, committed := ran.committed + ran.pending, pending := []));
    var lost := Sdk(1, Server);
    assert CoreExec(a.core, c1, sql, None);
    assert CoreFinishImplicit(c1, c2, true, true, Some(lost));
    var a' := a.(core := c2);
    assert Observe(a', lost) == a';
    assert ExecStep(a, a', sql, Some(Failed(lost)));
    assert Step(a, Exec(sql), Some(Failed(lost)), a');
  }

  /** The calls that can commit: an `Exec` outside transactions, and the `Commit` of the live transaction. */
  predicate Commits(a: Adapter, call: Call) {
    || (call.Exec? && Usable(a) && a.active == None && Free(a.core))
    || (&& call.Commit? && a.core.session.tx == Some(call.tx) && call.tx !in a.ended
        && a.core.open && a.core.children == 0)
  }

  /** No other call makes anything durable. */
  lemma CommitsGuard(a: Adapter, call: Call, out: Option<Failure>, a': Adapter)
    requires Step(a, call, out, a') && a'.core.session.committed != a.core.session.committed
    ensures Commits(a, call)
  {
    StepLater(a, call, out, a');
    match call
    case Close => CloseLater(a, a', out);
    case Reset => ResetLater(a, a', out);
    case Exec(sql) =>
      ExecStepLater(a, a', sql, out);
    case Query(sql) =>
      var e :| CoreQuery(a.core, a'.core, sql, e);
      ExecLater(a.core, a'.core, sql, e);
    case Commit(x) => CommitLater(a, a', x, out);
    case Rollback(x) => RollbackLater(a, a', x, out);
    case _ =>
  }

  /** Unresolved work, of failed statements too, can become durable by the next call exactly when that call commits. */
  lemma PendingBecomesDurableExactly(a: Adapter, call: Call, w: Work)
    requires w in a.core.session.pending && w !in a.core.session.committed
    ensures (exists out, a' :: Step(a, call, out, a') && w in a'.core.session.committed) <==> Commits(a, call)
  {
    var s := a.core.session;
    if Commits(a, call) {
      match call
      case Exec(sql) =>
        var ran := s.(nextWork := s.nextWork + 1, executes := s.executes + 1,
                      pending := s.pending + [Work(s.nextWork, sql, s.tx)]);
        ExecCommits(a, sql, ran);
      case Commit(x) =>
        var s' := s.(commits := s.commits + 1, committed := s.committed + s.pending, pending := [], tx := None);
        var c' := a.core.(session := s');
        assert CoreFinishTx(a.core, c', x, true, None);
        var a' := FinishTransaction(a.(core := c', ended := a.ended + {x}), x, false, true);
        assert CommitStep(a, a', x, None);
        assert Step(a, call, None, a');
      case _ =>
    }
    forall out, a' | Step(a, call, out, a') && w in a'.core.session.committed ensures Commits(a, call) {
      CommitsGuard(a, call, out, a');
    }
  }

  /** In every run, work becomes durable during a call that commits, and was pending until then. */
  lemma {:induction false} DurableByACommit(states: seq<Adapter>, turns: seq<Turn>, i: nat, j: nat, w: Work)
    requires IsRun(states, turns) && i < j < |states|
    requires w in states[i].core.session.pending && w in states[j].core.session.committed
    ensures exists k :: i <= k < j && Commits(states[k], turns[k].call)
              && w in states[k].core.session.pending && w in states[k + 1].core.session.committed
    decreases j - i
  {
    var s := states[i].core.session;
    DurableInIssueOrder(states, turns, i);
    DurableInIssueOrder(states, turns, j);
    OneLogOnly(s.committed, s.pending, s.nextWork, w);
    var next := states[i + 1].core.session;
    StepLater(states[i], turns[i].call, turns[i].out, states[i + 1]);
    if w in next.committed {
      CommitsGuard(states[i], turns[i].call, turns[i].out, states[i + 1]);
    } else {
      RunLater(states, turns, i + 1, j);
      if w in next.dropped { NotBoth(states[j].core.session.committed, states[j].core.session.dropped, w); }
      DurableByACommit(states, turns, i + 1, j, w);
    }
  }

  /** A statement whose automatic commit failed stays pending, and a later success on the same session makes it durable. */
  lemma FailedExecMayBecomeDurable(a0: Adapter)
    requires Connected(a0)
    ensures exists a1, a2, out: Failure ::
              && Step(a0, Exec("A"), Some(out), a1) && Step(a1, Exec("B"), None, a2)
              && Work(0, "A", None) in a2.core.session.committed
  {
    var s0 := a0.core.session;
    var A, B := Work(0, "A", None), Work(1, "B", None);
    var ran := s0.(nextWork := 1, executes := 1, pending := [A]);
    var s1 := ran.(commits := 1);
    var more := s1.(nextWork := 2, executes := 2, pending := [A, B]);
    var s2 := more.(commits := 2, committed := [A, B], pending := []);
    var a1 := a0.(core := a0.core.(session := s1));
    var a2 := a0.(core := a0.core.(session := s2));
    var lost := Sdk(1, Server);
    assert Ran(s0, ran, "A", true);
    assert CoreExec(a0.core, a0.core.(session := ran), "A", None);
    assert CoreFinishImplicit(a0.core.(session := ran), a1.core, true, true, Some(lost));
    assert Observe(a1, lost) == a1;
    assert Step(a0, Exec("A"), Some(Failed(lost)), a1);
    assert Ran(s1, more, "B", true);
    assert CoreExec(a1.core, a0.core.(session := more), "B", None);
    assert CoreFinishImplicit(a0.core.(session := more), a2.core, true, true, None);
    assert Step(a1, Exec("B"), None, a2);
    assert s2.committed[0] == A;
  }
}
