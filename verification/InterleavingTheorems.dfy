/** What the invariant of `InterleavingSafety` means for every run of the concurrent connection. */
module InterleavingTheorems {
  import opened Basics
  import opened Interleaving
  import opened InterleavingSafety
  import opened InterleavingSteps
  import opened InterleavingRuns

  function Trace(s: State): seq<Event> { s.memory.trace }

  // ---------------------------------------------------------------- results carry their own metrics

  /**
    In every interleaving, the affected-row count and the last row id put into a Result are read with
    no native call of any goroutine between them and the execution they belong to.
   */
  lemma ResultsAreExclusive(run: seq<State>, i: nat, k: nat)
    requires IsRun(run) && i < |run| && k < |Trace(run[i])|
    ensures var tr := Trace(run[i]);
            && (tr[k].call == ResultAffected ==> k >= 1 && tr[k - 1] == Event(tr[k].tid, Execute))
            && (tr[k].call == ResultLastId ==>
                  && k >= 2 && tr[k - 1] == Event(tr[k].tid, ResultAffected)
                  && tr[k - 2] == Event(tr[k].tid, Execute))
  {
    Reachable(run, i);
    assert MetricAt(Trace(run[i]), k);
  }

  /** No two goroutines ever hold a mutex of the core or of the adapter in conflicting modes. */
  lemma HoldersAreApart(run: seq<State>, i: nat, t: Id, u: Id, l: Lock)
    requires IsRun(run) && i < |run| && t in run[i].threads && u in run[i].threads && t != u
    ensures !Conflict(Holds(run[i].threads[t], l), Holds(run[i].threads[u], l))
  {
    Reachable(run, i);
    assert Local(run[i].memory, t, run[i].threads[t]) && Local(run[i].memory, u, run[i].threads[u]);
    ApartIsExclusion(run[i].threads[t], run[i].threads[u]);
  }

  // ---------------------------------------------------------------- counts and handles

  predicate Quiescent(s: State) { forall t :: t in s.threads ==> s.threads[t].pc == Idle }

  function LiveStmts(s: Memory): set<Id> { set m | m in s.stmts && s.stmts[m].native.Some? }

  function OpenRows(s: Memory): set<Id> { set r | r in s.rows && s.rows[r].native.Some? }

  /**
    A goroutine responsible for a handle is inside an operation. While the handle is not counted the goroutine is
    inside conn.mu, or the handle is a cursor whose statement is counted.
   */
  lemma HoldersAreBusy(s: State)
    requires Inv(s)
    ensures var v := VmHolder(s.memory.vm);
            v.Some? ==> s.threads[v.value].pc != Idle && (s.memory.vm.InHand? ==> s.threads[v.value].conn == Exclusive)
    ensures var k := CursorHolder(s.memory.cursor);
            k.Some? ==>
              && s.threads[k.value].pc != Idle
              && (s.memory.cursor.Drawn? ==>
                    match s.memory.cursor.parent
                    case None => s.threads[k.value].conn == Exclusive
                    case Some(m) => OwnedBy(s.memory.vm, m) && s.memory.children >= 1)
  {
    var v, k := VmHolder(s.memory.vm), CursorHolder(s.memory.cursor);
    if v.Some? { assert Local(s.memory, v.value, s.threads[v.value]); }
    if k.Some? { assert Local(s.memory, k.value, s.threads[k.value]); }
  }

  /** Between operations both child counts equal the number of live statements and open cursors. */
  lemma CountsCoupled(run: seq<State>, i: nat)
    requires IsRun(run) && i < |run| && Quiescent(run[i])
    ensures var s := run[i].memory;
            && s.children == s.nativeChildren == |LiveStmts(s)| + |OpenRows(s)|
            && |s.vms| == |LiveStmts(s)| && |s.cursors| == |OpenRows(s)|
  {
    Reachable(run, i);
    HoldersAreBusy(run[i]);
    var s := run[i].memory;
    KnownSlots(s);
    forall m | m in LiveStmts(s) ensures s.vm.Owned? && m == s.vm.stmt { KnownStmt(s, m); }
    forall r | r in OpenRows(s) ensures s.cursor.Open? && r == s.cursor.rows { KnownRows(s, r); }
    assert LiveStmts(s) == if s.vm.Owned? then {s.vm.stmt} else {};
    assert OpenRows(s) == if s.cursor.Open? then {s.cursor.rows} else {};
  }

  /** The goroutine answers for a live handle and is inside conn.mu. */
  predicate Minds(s: State, t: Id) {
    && t in s.threads && s.threads[t].conn == Exclusive
    && (VmHolder(s.memory.vm) == Some(t) || CursorHolder(s.memory.cursor) == Some(t))
  }

  /** Even in the middle of operations: a handle that is live while no child is counted is minded inside conn.mu. */
  lemma UncountedOnlyUnderConn(run: seq<State>, i: nat)
    requires IsRun(run) && i < |run|
    ensures var s := run[i].memory;
            s.children == 0 && (s.vms != map[] || s.cursors != map[]) ==> exists t :: Minds(run[i], t)
  {
    Reachable(run, i);
    HoldersAreBusy(run[i]);
    var s := run[i].memory;
    if s.children == 0 && (s.vms != map[] || s.cursors != map[]) {
      if s.vm.InHand? { assert Minds(run[i], s.vm.tid); } else { assert Minds(run[i], s.cursor.tid); }
    }
  }

  /** At every moment, at most one prepared VM and one cursor are live and at most two children are counted. */
  lemma SingleVm(run: seq<State>, i: nat)
    requires IsRun(run) && i < |run|
    ensures var s := run[i].memory;
            && |s.vms| <= 1 && |s.cursors| <= 1
            && 0 <= s.children <= 2
            && s.nativeChildren == |s.vms| + |s.cursors|
  {
    Reachable(run, i);
  }

  /** Two handles are live together only as a statement and its own cursor. */
  lemma LiveShape(run: seq<State>, i: nat, m: Id, r: Id)
    requires IsRun(run) && i < |run|
    requires var s := run[i].memory; m in LiveStmts(s) && r in OpenRows(s)
    ensures var s := run[i].memory;
            && LiveStmts(s) == {m} && OpenRows(s) == {r}
            && s.rows[r].parent == Some(m) && s.stmts[m].rows == 1
  {
    Reachable(run, i);
    var s := run[i].memory;
    KnownStmt(s, m);
    KnownRows(s, r);
    forall m' | m' in LiveStmts(s) ensures m' == m { KnownStmt(s, m'); }
    forall r' | r' in OpenRows(s) ensures r' == r { KnownRows(s, r'); }
  }

  /** No defensive branch is ever taken: the count clamp, a failed `addChild`, a busy native close, and the rest. */
  lemma DefensiveBranchesAreDead(run: seq<State>, i: nat)
    requires IsRun(run) && i < |run|
    ensures run[i].memory.odd == {}
  {
    Reachable(run, i);
  }

  /** A live statement or cursor belongs to the current transaction and database epoch. */
  lemma NoHandleCrossesBoundary(run: seq<State>, i: nat)
    requires IsRun(run) && i < |run|
    ensures var s := run[i].memory;
            && (forall v :: v in s.vms ==> s.vms[v] == s.epoch)
            && (forall k :: k in s.cursors ==> s.cursors[k] == s.epoch)
            && (forall m :: m in LiveStmts(s) ==> s.stmts[m].native.value in s.vms)
            && (forall r :: r in OpenRows(s) ==> s.rows[r].native.value in s.cursors)
  {
    Reachable(run, i);
  }

  // ---------------------------------------------------------------- transactions

  /** `txActive` holds exactly when one unfinished Tx exists, and it is unique. */
  lemma TxActiveMeansOneTx(run: seq<State>, i: nat)
    requires IsRun(run) && i < |run|
    ensures var s := run[i].memory;
            && (s.txActive <==> exists x :: Unfinished(s, x))
            && (forall x, y :: Unfinished(s, x) && Unfinished(s, y) ==> x == y)
  {
    Reachable(run, i);
    var s := run[i].memory;
    if s.txActive { assert Unfinished(s, TxReplay(s.trace).live.value); }
  }

  predicate FinishedBy(e: Event, x: Id) { e.call.Finish? && e.call.owner == Some(x) && e.call.finished }

  /** A call that only the owner of the live transaction may make, or nobody. */
  predicate Ends(call: Call) { call.Begin? || call.Finish? || call.SetDatabase? || call.Disconnect? }

  lemma {:induction false} ReplayPrefix(tr: seq<Event>, n: nat)
    requires n <= |tr| && TxReplay(tr).TxLog?
    ensures TxReplay(tr[..n]).TxLog?
    decreases |tr|
  {
    if n < |tr| {
      ReplayPrefix(tr[..|tr| - 1], n);
      assert tr[..|tr| - 1][..n] == tr[..n];
    } else {
      assert tr[..n] == tr;
    }
  }

  lemma {:induction false} LiveUntilFinished(tr: seq<Event>, b: nat, n: nat, x: Id)
    requires b < n <= |tr| && TxReplay(tr).TxLog?
    requires tr[b].call == Begin(x, true)
    requires forall j :: b < j < n ==> !FinishedBy(tr[j], x)
    ensures TxReplay(tr[..n]).TxLog? && TxReplay(tr[..n]).live == Some(x)
  {
    ReplayPrefix(tr, n);
    assert tr[..n][..n - 1] == tr[..n - 1];
    if n > b + 1 {
      LiveUntilFinished(tr, b, n - 1, x);
      assert !FinishedBy(tr[n - 1], x);
    }
  }

  /**
    From a successful Begin of a transaction until its successful finish, every commit or rollback
    issued on the connection is that transaction's own, and nothing begins, changes database or disconnects.
   */
  lemma OnlyTheOwnerFinishes(run: seq<State>, i: nat, b: nat, k: nat, x: Id)
    requires IsRun(run) && i < |run|
    requires b < k < |Trace(run[i])| && Trace(run[i])[b].call == Begin(x, true)
    requires forall j :: b < j < k ==> !FinishedBy(Trace(run[i])[j], x)
    requires Ends(Trace(run[i])[k].call)
    ensures Trace(run[i])[k].call.Finish? && Trace(run[i])[k].call.owner == Some(x)
  {
    hide IsRun;
    ReplayReachable(run, i);
    OnlyItEnds(Trace(run[i]), b, k, x);
  }

  lemma OnlyItEnds(tr: seq<Event>, b: nat, k: nat, x: Id)
    requires b < k < |tr| && TxReplay(tr).TxLog? && tr[b].call == Begin(x, true) && Ends(tr[k].call)
    requires forall j :: b < j < k ==> !FinishedBy(tr[j], x)
    ensures tr[k].call.Finish? && tr[k].call.owner == Some(x)
  {
    LiveUntilFinished(tr, b, k, x);
    ReplayPrefix(tr, k + 1);
    assert tr[..k + 1][..k] == tr[..k];
  }

  lemma {:induction false} DoneGrows(tr: seq<Event>, f: nat, n: nat, x: Id)
    requires f < n <= |tr| && TxReplay(tr).TxLog? && FinishedBy(tr[f], x)
    ensures TxReplay(tr[..n]).TxLog? && x in TxReplay(tr[..n]).done && TxReplay(tr[..n]).live != Some(x)
  {
    ReplayPrefix(tr, n);
    assert tr[..n][..n - 1] == tr[..n - 1];
    if n > f + 1 {
      DoneGrows(tr, f, n - 1, x);
    } else {
      ReplayPrefix(tr, f);
    }
  }

  lemma NoSecondFinish(tr: seq<Event>, f: nat, g: nat, x: Id)
    requires f < g < |tr| && TxReplay(tr).TxLog? && FinishedBy(tr[f], x)
    ensures !FinishedBy(tr[g], x)
  {
    assert tr[..g + 1][..g] == tr[..g];
    ReplayPrefix(tr, g + 1);
    DoneGrows(tr, f, g, x);
  }

  lemma ReplayReachable(run: seq<State>, i: nat)
    requires IsRun(run) && i < |run|
    ensures TxReplay(Trace(run[i])).TxLog?
  {
    Reachable(run, i);
  }

  /** No transaction is completed successfully twice. */
  lemma FinishesOnce(run: seq<State>, i: nat, f: nat, g: nat, x: Id)
    requires IsRun(run) && i < |run|
    requires f < |Trace(run[i])| && g < |Trace(run[i])|
    requires FinishedBy(Trace(run[i])[f], x) && FinishedBy(Trace(run[i])[g], x)
    ensures f == g
  {
    hide IsRun, FinishedBy;
    ReplayReachable(run, i);
    if f < g {
      NoSecondFinish(Trace(run[i]), f, g, x);
    } else if g < f {
      NoSecondFinish(Trace(run[i]), g, f, x);
    }
  }

  // ---------------------------------------------------------------- deadlock freedom

  /** Nested mutexes are taken in increasing rank. */
  lemma RankRises(th: Thread, l: Lock)
    requires LocksOk(th) && Holds(th, l) != Free && Wants(th.pc).Some?
    ensures Rank(Wants(th.pc).value.0) > Rank(l)
  {
  }

  lemma HolderIsBusy(th: Thread, l: Lock)
    requires LocksOk(th) && Holds(th, l) != Free
    ensures Busy(th)
  {
  }

  ghost predicate AllBlocked(s: State) {
    forall t :: t in s.threads && Busy(s.threads[t]) ==> Blocked(s, t)
  }

  /** If everyone busy is blocked, nobody busy waits for a mutex of rank `r` or more. */
  lemma {:induction false} NobodyWaitsFrom(s: State, r: nat, t: Id)
    requires Inv(s) && AllBlocked(s) && t in s.threads && Busy(s.threads[t])
    ensures Wants(s.threads[t].pc).Some? ==> Rank(Wants(s.threads[t].pc).value.0) < r
    decreases 7 - r
  {
    var want := Wants(s.threads[t].pc);
    if r < 7 && want.Some? {
      NobodyWaitsFrom(s, r + 1, t);
      var l := want.value.0;
      var u :| u in s.threads && u != t && InTheWay(s.threads[t], s.threads[u]);
      if Conflict(want.value.1, Holds(s.threads[u], l)) {
        HolderWaitsHigher(s, u, l, r);
      } else {
        assert Blocked(s, u);
        var v :| v in s.threads && v != u && InTheWay(s.threads[u], s.threads[v]);
        HolderWaitsHigher(s, v, l, r);
      }
    }
  }

  /** A busy holder of a mutex of rank `r` is itself waiting for a higher one, which nobody does. */
  lemma HolderWaitsHigher(s: State, u: Id, l: Lock, r: nat)
    requires Inv(s) && AllBlocked(s) && u in s.threads && r < 7
    requires Holds(s.threads[u], l) != Free
    ensures Rank(l) < r
    decreases 7 - r, 0
  {
    var w := s.threads[u];
    assert Local(s.memory, u, w);
    HolderIsBusy(w, l);
    assert Blocked(s, u);
    RankRises(w, l);
    NobodyWaitsFrom(s, r + 1, u);
  }

  lemma NotAllBlocked(s: State)
    requires Inv(s) && exists t :: t in s.threads && Busy(s.threads[t])
    ensures exists t :: t in s.threads && Busy(s.threads[t]) && !Blocked(s, t)
  {
    if AllBlocked(s) {
      var t :| t in s.threads && Busy(s.threads[t]);
      assert Blocked(s, t);
      NobodyWaitsFrom(s, 0, t);
    }
  }

  /** In every reachable state with an operation in progress, some busy goroutine is not blocked. */
  lemma DeadlockFree(run: seq<State>, i: nat)
    requires IsRun(run) && i < |run|
    requires exists t :: t in run[i].threads && Busy(run[i].threads[t])
    ensures exists t :: t in run[i].threads && Busy(run[i].threads[t]) && !Blocked(run[i], t)
  {
    Reachable(run, i);
    NotAllBlocked(run[i]);
  }

  /** A busy goroutine that is not blocked has a step that changes its own state. */
  lemma UnblockedCanStep(s: State, t: Id)
    requires Inv(s) && t in s.threads && Busy(s.threads[t]) && !Blocked(s, t)
    ensures exists c, s' :: StepBy(s, s', t, c) && s'.threads[t] != s.threads[t]
  {
    var th := s.threads[t];
    assert Local(s.memory, t, th);
    var l := if th.outer != {} then (var l :| l in th.outer; l) else ConnMu;
    var c := Choice(true, Abort, Drop(l));
    var want := Wants(th.pc);
    if want.Some? {
      forall u | u in s.threads && u != t ensures !Conflict(want.value.1, Holds(s.threads[u], want.value.0)) {
        assert !InTheWay(th, s.threads[u]);
      }
    }
    var m := Next(s.memory, t, th, c);
    var s' := State(s.threads[t := m.th], m.memory);
    AbortMoves(s.memory, t, th, c);
    assert StepBy(s, s', t, c);
  }

  lemma AbortMoves(s: Memory, t: Id, th: Thread, c: Choice)
    requires LocksOk(th) && Busy(th) && c.branch == Abort && c.ok
    requires c.op.Drop? && (th.outer != {} ==> c.op.lock in th.outer)
    ensures Next(s, t, th, c).th != th
  {
    hide Note, Odd, GrabVm, ReturnVm, Register, Detach, CloseDetached, Reattach, GrabCursor, DropCursor, ReleaseDetached,
      Unregister, PublishDirect, PublishOfStmt, Fade, AddCounted, ReleaseFaded, PayOwed, Cross;
  }
}
