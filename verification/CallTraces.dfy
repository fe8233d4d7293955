/**
  The native calls of an operation that goes well: which ones, and in which order. Together with `Layers`, which says what
  an operation changes, this is what a caller can rely on who is not interrupted.
 */
module CallTraces {
  import opened Basics
  import opened Interleaving
  import opened InterleavingSafety
  import opened InterleavingSteps
  import opened InterleavingRuns
  import opened AdapterLocks
  import opened Layers

  function Events(t: Id, calls: seq<Call>): seq<Event> { seq(|calls|, i requires 0 <= i < |calls| => Event(t, calls[i])) }

  /** One call, then any number of another. */
  predicate Leads(calls: seq<Call>, first: Call, rest: Call) {
    |calls| > 0 && calls[0] == first && forall i :: 1 <= i < |calls| ==> calls[i] == rest
  }

  /** A temporary statement is prepared, bound any number of times, and then executed and closed: the calls so far. */
  predicate Temporarily(calls: seq<Call>, ending: seq<Call>) {
    |ending| <= |calls| && calls[|calls| - |ending|..] == ending && Leads(calls[..|calls| - |ending|], Call.Prepare, BindValue)
  }

  const RESULT := [Execute, ResultAffected, ResultLastId]

  /**
    The calls of an operation that goes well. `first` is the next free number; `closes` says that the cursor takes its
    statement along.
   */
  predicate Called(op: Op, first: Id, closes: bool, calls: seq<Call>) {
    match op
    case RunConn(ConnExec) => calls == RESULT || Temporarily(calls, RESULT + [CloseVm])
    case RunConn(ConnQuery) => Leads(calls, Select, Describe)
    case RunConn(ConnPrepare) => calls == [Call.Prepare]
    case RunConn(ConnClose) => calls == [Disconnect]
    case RunConn(ConnSetDatabase) => calls == [SetDatabase]
    case RunConn(ConnBegin) => calls == [Begin(first, true)]
    case RunConn(ConnFinish(commit)) => calls == [Finish(None, commit, true)]
    case RunShared(ping) => calls == [if ping then Call.Ping else PublicMetric]
    case RunTx(x, commit) => calls == [Finish(Some(x), commit, true)]
    case RunStmt(_, StmtBind) => calls == [BindValue]
    case RunStmt(_, StmtExec) => calls == RESULT
    case RunStmt(_, StmtClose) => calls == [CloseVm]
    case RunStmt(_, StmtQuery(_)) => Leads(calls, Select, Describe)
    case RunStmt(_, StmtReset) => calls == [CloseVm, Call.Prepare]
    case RunRows(_, false) => Leads(calls, Fetch, Fetch)
    case RunRows(_, true) => calls == if closes then [CloseCursor, CloseVm] else [CloseCursor]
    case _ => calls == []
  }

  /** The calls made when an operation has come to a program point. */
  predicate SoFar(op: Op, first: Id, closes: bool, pc: Pc, calls: seq<Call>) {
    match pc
    case Unlock => Called(op, first, closes, calls)
    case Idle => Called(op, first, closes, calls)
    case TempReady(_) => Temporarily(calls, [])
    case Executed(source) => if source.Temporary? then Temporarily(calls, [Execute]) else calls == [Execute]
    case Affected(source) =>
      if source.Temporary? then Temporarily(calls, [Execute, ResultAffected]) else calls == [Execute, ResultAffected]
    case TempClose(_) => Temporarily(calls, RESULT)
    case Prepared(_) => calls == [Call.Prepare]
    case Selected(_) => Leads(calls, Select, Describe)
    case Drawing(_, _, _) => Leads(calls, Select, Describe)
    case AddChild(_, _, _) => Leads(calls, Select, Describe)
    case Publish(_, _, _) => Leads(calls, Select, Describe)
    case AddFailed(_, _) => false
    case InRows(_) => calls == [] || Leads(calls, Fetch, Fetch)
    case ResetPrepare(_) => calls == [CloseVm]
    case CloseVmOf(_, _) => calls == if op.RunRows? then [CloseCursor] else []
    case ReleaseStmt(_) => calls == if op.RunRows? then [CloseCursor, CloseVm] else [CloseVm]
    case ReleaseRows(_, _, _) => calls == [CloseCursor]
    case EnterOwed(_, _, _) => calls == [CloseCursor]
    case _ => calls == []
  }

  /** The guards still ahead hold. */
  predicate Cleared(op: Op, first: Id, s: Memory, pc: Pc) {
    && (Entering(pc) ==> Allowed(s, op))
    && (pc.TxConn? ==> s.children == 0)
    && (pc.EnterConn? || pc.InConn? ==> s.nextId == first)
  }

  /** Every native call succeeds, and no context ends; loops are as long as they like. */
  predicate Well(c: Choice) { c.ok && c.branch != Abort }

  lemma OneMoreRest(calls: seq<Call>, first: Call, rest: Call)
    requires Leads(calls, first, rest)
    ensures Leads(calls + [rest], first, rest)
  {
  }

  lemma OneMoreTemporary(calls: seq<Call>, ending: seq<Call>, call: Call)
    requires Temporarily(calls, ending)
    ensures Temporarily(calls + [call], ending + [call])
  {
    var n := |calls| - |ending|;
    assert (calls + [call])[..n] == calls[..n] && (calls + [call])[n..] == ending + [call];
  }

  lemma BoundTemporary(calls: seq<Call>)
    requires Temporarily(calls, [])
    ensures Temporarily(calls + [BindValue], [])
  {
    assert calls[..|calls|] == calls && (calls + [BindValue])[..|calls| + 1] == calls + [BindValue];
  }

  lemma Starts()
    ensures Temporarily([Call.Prepare], []) && Leads([Select], Select, Describe) && Leads([Fetch], Fetch, Fetch)
  {
    assert [Call.Prepare][..1] == [Call.Prepare];
  }

  /** A step of an operation that goes well adds one call to the trace, or none, and the calls so far are then as they should. */
  predicate Adds(op: Op, first: Id, closes: bool, s: Memory, t: Id, m: Move, calls: seq<Call>, more: Option<Call>) {
    && (match more
        case None => m.memory.trace == s.trace && SoFar(op, first, closes, m.th.pc, calls)
        case Some(call) => m.memory.trace == s.trace + [Event(t, call)] && SoFar(op, first, closes, m.th.pc, calls + [call]))
    && Cleared(op, first, m.memory, m.th.pc)
  }

  /** The operation that a program point belongs to. `closes`: the cursor takes its statement along. */
  predicate Runs(op: Op, closes: bool, pc: Pc) {
    match pc
    case EnterConn(o) => op == RunConn(o)
    case InConn(o) => op == RunConn(o)
    case TempReady(_) => op == RunConn(ConnExec)
    case Executed(source) => if source.OfStmt? then op == RunStmt(source.stmt, StmtExec) else op == RunConn(ConnExec)
    case Affected(source) => if source.OfStmt? then op == RunStmt(source.stmt, StmtExec) else op == RunConn(ConnExec)
    case TempClose(_) => op == RunConn(ConnExec)
    case Prepared(_) => op == RunConn(ConnPrepare)
    case Selected(_) => op == RunConn(ConnQuery)
    case EnterShared(ping) => op == RunShared(ping)
    case InShared(ping) => op == RunShared(ping)
    case EnterTx(x, commit) => op == RunTx(x, commit)
    case TxConn(x, commit) => op == RunTx(x, commit)
    case TxBoth(x, commit) => op == RunTx(x, commit)
    case EnterStmt(m, o) => op == RunStmt(m, o)
    case InBind(m) => op == RunStmt(m, StmtBind)
    case ExecConn(m) => op == RunStmt(m, StmtExec)
    case InExec(m) => op == RunStmt(m, StmtExec)
    case InQuery(m, close) => op == RunStmt(m, StmtQuery(close))
    case Drawing(m, _, close) => op == RunStmt(m, StmtQuery(close))
    case AddChild(m, _, close) => op == RunStmt(m, StmtQuery(close))
    case Publish(m, _, close) => op == RunStmt(m, StmtQuery(close))
    case ResetConn(m) => op == RunStmt(m, StmtReset)
    case InReset(m) => op == RunStmt(m, StmtReset)
    case ResetClose(m, _) => op == RunStmt(m, StmtReset)
    case ResetPrepare(m) => op == RunStmt(m, StmtReset)
    case CloseVmOf(m, _) => op == RunStmt(m, StmtClose) || (op.RunRows? && op.close && closes)
    case ReleaseStmt(m) => op == RunStmt(m, StmtClose) || (op.RunRows? && op.close && closes)
    case EnterRows(r, close) => op == RunRows(r, close)
    case InRows(r) => op == RunRows(r, false)
    case CloseCursorOf(r, _, parent, close) => op == RunRows(r, true) && closes == (close && parent.Some?)
    case ReleaseRows(r, parent, close) => op == RunRows(r, true) && closes == (close && parent.Some?)
    case EnterOwed(r, _, close) => op == RunRows(r, true) && closes == close
    case AddFailed(_, _) => op.RunStmt?
    case Unlock => true
    case _ => false
  }

  /** What the branches that are never taken test. */
  predicate Sound(s: Memory, pc: Pc) {
    match pc
    case InConn(_) => s.nativeChildren == 0
    case TxConn(_, _) => s.open && s.txActive
    case ExecConn(_) => s.open
    case ResetConn(_) => s.open
    case AddChild(_, _, _) => s.open
    case InReset(m) => m in s.stmts && s.stmts[m].native.Some?
    case ResetPrepare(m) => m in s.stmts
    case EnterOwed(_, m, _) => m in s.stmts && s.stmts[m].rows == 1 && s.stmts[m].native.Some?
    case _ => true
  }

  /** The hypotheses of a step. */
  predicate Stepping(op: Op, first: Id, closes: bool, s: Memory, pc: Pc, c: Choice, calls: seq<Call>) {
    Well(c) && Runs(op, closes, pc) && Sound(s, pc) && SoFar(op, first, closes, pc, calls) && Cleared(op, first, s, pc)
  }

  // ---------------------------------------------------------------- one step

  lemma EnterAdds(op: Op, first: Id, closes: bool, s: Memory, t: Id, th: Thread, c: Choice, calls: seq<Call>)
    returns (more: Option<Call>)
    requires Stepping(op, first, closes, s, th.pc, c, calls) && AtEnter(th.pc)
    ensures Adds(op, first, closes, s, t, NextEnter(s, t, th, c), calls, more)
  {
    hide Temporarily, Leads;
    more := if th.pc.InShared? then Some(if th.pc.ping then Call.Ping else PublicMetric) else None;
    assert [] + [Call.Ping] == [Call.Ping] && [] + [PublicMetric] == [PublicMetric];
  }

  lemma TempReadyAdds(op: Op, first: Id, closes: bool, s: Memory, t: Id, th: Thread, c: Choice, calls: seq<Call>)
    returns (more: Option<Call>)
    requires Stepping(op, first, closes, s, th.pc, c, calls) && th.pc.TempReady?
    ensures Adds(op, first, closes, s, t, NextTemp(s, t, th, c), calls, more)
  {
    hide Temporarily, Leads;
    if c.branch == Again {
      BoundTemporary(calls);
      more := Some(BindValue);
    } else {
      assert [] + [Execute] == [Execute];
      OneMoreTemporary(calls, [], Execute);
      more := Some(Execute);
    }
  }

  lemma TempCloseAdds(op: Op, first: Id, closes: bool, s: Memory, t: Id, th: Thread, c: Choice, calls: seq<Call>)
    returns (more: Option<Call>)
    requires Stepping(op, first, closes, s, th.pc, c, calls) && th.pc.TempClose?
    ensures Adds(op, first, closes, s, t, NextTemp(s, t, th, c), calls, more)
  {
    hide Temporarily, Leads;
    OneMoreTemporary(calls, RESULT, CloseVm);
    more := Some(CloseVm);
  }

  lemma AffectedAdds(op: Op, first: Id, closes: bool, s: Memory, t: Id, th: Thread, c: Choice, calls: seq<Call>)
    returns (more: Option<Call>)
    requires Stepping(op, first, closes, s, th.pc, c, calls) && th.pc.Executed?
    ensures Adds(op, first, closes, s, t, NextResult(s, t, th, c), calls, more)
  {
    hide Temporarily, Leads;
    more := Some(ResultAffected);
    if th.pc.source.Temporary? {
      OneMoreTemporary(calls, [Execute], ResultAffected);
      assert [Execute] + [ResultAffected] == [Execute, ResultAffected];
    }
  }

  lemma LastIdAdds(op: Op, first: Id, closes: bool, s: Memory, t: Id, th: Thread, c: Choice, calls: seq<Call>)
    returns (more: Option<Call>)
    requires Stepping(op, first, closes, s, th.pc, c, calls) && th.pc.Affected?
    ensures Adds(op, first, closes, s, t, NextResult(s, t, th, c), calls, more)
  {
    hide Temporarily, Leads;
    more := Some(ResultLastId);
    assert [Execute, ResultAffected] + [ResultLastId] == RESULT;
    if th.pc.source.Temporary? { OneMoreTemporary(calls, [Execute, ResultAffected], ResultLastId); }
  }

  lemma HandleAdds(op: Op, first: Id, closes: bool, s: Memory, t: Id, th: Thread, c: Choice, calls: seq<Call>)
    returns (more: Option<Call>)
    requires Stepping(op, first, closes, s, th.pc, c, calls) && AtHandle(th.pc)
    ensures Adds(op, first, closes, s, t, NextHandle(s, t, th, c), calls, more)
  {
    hide Temporarily, Leads;
    more := None;
    if th.pc.Selected? && c.branch == Again {
      OneMoreRest(calls, Select, Describe);
      more := Some(Describe);
    }
  }

  lemma TxAdds(op: Op, first: Id, closes: bool, s: Memory, t: Id, th: Thread, c: Choice, calls: seq<Call>)
    returns (more: Option<Call>)
    requires Stepping(op, first, closes, s, th.pc, c, calls) && AtTx(th.pc)
    ensures Adds(op, first, closes, s, t, NextTx(s, t, th, c), calls, more)
  {
    hide Temporarily, Leads;
    more := if th.pc.TxBoth? then Some(Finish(Some(th.pc.tx), th.pc.commit, true)) else None;
  }

  lemma StmtAdds(op: Op, first: Id, closes: bool, s: Memory, t: Id, th: Thread, c: Choice, calls: seq<Call>)
    returns (more: Option<Call>)
    requires Stepping(op, first, closes, s, th.pc, c, calls) && AtStmt(th.pc)
    ensures Adds(op, first, closes, s, t, NextStmt(s, t, th, c), calls, more)
  {
    hide Temporarily, Leads;
    more := if th.pc.InBind? then Some(BindValue) else if th.pc.InExec? then Some(Execute) else None;
  }

  lemma CloseVmAdds(op: Op, first: Id, closes: bool, s: Memory, t: Id, th: Thread, c: Choice, calls: seq<Call>)
    returns (more: Option<Call>)
    requires Stepping(op, first, closes, s, th.pc, c, calls) && AtCloseVm(th.pc)
    ensures Adds(op, first, closes, s, t, NextCloseVm(s, t, th, c), calls, more)
  {
    hide Temporarily, Leads;
    more := if th.pc.CloseVmOf? then Some(CloseVm) else None;
    assert [] + [CloseVm] == [CloseVm] && [CloseCursor] + [CloseVm] == [CloseCursor, CloseVm];
  }

  lemma QueryAdds(op: Op, first: Id, closes: bool, s: Memory, t: Id, th: Thread, c: Choice, calls: seq<Call>)
    returns (more: Option<Call>)
    requires Stepping(op, first, closes, s, th.pc, c, calls) && AtQuery(th.pc)
    ensures Adds(op, first, closes, s, t, NextQuery(s, t, th, c), calls, more)
  {
    hide Temporarily, Leads;
    Starts();
    if th.pc.InQuery? {
      more := Some(Select);
      assert calls + [Select] == [Select];
    } else if c.branch == Again {
      OneMoreRest(calls, Select, Describe);
      more := Some(Describe);
    } else {
      more := None;
    }
  }

  lemma PublishAdds(op: Op, first: Id, closes: bool, s: Memory, t: Id, th: Thread, c: Choice, calls: seq<Call>)
    returns (more: Option<Call>)
    requires Stepping(op, first, closes, s, th.pc, c, calls) && AtPublish(th.pc)
    ensures Adds(op, first, closes, s, t, NextPublish(s, t, th, c), calls, more)
  {
    hide Temporarily, Leads;
    more := None;
  }

  lemma ResetAdds(op: Op, first: Id, closes: bool, s: Memory, t: Id, th: Thread, c: Choice, calls: seq<Call>)
    returns (more: Option<Call>)
    requires Stepping(op, first, closes, s, th.pc, c, calls) && AtReset(th.pc)
    ensures Adds(op, first, closes, s, t, NextReset(s, t, th, c), calls, more)
  {
    hide Temporarily, Leads;
    more := None;
  }

  lemma ResetCloseAdds(op: Op, first: Id, closes: bool, s: Memory, t: Id, th: Thread, c: Choice, calls: seq<Call>)
    returns (more: Option<Call>)
    requires Stepping(op, first, closes, s, th.pc, c, calls) && th.pc.ResetClose?
    ensures Adds(op, first, closes, s, t, NextResetClose(s, t, th, th.pc.stmt, th.pc.vm, c), calls, more)
  {
    hide Temporarily, Leads;
    more := Some(CloseVm);
  }

  lemma ResetPrepareAdds(op: Op, first: Id, closes: bool, s: Memory, t: Id, th: Thread, c: Choice, calls: seq<Call>)
    returns (more: Option<Call>)
    requires Stepping(op, first, closes, s, th.pc, c, calls) && th.pc.ResetPrepare?
    ensures Adds(op, first, closes, s, t, NextResetPrepare(s, t, th, th.pc.stmt, c), calls, more)
  {
    hide Temporarily, Leads;
    more := Some(Call.Prepare);
  }

  lemma CursorDropAdds(op: Op, first: Id, closes: bool, s: Memory, t: Id, th: Thread, c: Choice, calls: seq<Call>)
    returns (more: Option<Call>)
    requires Stepping(op, first, closes, s, th.pc, c, calls) && th.pc.CloseCursorOf?
    ensures Adds(op, first, closes, s, t, NextCloseCursor(s, t, th, c), calls, more)
  {
    hide Temporarily, Leads;
    more := Some(CloseCursor);
  }

  lemma CursorReleaseAdds(op: Op, first: Id, closes: bool, s: Memory, t: Id, th: Thread, c: Choice, calls: seq<Call>)
    returns (more: Option<Call>)
    requires Stepping(op, first, closes, s, th.pc, c, calls) && th.pc.ReleaseRows? && th.pc.parent == None
    ensures Adds(op, first, closes, s, t, NextCloseCursor(s, t, th, c), calls, more)
  {
    hide Temporarily, Leads;
    more := None;
  }

  lemma CursorOwesAdds(op: Op, first: Id, closes: bool, s: Memory, t: Id, th: Thread, c: Choice, calls: seq<Call>)
    returns (more: Option<Call>)
    requires Stepping(op, first, closes, s, th.pc, c, calls) && th.pc.ReleaseRows? && th.pc.parent != None
    ensures Adds(op, first, closes, s, t, NextCloseCursor(s, t, th, c), calls, more)
  {
    hide Temporarily, Leads;
    more := None;
  }

  lemma OwedAdds(op: Op, first: Id, closes: bool, s: Memory, t: Id, th: Thread, c: Choice, calls: seq<Call>)
    returns (more: Option<Call>)
    requires Stepping(op, first, closes, s, th.pc, c, calls) && th.pc.EnterOwed?
    ensures Adds(op, first, closes, s, t, NextOwed(s, t, th.(stmt := Some(th.pc.stmt)), th.pc.stmt, th.pc.closeStmt), calls, more)
  {
    hide Temporarily, Leads;
    more := None;
  }

  lemma RowsAdds(op: Op, first: Id, closes: bool, s: Memory, t: Id, th: Thread, c: Choice, calls: seq<Call>)
    returns (more: Option<Call>)
    requires Stepping(op, first, closes, s, th.pc, c, calls) && th.pc.InRows?
    ensures Adds(op, first, closes, s, t, NextRows(s, t, th, th.pc.rows, c), calls, more)
  {
    hide Temporarily, Leads;
    Starts();
    if calls != [] { OneMoreRest(calls, Fetch, Fetch); } else { assert calls + [Fetch] == [Fetch]; }
    more := Some(Fetch);
  }

  lemma EnterStmtAdds(op: Op, first: Id, closes: bool, s: Memory, t: Id, th: Thread, c: Choice, calls: seq<Call>)
    returns (more: Option<Call>)
    requires Stepping(op, first, closes, s, th.pc, c, calls) && th.pc.EnterStmt?
    ensures Adds(op, first, closes, s, t, NextEnterStmt(s, t, th.(stmt := Some(th.pc.stmt)), th.pc.stmt, th.pc.stmtOp), calls, more)
  {
    hide Temporarily, Leads;
    more := None;
  }

  lemma EnterRowsAdds(op: Op, first: Id, closes: bool, s: Memory, t: Id, th: Thread, c: Choice, calls: seq<Call>)
    returns (more: Option<Call>)
    requires Stepping(op, first, closes, s, th.pc, c, calls) && th.pc.EnterRows?
    ensures Adds(op, first, closes, s, t, NextEnterRows(s, t, th.(rows := Some(th.pc.rows)), th.pc.rows, th.pc.close), calls, more)
  {
    hide Temporarily, Leads;
    more := None;
  }

  lemma UnlockAdds(op: Op, first: Id, closes: bool, s: Memory, t: Id, th: Thread, c: Choice, calls: seq<Call>)
    returns (more: Option<Call>)
    requires Stepping(op, first, closes, s, th.pc, c, calls) && th.pc.Unlock?
    ensures Adds(op, first, closes, s, t, NextUnlock(s, th), calls, more)
  {
    hide Temporarily, Leads;
    more := None;
  }

  lemma ConnExecutes(first: Id, closes: bool, s: Memory, t: Id, th: Thread, c: Choice) returns (more: Option<Call>)
    requires Well(c)
    ensures Adds(RunConn(ConnExec), first, closes, s, t, NextOpen(s, t, th, ConnExec, c), [], more)
  {
    hide Temporarily, Leads;
    Starts();
    assert [] + [Call.Prepare] == [Call.Prepare] && [] + [Execute] == [Execute];
    more := Some(if c.branch == Ahead then Call.Prepare else Execute);
  }

  lemma ConnOpens(o: ConnOp, first: Id, closes: bool, s: Memory, t: Id, th: Thread, c: Choice) returns (more: Option<Call>)
    requires Well(c) && (o.ConnQuery? || o.ConnPrepare?)
    ensures Adds(RunConn(o), first, closes, s, t, NextOpen(s, t, th, o, c), [], more)
  {
    hide Temporarily, Leads;
    Starts();
    assert [] + [Call.Prepare] == [Call.Prepare] && [] + [Select] == [Select];
    more := Some(if o.ConnQuery? then Select else Call.Prepare);
  }

  lemma ConnCrosses(o: ConnOp, first: Id, closes: bool, s: Memory, t: Id, th: Thread, c: Choice) returns (more: Option<Call>)
    requires Well(c) && !o.ConnExec? && !o.ConnQuery? && !o.ConnPrepare? && s.nativeChildren == 0 && s.nextId == first
    ensures Adds(RunConn(o), first, closes, s, t, NextBoundary(s, t, th, o, c), [], more)
  {
    hide Temporarily, Leads;
    match o
    case ConnClose => more := Some(Disconnect);
    case ConnSetDatabase => more := Some(SetDatabase);
    case ConnBegin => more := Some(Begin(first, true));
    case ConnFinish(commit) => more := Some(Finish(None, commit, true));
  }

  lemma InConnAdds(op: Op, first: Id, closes: bool, s: Memory, t: Id, th: Thread, c: Choice, calls: seq<Call>)
    returns (more: Option<Call>)
    requires Stepping(op, first, closes, s, th.pc, c, calls) && th.pc.InConn?
    ensures Adds(op, first, closes, s, t, NextInConn(s, t, th, th.pc.op, c), calls, more)
  {
    hide Adds, NextOpen, NextBoundary;
    var o := th.pc.op;
    if o.ConnExec? {
      more := ConnExecutes(first, closes, s, t, th, c);
    } else if o.ConnQuery? || o.ConnPrepare? {
      more := ConnOpens(o, first, closes, s, t, th, c);
    } else {
      more := ConnCrosses(o, first, closes, s, t, th, c);
    }
  }

  lemma StepAdds(op: Op, first: Id, closes: bool, s: Memory, t: Id, th: Thread, c: Choice, calls: seq<Call>)
    returns (more: Option<Call>)
    requires Working(th) && Stepping(op, first, closes, s, th.pc, c, calls)
    ensures Adds(op, first, closes, s, t, Next(s, t, th, c), calls, more)
  {
    hide Temporarily, Leads, Adds, Called, Stepping, NextEnter, NextTemp, NextResult, NextHandle, NextTx, NextStmt, NextCloseVm,
      NextQuery, NextPublish, NextReset, NextCloseCursor, NextEnterStmt, NextResetClose, NextResetPrepare, NextEnterRows, NextRows,
      NextOwed, NextUnlock, NextInConn;
    if AtEnter(th.pc) { more := EnterAdds(op, first, closes, s, t, th, c, calls); }
    else if th.pc.TempReady? { more := TempReadyAdds(op, first, closes, s, t, th, c, calls); }
    else if th.pc.TempClose? { more := TempCloseAdds(op, first, closes, s, t, th, c, calls); }
    else if th.pc.Executed? { more := AffectedAdds(op, first, closes, s, t, th, c, calls); }
    else if th.pc.Affected? { more := LastIdAdds(op, first, closes, s, t, th, c, calls); }
    else if AtHandle(th.pc) { more := HandleAdds(op, first, closes, s, t, th, c, calls); }
    else if AtTx(th.pc) { more := TxAdds(op, first, closes, s, t, th, c, calls); }
    else if AtStmt(th.pc) { more := StmtAdds(op, first, closes, s, t, th, c, calls); }
    else if AtCloseVm(th.pc) { more := CloseVmAdds(op, first, closes, s, t, th, c, calls); }
    else if AtQuery(th.pc) { more := QueryAdds(op, first, closes, s, t, th, c, calls); }
    else if AtPublish(th.pc) { more := PublishAdds(op, first, closes, s, t, th, c, calls); }
    else if AtReset(th.pc) { more := ResetAdds(op, first, closes, s, t, th, c, calls); }
    else if th.pc.CloseCursorOf? { more := CursorDropAdds(op, first, closes, s, t, th, c, calls); }
    else if th.pc.ReleaseRows? && th.pc.parent == None { more := CursorReleaseAdds(op, first, closes, s, t, th, c, calls); }
    else if th.pc.ReleaseRows? { more := CursorOwesAdds(op, first, closes, s, t, th, c, calls); }
    else {
      match th.pc
      case InConn(_) => more := InConnAdds(op, first, closes, s, t, th, c, calls);
      case EnterStmt(_, _) => more := EnterStmtAdds(op, first, closes, s, t, th, c, calls);
      case ResetClose(_, _) => more := ResetCloseAdds(op, first, closes, s, t, th, c, calls);
      case ResetPrepare(_) => more := ResetPrepareAdds(op, first, closes, s, t, th, c, calls);
      case EnterRows(_, _) => more := EnterRowsAdds(op, first, closes, s, t, th, c, calls);
      case InRows(_) => more := RowsAdds(op, first, closes, s, t, th, c, calls);
      case EnterOwed(_, _, _) => more := OwedAdds(op, first, closes, s, t, th, c, calls);
      case Unlock => more := UnlockAdds(op, first, closes, s, t, th, c, calls);
    }
  }

  /** What `Layers` knows of the middle of an operation. */
  lemma PointSound(op: Op, a: Shape, s: Memory, t: Id, th: Thread)
    requires Ready(s, t, th) && (th.pc.Unlock? || Amidst(op, a, ShapeOf(s), th.pc))
    ensures Runs(op, a.closes, th.pc) && Sound(s, th.pc)
  {
    PointRuns(op, a, ShapeOf(s), th.pc);
    hide Amidst, Runs;
    match th.pc
    case TxConn(_, _) => assert TxOk(s.txActive, s.txs, TxReplay(s.trace));
    case _ =>
  }

  lemma PointRuns(op: Op, a: Shape, b: Shape, pc: Pc)
    requires pc.Unlock? || Amidst(op, a, b, pc)
    ensures Runs(op, a.closes, pc)
  {
  }

  // ---------------------------------------------------------------- whole operations

  /** After `n` steps of its own in which all goes well, `t` is between operations for the first time. */
  ghost predicate Completes(s: State, s': State, t: Id, n: nat)
    decreases n
  {
    && t in s.threads
    && if n == 0 then s' == s && s.threads[t].pc == Idle
       else
         && s.threads[t].pc != Idle
         && exists m: State, c: Choice :: Well(c) && StepBy(s, m, t, c) && Completes(m, s', t, n - 1)
  }

  /** `t` asks for `op`, and its own steps carry it through without a failure. */
  ghost predicate Accomplishes(s: State, s': State, t: Id, op: Op) {
    && t in s.threads && s.threads[t].pc == Idle
    && exists m: State, c: Choice, n: nat :: c.op == op && StepBy(s, m, t, c) && Completes(m, s', t, n)
  }

  lemma OneStepAdds(s: State, m: State, t: Id, op: Op, a: Start, first: Id, c: Choice, calls: seq<Call>)
    returns (more: Option<Call>)
    requires Inv(s) && StepBy(s, m, t, c) && Well(c) && Working(s.threads[t])
    requires Stands(op, a, s.memory, t, s.threads[t].pc, false)
    requires SoFar(op, first, a.shape.closes, s.threads[t].pc, calls) && Cleared(op, first, s.memory, s.threads[t].pc)
    ensures m.threads == s.threads[t := m.threads[t]]
    ensures Adds(op, first, a.shape.closes, s.memory, t, Move(m.memory, m.threads[t]), calls, more)
  {
    hide Next, SoFar, Cleared, Amidst, Adds;
    EntryHolds(s, t);
    assert Local(s.memory, t, s.threads[t]);
    PointSound(op, a.shape, s.memory, t, s.threads[t]);
    more := StepAdds(op, first, a.shape.closes, s.memory, t, s.threads[t], c, calls);
  }

  lemma NothingAdded(calls: seq<Call>, trace: seq<Event>, t: Id)
    ensures calls + [] == calls && trace + Events(t, []) == trace
  {
  }

  lemma Joined(calls: seq<Call>, one: Call, rest: seq<Call>, trace: seq<Event>, t: Id)
    ensures calls + [one] + rest == calls + ([one] + rest)
    ensures trace + [Event(t, one)] + Events(t, rest) == trace + Events(t, [one] + rest)
  {
  }

  lemma {:induction false} CompletesCalls(s: State, s': State, t: Id, op: Op, a: Start, first: Id, n: nat, calls: seq<Call>)
    returns (more: seq<Call>)
    requires Inv(s) && Completes(s, s', t, n) && Stands(op, a, s.memory, t, s.threads[t].pc, false)
    requires Working(s.threads[t]) || s.threads[t].pc == Idle
    requires SoFar(op, first, a.shape.closes, s.threads[t].pc, calls) && Cleared(op, first, s.memory, s.threads[t].pc)
    ensures Called(op, first, a.shape.closes, calls + more) && s'.memory.trace == s.memory.trace + Events(t, more)
    decreases n
  {
    hide Stands, StepBy, Inv, Called, Events;
    if n == 0 {
      more := [];
      NothingAdded(calls, s.memory.trace, t);
    } else {
      var m: State, c: Choice :| Well(c) && StepBy(s, m, t, c) && Completes(m, s', t, n - 1);
      OneStepStands(s, m, t, op, a, c, false);
      var one := OneStepAdds(s, m, t, op, a, first, c, calls);
      hide SoFar, Cleared;
      var next := if one == None then calls else calls + [one.value];
      var rest := CompletesCalls(m, s', t, op, a, first, n - 1, next);
      if one == None {
        more := rest;
      } else {
        more := [one.value] + rest;
        Joined(calls, one.value, rest, s.memory.trace, t);
      }
    }
  }

  /**
    An operation whose guards hold and that goes well makes exactly its native calls, in their order, whatever the other
    goroutines are in the middle of.
   */
  lemma CallsExactly(s: State, s': State, t: Id, op: Op) returns (calls: seq<Call>)
    requires Inv(s) && Accomplishes(s, s', t, op) && Admits(s.threads[t].outer, op)
    requires !op.Take? && !op.Drop? && Allowed(s.memory, op)
    ensures s'.memory.trace == s.memory.trace + Events(t, calls)
    ensures Called(op, s.memory.nextId, ShapeOf(s.memory).closes, calls)
  {
    hide StepBy, Inv, Completes, Allowed, Called, Stands, ShapeOf;
    var m: State, c: Choice, n: nat :| c.op == op && StepBy(s, m, t, c) && Completes(m, s', t, n);
    Begins(s, m, t, c, false);
    AskedAdds(s, m, t, c);
    calls := CompletesCalls(m, s', t, op, StartOf(s.memory), s.memory.nextId, n, []);
    assert [] + calls == calls;
  }

  lemma AskedAdds(s: State, m: State, t: Id, c: Choice)
    requires StepBy(s, m, t, c) && s.threads[t].pc == Idle && Admits(s.threads[t].outer, c.op) && !c.op.Take? && !c.op.Drop?
    requires Allowed(s.memory, c.op)
    ensures m.memory == s.memory && Working(m.threads[t])
    ensures SoFar(c.op, s.memory.nextId, ShapeOf(s.memory).closes, m.threads[t].pc, [])
    ensures Cleared(c.op, s.memory.nextId, m.memory, m.threads[t].pc)
  {
    hide Allowed, ShapeOf;
  }

  // ---------------------------------------------------------------- on the paths of the adapter

  lemma {:induction false} FinishesCompletes(s: State, s': State, t: Id, n: nat)
    requires Finishes(s, s', t, true, n)
    ensures Completes(s, s', t, n)
    decreases n
  {
    hide StepBy;
    if n > 0 {
      var m: State, c: Choice :| Goes(c, true) && StepBy(s, m, t, c) && Finishes(m, s', t, true, n - 1);
      FinishesCompletes(m, s', t, n - 1);
    }
  }

  /** The same for an operation that a path asks to go well. */
  lemma CarriedCalls(s: State, s': State, t: Id, op: Op) returns (calls: seq<Call>)
    requires Inv(s) && Carries(s, s', t, Asked(op, true)) && Admits(s.threads[t].outer, op)
    requires !op.Take? && !op.Drop? && Allowed(s.memory, op)
    ensures s'.memory.trace == s.memory.trace + Events(t, calls)
    ensures Called(op, s.memory.nextId, ShapeOf(s.memory).closes, calls)
  {
    hide StepBy, Inv, Allowed, Called, ShapeOf, Finishes, Completes;
    var m: State, c: Choice, n: nat :| Goes(c, true) && c.op == op && StepBy(s, m, t, c) && Finishes(m, s', t, true, n);
    FinishesCompletes(m, s', t, n);
    calls := CallsExactly(s, s', t, op);
  }

  /**
    The good path of the adapter's Exec on a free connection: one execution, whose two metrics are read at once, possibly
    through a temporary statement that is closed, and then a commit that succeeds. No other native call is made.
   */
  lemma ExecPathCalls(s: State, s': State, t: Id) returns (calls: seq<Call>)
    requires Inv(s) && ConnGuard(s.memory, ConnFinish(true)) && Performs(s, s', t, Ops(ExecBody()))
    ensures calls == [Execute, ResultAffected, ResultLastId]
            || Temporarily(calls, [Execute, ResultAffected, ResultLastId, CloseVm])
    ensures s'.memory.trace == s.memory.trace + Events(t, calls + [Finish(None, true, true)])
  {
    hide Inv, Carries, ShapeOf, Ops, Performs, StepBy, Returned, Temporarily, Succeeded;
    ExecBodyOps();
    var exec, commit := Asked(RunConn(ConnExec), true), Asked(RunConn(ConnFinish(true)), true);
    var m := TwoPerformed(s, s', t, exec, commit);
    BareAllowed(s);
    ExecLeavesFree(s, m, t);
    calls := CarriedCalls(s, m, t, exec.op);
    var last := CarriedCalls(m, s', t, commit.op);
    assert RESULT + [CloseVm] == [Execute, ResultAffected, ResultLastId, CloseVm];
    assert Events(t, calls + last) == Events(t, calls) + Events(t, last);
  }

  lemma BareAllowed(s: State)
    requires Inv(s) && ConnGuard(s.memory, ConnFinish(true))
    ensures Allowed(s.memory, RunConn(ConnExec)) && Bare(ShapeOf(s.memory))
  {
  }

  lemma ExecLeavesFree(s: State, m: State, t: Id)
    requires Inv(s) && Carries(s, m, t, Asked(RunConn(ConnExec), true)) && ConnGuard(s.memory, ConnFinish(true))
    ensures Inv(m) && Allowed(m.memory, RunConn(ConnFinish(true)))
  {
    hide Inv, Carries, ShapeOf;
    BareAllowed(s);
    CarriedSucceeds(s, m, t, RunConn(ConnExec));
    ExecutedIsFree(s, m, t);
  }
}
