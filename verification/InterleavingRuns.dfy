/** The invariant over whole runs, and what it means for callers. */
module InterleavingRuns {
  import opened Basics
  import opened Interleaving
  import opened InterleavingSafety
  import opened InterleavingSteps

  /** A step keeps only mutexes already held, plus the one it waited for. */
  predicate Grown(th: Thread, th': Thread) {
    var w := Wants(th.pc);
    && (th'.tx.Some? ==> th'.tx == th.tx || w == Some((TxMu(th'.tx.value), Exclusive)))
    && (th'.rows.Some? ==> th'.rows == th.rows || w == Some((RowsMu(th'.rows.value), Exclusive)))
    && (th'.stmt.Some? ==> th'.stmt == th.stmt || w == Some((StmtMu(th'.stmt.value), Exclusive)))
    && (th'.conn != Free ==> th'.conn == th.conn || w == Some((ConnMu, th'.conn)))
    && (forall l :: l in th'.outer ==> l in th.outer || (IsOuter(l) && w == Some((l, if l.TxMu? then Mode.Shared else Exclusive))))
  }

  lemma GrowsSection(s: Memory, t: Id, th: Thread, c: Choice)
    requires LocksOk(th) && (AtEnter(th.pc) || AtHandle(th.pc) || AtTx(th.pc) || AtStmt(th.pc) || AtTemp(th.pc) || AtResult(th.pc))
    ensures Grown(th, Next(s, t, th, c).th)
  {
    hide Note, Odd, GrabVm, ReturnVm, Register, Detach, CloseDetached, Reattach, GrabCursor, DropCursor, ReleaseDetached,
      Unregister, PublishDirect, PublishOfStmt, Fade, AddCounted, ReleaseFaded, PayOwed, Cross;
  }

  lemma GrowsHandle(s: Memory, t: Id, th: Thread, c: Choice)
    requires LocksOk(th) && (AtCloseVm(th.pc) || AtQuery(th.pc) || AtPublish(th.pc) || AtReset(th.pc) || AtCloseCursor(th.pc))
    ensures Grown(th, Next(s, t, th, c).th)
  {
    hide Note, Odd, GrabVm, ReturnVm, Register, Detach, CloseDetached, Reattach, GrabCursor, DropCursor, ReleaseDetached,
      Unregister, PublishDirect, PublishOfStmt, Fade, AddCounted, ReleaseFaded, PayOwed, Cross;
  }

  lemma GrowsEntry(s: Memory, t: Id, th: Thread, c: Choice)
    requires LocksOk(th)
    requires th.pc.InConn? || th.pc.EnterStmt? || th.pc.EnterRows? || th.pc.EnterOwed? || th.pc.ResetClose? || th.pc.ResetPrepare?
    ensures Grown(th, Next(s, t, th, c).th)
  {
    hide Note, Odd, GrabVm, ReturnVm, Register, Detach, CloseDetached, Reattach, GrabCursor, DropCursor, ReleaseDetached,
      Unregister, PublishDirect, PublishOfStmt, Fade, AddCounted, ReleaseFaded, PayOwed, Cross;
  }

  lemma GrowsOuter(s: Memory, t: Id, th: Thread, c: Choice)
    requires LocksOk(th) && (th.pc.TakeOuter? || th.pc.Unlock? || th.pc.Idle? || th.pc.InRows?)
    ensures Grown(th, Next(s, t, th, c).th)
  {
    hide Note, Odd, GrabVm, ReturnVm, Register, Detach, CloseDetached, Reattach, GrabCursor, DropCursor, ReleaseDetached,
      Unregister, PublishDirect, PublishOfStmt, Fade, AddCounted, ReleaseFaded, PayOwed, Cross;
  }

  lemma StepGrows(s: Memory, t: Id, th: Thread, c: Choice)
    requires LocksOk(th)
    ensures Grown(th, Next(s, t, th, c).th)
  {
    hide Next, LocksOk, Grown;
    if AtEnter(th.pc) || AtHandle(th.pc) || AtTx(th.pc) || AtStmt(th.pc) || AtTemp(th.pc) || AtResult(th.pc) {
      GrowsSection(s, t, th, c);
    } else if AtCloseVm(th.pc) || AtQuery(th.pc) || AtPublish(th.pc) || AtReset(th.pc) || AtCloseCursor(th.pc) {
      GrowsHandle(s, t, th, c);
    } else if th.pc.InConn? || th.pc.EnterStmt? || th.pc.EnterRows? || th.pc.EnterOwed? || th.pc.ResetClose? || th.pc.ResetPrepare? {
      GrowsEntry(s, t, th, c);
    } else {
      GrowsOuter(s, t, th, c);
    }
  }

  lemma QuietSection(s: Memory, t: Id, th: Thread, c: Choice)
    requires AtEnter(th.pc) || AtHandle(th.pc) || AtTx(th.pc) || AtStmt(th.pc) || AtReset(th.pc) || AtPublish(th.pc)
    ensures Calls(th.pc) || Next(s, t, th, c).memory.trace == s.trace
  {
  }

  lemma QuietReleaseStmt(s: Memory, t: Id, th: Thread, c: Choice)
    requires th.pc.ReleaseStmt?
    ensures Next(s, t, th, c).memory.trace == s.trace
  {
    hide NextEnter, NextInConn, NextTemp, NextResult, NextHandle, NextTx, NextStmt, NextQuery, NextPublish, NextReset,
      NextEnterStmt, NextResetClose, NextResetPrepare, NextEnterRows, NextRows, NextOwed, NextUnlock, NextIdle, NextCloseCursor;
  }

  lemma QuietChild(s: Memory)
    ensures ReleaseChild(s).trace == s.trace
  {
  }

  lemma QuietFaded(s: Memory, next: CursorSlot)
    ensures ReleaseFaded(s, next).trace == s.trace
  {
    QuietChild(s);
    hide ReleaseChild;
  }

  lemma QuietReleaseRows(s: Memory, t: Id, th: Thread, c: Choice)
    requires th.pc.ReleaseRows?
    ensures Next(s, t, th, c).memory.trace == s.trace
  {
    QuietFaded(s, NoCursor);
    if th.pc.parent.Some? { QuietFaded(s, Owing(t, th.pc.rows, th.pc.parent.value)); }
    hide NextEnter, NextInConn, NextTemp, NextResult, NextHandle, NextTx, NextStmt, NextQuery, NextPublish, NextReset,
      NextEnterStmt, NextResetClose, NextResetPrepare, NextEnterRows, NextRows, NextOwed, NextUnlock, NextIdle, NextCloseVm,
      ReleaseFaded;
  }

  lemma QuietEntry(s: Memory, t: Id, th: Thread, c: Choice)
    requires th.pc.EnterStmt? || th.pc.EnterRows? || th.pc.EnterOwed?
    ensures Next(s, t, th, c).memory.trace == s.trace
  {
  }

  lemma QuietOuter(s: Memory, t: Id, th: Thread, c: Choice)
    requires th.pc.TakeOuter? || th.pc.Unlock? || th.pc.Idle?
    ensures Next(s, t, th, c).memory.trace == s.trace
  {
  }

  lemma QuietStep(s: Memory, t: Id, th: Thread, c: Choice)
    requires !Calls(th.pc)
    ensures Next(s, t, th, c).memory.trace == s.trace
  {
    hide Next;
    if AtEnter(th.pc) || AtHandle(th.pc) || AtTx(th.pc) || AtStmt(th.pc) || AtReset(th.pc) || AtPublish(th.pc) {
      QuietSection(s, t, th, c);
    } else if AtCloseVm(th.pc) {
      QuietReleaseStmt(s, t, th, c);
    } else if AtCloseCursor(th.pc) {
      QuietReleaseRows(s, t, th, c);
    } else if th.pc.EnterStmt? || th.pc.EnterRows? || th.pc.EnterOwed? {
      QuietEntry(s, t, th, c);
    } else {
      QuietOuter(s, t, th, c);
    }
  }

  lemma GrownApart(th: Thread, th': Thread, w: Thread)
    requires Apart(th, w) && Grown(th, th') && OuterBelow(w, 4)
    requires var want := Wants(th.pc); want.Some? ==> !Conflict(want.value.1, Holds(w, want.value.0))
    ensures Apart(th', w)
  {
  }

  // ---------------------------------------------------------------- one step keeps the invariant

  /** The stepping goroutine and the shared state. */
  lemma StepKeeps(s: Memory, t: Id, th: Thread, c: Choice)
    requires Ready(s, t, th)
    ensures var m := Next(s, t, th, c); Fine(s, m.memory, t, m.th) && Local(m.memory, t, m.th)
  {
    hide MemoryOk, Guarded, LocksOk, SlotsOk, FactsOk, RecentOk, EntryOk;
    hide NextEnter, NextTemp, NextResult, NextHandle, NextTx, NextStmt, NextCloseVm, NextQuery, NextPublish, NextReset,
      NextCloseCursor, NextOpen, NextBoundary, NextEnterStmt, NextResetClose, NextResetPrepare, NextEnterRows, NextRows,
      NextOwed, NextUnlock, NextIdle;
    if AtEnter(th.pc) { FineEnter(s, t, th, c); SlotsEnter(s, t, th, c); PlaceEnter(s, t, th, c); }
    else if AtTemp(th.pc) { FineTemp(s, t, th, c); SlotsTemp(s, t, th, c); PlaceTemp(s, t, th, c); }
    else if AtResult(th.pc) { FineResult(s, t, th, c); SlotsResult(s, t, th, c); PlaceResult(s, t, th, c); }
    else if AtHandle(th.pc) { FineHandle(s, t, th, c); SlotsHandle(s, t, th, c); PlaceHandle(s, t, th, c); }
    else if AtTx(th.pc) { FineTx(s, t, th, c); SlotsTx(s, t, th, c); PlaceTx(s, t, th, c); }
    else if AtStmt(th.pc) { FineStmt(s, t, th, c); SlotsStmt(s, t, th, c); PlaceStmt(s, t, th, c); }
    else if AtCloseVm(th.pc) { FineCloseVm(s, t, th, c); SlotsCloseVm(s, t, th, c); PlaceCloseVm(s, t, th, c); }
    else if AtQuery(th.pc) { FineQuery(s, t, th, c); SlotsQuery(s, t, th, c); PlaceQuery(s, t, th, c); }
    else if AtPublish(th.pc) { FinePublish(s, t, th, c); SlotsPublish(s, t, th, c); PlacePublish(s, t, th, c); }
    else if AtReset(th.pc) { FineReset(s, t, th, c); SlotsReset(s, t, th, c); PlaceReset(s, t, th, c); }
    else if AtCloseCursor(th.pc) { FineCloseCursor(s, t, th, c); SlotsCloseCursor(s, t, th, c); PlaceCloseCursor(s, t, th, c); }
    else {
      match th.pc
      case InConn(op) => KeepInConn(s, t, th, op, c);
      case EnterStmt(x, op) => FineEnterStmt(s, t, th, x, op); SlotsEnterStmt(s, t, th, x, op); PlaceEnterStmt(s, t, th, x, op);
      case ResetClose(x, v) => FineResetClose(s, t, th, x, v, c); SlotsResetClose(s, t, th, x, v, c); PlaceResetClose(s, t, th, x, v, c);
      case ResetPrepare(x) => FineResetPrepare(s, t, th, x, c); SlotsResetPrepare(s, t, th, x, c); PlaceResetPrepare(s, t, th, x, c);
      case EnterRows(r, close) => FineEnterRows(s, t, th, r, close); SlotsEnterRows(s, t, th, r, close); PlaceEnterRows(s, t, th, r, close);
      case InRows(r) => FineRows(s, t, th, r, c); SlotsRows(s, t, th, r, c); PlaceRows(s, t, th, r, c);
      case EnterOwed(r, x, close) => FineOwed(s, t, th, r, x, close); SlotsOwed(s, t, th, r, x, close); PlaceOwed(s, t, th, r, x, close);
      case Unlock => FineUnlock(s, t, th); SlotsUnlock(s, t, th); PlaceUnlock(s, t, th);
      case Idle => FineIdle(s, t, th, c); SlotsIdle(s, t, th, c); PlaceIdle(s, t, th, c);
      case TakeOuter(l) => KeepTakeOuter(s, t, th);
    }
  }

  lemma KeepInConn(s: Memory, t: Id, th: Thread, op: ConnOp, c: Choice)
    requires Ready(s, t, th) && th.pc == InConn(op)
    ensures var m := NextInConn(s, t, th, op, c); Fine(s, m.memory, t, m.th) && Local(m.memory, t, m.th)
  {
    if c.branch == Abort && !op.ConnClose? {
      SameFine(s, t, th.(pc := Unlock));
    } else {
      hide MemoryOk, Guarded, LocksOk, SlotsOk, FactsOk, RecentOk, EntryOk, NextOpen, NextBoundary;
      if op.ConnExec? || op.ConnPrepare? || op.ConnQuery? {
        FineOpen(s, t, th, op, c); SlotsOpen(s, t, th, op, c); PlaceOpen(s, t, th, op, c);
      } else {
        FineBoundary(s, t, th, op, c); SlotsBoundary(s, t, th, op, c); PlaceBoundary(s, t, th, op, c);
      }
    }
  }

  lemma KeepTakeOuter(s: Memory, t: Id, th: Thread)
    requires Ready(s, t, th) && th.pc.TakeOuter?
    ensures var th' := th.(outer := th.outer + {th.pc.lock}, pc := Idle); Fine(s, s, t, th') && Local(s, t, th')
  {
  }

  /** Any other goroutine. */
  lemma OthersKeep(s: Memory, t: Id, th: Thread, c: Choice, u: Id, w: Thread)
    requires Ready(s, t, th) && Local(s, u, w) && t != u && Apart(th, w)
    requires var m := Next(s, t, th, c); Guarded(s, m.memory, t, m.th) && Apart(m.th, w)
    ensures Local(Next(s, t, th, c).memory, u, w)
  {
    var m := Next(s, t, th, c);
    BesideOk(s, m.memory, t, m.th, u, w);
    if Calls(th.pc) {
      NoCallBeside(s, t, th, u, w);
    } else {
      QuietStep(s, t, th, c);
    }
    hide Next, Guarded, SlotsOk, FactsOk, LocksOk, MemoryOk, EntryOk;
  }

  lemma OneOtherKeeps(s: State, t: Id, c: Choice, u: Id)
    requires Inv(s) && Enabled(s, t) && u in s.threads && u != t
    requires var m := Next(s.memory, t, s.threads[t], c); Fine(s.memory, m.memory, t, m.th)
    ensures var m := Next(s.memory, t, s.threads[t], c);
            && Local(m.memory, u, s.threads[u])
            && Apart(m.th, s.threads[u]) && Apart(s.threads[u], m.th)
  {
    var th, w := s.threads[t], s.threads[u];
    assert Local(s.memory, t, th) && Local(s.memory, u, w) && Apart(th, w);
    EntryHolds(s, t);
    StepGrows(s.memory, t, th, c);
    var m := Next(s.memory, t, th, c);
    hide Next, MemoryOk, SlotsOk, FactsOk, RecentOk, Guarded, EntryOk, Grown;
    var want := Wants(th.pc);
    if want.Some? { assert CanTake(s, t, want.value.0, want.value.1); }
    GrownApart(th, m.th, w);
    OthersKeep(s.memory, t, th, c, u, w);
  }

  lemma HoldersStay(s: Memory, s': Memory, t: Id, th: Thread)
    requires Guarded(s, s', t, th)
    ensures VmHolder(s'.vm) == None || VmHolder(s'.vm) == Some(t) || VmHolder(s'.vm) == VmHolder(s.vm)
    ensures CursorHolder(s'.cursor) == None || CursorHolder(s'.cursor) == Some(t) || CursorHolder(s'.cursor) == CursorHolder(s.cursor)
  {
  }

  lemma InvStep(s: State, s': State, t: Id, c: Choice)
    requires Inv(s) && StepBy(s, s', t, c)
    ensures Inv(s')
  {
    var th := s.threads[t];
    var m := Next(s.memory, t, th, c);
    assert Local(s.memory, t, th);
    EntryHolds(s, t);
    StepKeeps(s.memory, t, th, c);
    forall u | u in s.threads && u != t
      ensures Local(m.memory, u, s.threads[u]) && Apart(m.th, s.threads[u]) && Apart(s.threads[u], m.th)
    {
      OneOtherKeeps(s, t, c, u);
    }
    HoldersStay(s.memory, m.memory, t, m.th);
    hide Next, MemoryOk, Local, Apart, Guarded, EntryOk, VmHolder, CursorHolder;
  }

  lemma InitHolds(s: State)
    requires Init(s)
    ensures Inv(s)
  {
    assert TxReplay([]) == TxLog(None, {});
  }

  /** Every reachable state satisfies the invariant. */
  lemma {:induction false} Reachable(run: seq<State>, i: nat)
    requires IsRun(run) && i < |run|
    ensures Inv(run[i])
  {
    hide Inv, StepBy;
    if i == 0 {
      InitHolds(run[0]);
    } else {
      Reachable(run, i - 1);
      assert Step(run[i - 1], run[i - 1 + 1]);
      var t, c :| StepBy(run[i - 1], run[i], t, c);
      InvStep(run[i - 1], run[i], t, c);
    }
  }
}
