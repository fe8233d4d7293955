/** When a call breaks a connection, what a broken one does, and that the adapter never mistakes its transaction. */
module AdapterFates {
  import opened Basics
  import opened Errors
  import opened Session
  import opened AdapterProtocol
  import opened AdapterRuns
  import opened AdapterHistory
  import opened AdapterCommits

  // ---------------------------------------------------------------- breaking

  /** A driver.Tx that is finished the first time breaks its connection exactly if the caller is told of any error. */
  lemma FinishBreaksExactly(a: Adapter, x: nat, commit: bool, out: Option<Failure>, a': Adapter)
    requires Step(a, if commit then Commit(x) else Rollback(x), out, a') && x !in a.ended
    ensures a'.broken <==> a.broken || out.Some?
    ensures x in a'.ended
  {
  }

  /** Begin, Exec, Query and the cursor break the connection exactly if they tell of a closed, network, protocol or timeout error. */
  lemma ObservedBreaksExactly(a: Adapter, call: Call, out: Option<Failure>, a': Adapter)
    requires Step(a, call, out, a')
    requires call.Begin? || call.Exec? || call.Query? || call.NextRow? || call.CloseRows?
    ensures a'.broken <==>
              || a.broken
              || (&& out.Some? && out.value.Failed?
                  && match out.value.error
                     case Closed => true
                     case Sdk(_, kind) => kind == Network || kind == Protocol || kind == Timeout
                     case _ => false)
  {
  }

  /** Prepare and Ping of a usable connection break it exactly if they say "retry", and then tell of no breaking error. */
  lemma RetriedBreaksExactly(a: Adapter, call: Call, out: Option<Failure>, a': Adapter)
    requires Step(a, call, out, a') && (call.Prepare? || call.Ping?)
    ensures if !a.closed && a.held && !a.broken
            then (a'.broken <==> out == Some(BadConn)) && !TellsBreak(out)
            else a' == a && out == Some(BadConn)
    ensures a' == a.(broken := a'.broken)
  {
  }

  /** A reset breaks a usable connection exactly if it fails, and then says "retry". Close breaks nothing. */
  lemma ResetBreaksExactly(a: Adapter, call: Call, out: Option<Failure>, a': Adapter)
    requires Step(a, call, out, a') && (call.Reset? || call.Close?)
    ensures call.Close? ==> a'.broken == a.broken
    ensures call.Reset? ==> (a'.broken <==> a.broken || (Usable(a) && out.Some?)) && (out.Some? ==> out == Some(BadConn))
  {
    if call.Reset? && Usable(a) {
      var c1: Core, e1: Option<Error> :| AbandonActive(a, c1, e1)
        && if e1.Some? then a' == a.(core := c1, broken := true) && out == Some(BadConn)
           else ResetIdle(a.(core := c1, active := None), a', out);
    }
  }

  /** A connection that is closed, let go or broken is asked in vain: nothing happens to it. */
  lemma UnusableRefuses(a: Adapter, call: Call, out: Option<Failure>, a': Adapter)
    requires Step(a, call, out, a') && (a.closed || !a.held || a.broken)
    requires call.Prepare? || call.Begin? || call.Ping? || call.Reset? || call.Exec? || call.Query?
    ensures a' == a && (out == Some(BadConn) || out == Some(Rejected))
  {
  }

  /** Exec, Query and Begin never say "retry" on a usable connection. */
  lemma UsableIsTried(a: Adapter, call: Call, out: Option<Failure>, a': Adapter)
    requires Step(a, call, out, a') && Usable(a) && (call.Begin? || call.Exec? || call.Query?)
    ensures out != Some(BadConn)
  {
  }

  /** Broken connections stay broken, in every run. */
  lemma {:induction false} BrokenStays(states: seq<Adapter>, turns: seq<Turn>, i: nat, j: nat)
    requires IsRun(states, turns) && i <= j < |states| && states[i].broken
    ensures states[j].broken
    decreases j - i
  {
    if i < j {
      BrokenStays(states, turns, i, j - 1);
      StepStaysBroken(states[j - 1], turns[j - 1].call, turns[j - 1].out, states[j]);
    }
  }

  lemma StepStaysBroken(a: Adapter, call: Call, out: Option<Failure>, a': Adapter)
    requires Step(a, call, out, a') && a.broken
    ensures a'.broken
  {
    match call
    case Close => ResetBreaksExactly(a, call, out, a');
    case Reset => ResetBreaksExactly(a, call, out, a');
    case Commit(x) => if x !in a.ended { FinishBreaksExactly(a, x, true, out, a'); }
    case Rollback(x) => if x !in a.ended { FinishBreaksExactly(a, x, false, out, a'); }
    case Prepare => RetriedBreaksExactly(a, call, out, a');
    case Ping => RetriedBreaksExactly(a, call, out, a');
    case _ => ObservedBreaksExactly(a, call, out, a');
  }

  // ---------------------------------------------------------------- closing

  /** Close lets go of the core connection exactly when that has closed, which nothing open may prevent. */
  lemma CloseLetsGoExactly(a: Adapter, out: Option<Failure>, a': Adapter)
    requires Step(a, Close, out, a') && !a.closed && a.held && a.core.open
    ensures a'.closed <==> !a'.core.open
    ensures a'.held <==> a'.core.open
    ensures out == None ==> a'.closed && a'.core.session.tx == None && a.core.children == 0
    ensures a'.core.children == a.core.children
  {
  }

  // ---------------------------------------------------------------- the active transaction

  /** The adapter's transaction is the core's. Only a failed Close makes it forget one. */
  lemma StepKnowsItsTx(a: Adapter, call: Call, out: Option<Failure>, a': Adapter)
    requires Step(a, call, out, a') && a.active == a.core.session.tx && !FailedClose(call, out)
    ensures a'.active == a'.core.session.tx
  {
    match call
    case Close => if !a.closed { CloseKnows(a, out, a'); }
    case Reset => if Usable(a) && out != Some(Rejected) { ResetKnows(a, out, a'); }
    case Exec(_) =>
    case Commit(_) =>
    case Rollback(_) =>
    case Begin =>
    case Query(_) =>
    case _ =>
  }

  lemma CloseKnows(a: Adapter, out: Option<Failure>, a': Adapter)
    requires CloseStep(a, a', out) && a.active == a.core.session.tx && out == None
    ensures a'.active == a'.core.session.tx
  {
  }

  lemma ResetKnows(a: Adapter, out: Option<Failure>, a': Adapter)
    requires ResetStep(a, a', out) && a.active == a.core.session.tx
    ensures a'.active == a'.core.session.tx
  {
  }

  /** In every run, up to the first failed Close: the adapter has an active transaction exactly when the core has, the same one. */
  lemma {:induction false} RunKnowsItsTx(states: seq<Adapter>, turns: seq<Turn>, n: nat)
    requires IsRun(states, turns) && n <= |turns| && forall i :: 0 <= i < n ==> !FailedClose(turns[i].call, turns[i].out)
    ensures states[n].active == states[n].core.session.tx
  {
    if n > 0 {
      RunKnowsItsTx(states, turns, n - 1);
      StepKnowsItsTx(states[n - 1], turns[n - 1].call, turns[n - 1].out, states[n]);
    }
  }

  /** In every run, a driver.Tx that was finished once answers ErrTxDone for good and does nothing. */
  lemma FinishedOnce(states: seq<Adapter>, turns: seq<Turn>, i: nat, j: nat, x: nat)
    requires IsRun(states, turns) && i < j < |turns|
    requires (turns[i].call == Commit(x) || turns[i].call == Rollback(x)) && (turns[j].call == Commit(x) || turns[j].call == Rollback(x))
    ensures turns[j].out == Some(Failed(TxDone)) && states[j + 1] == states[j]
  {
    if x !in states[i].ended {
      FinishBreaksExactly(states[i], x, turns[i].call.Commit?, turns[i].out, states[i + 1]);
    }
    EndedStays(states, turns, i + 1, j);
    EndedStays(states, turns, i, j);
    assert Step(states[j], turns[j].call, turns[j].out, states[j + 1]);
    hide CommitStep, RollbackStep;
  }
}
