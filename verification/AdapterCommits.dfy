/** What a `Commit` that returns nil means. */
module AdapterCommits {
  import opened Basics
  import opened Errors
  import opened Session
  import opened AdapterProtocol
  import opened AdapterRuns
  import opened AdapterHistory
  import opened AdapterTheorems

  /** A nil Commit makes durable what was pending; what was dropped before stays dropped. */
  lemma NilCommit(a: Adapter, x: nat, a': Adapter)
    requires Step(a, Commit(x), None, a')
    ensures a.core.session.tx == Some(x) && x !in a.ended
    ensures var s, s' := a.core.session, a'.core.session;
            && s'.committed == s.committed + s.pending && s'.pending == [] && s'.dropped == s.dropped
            && ((!RanUnder(s'.pending, x) && !RanUnder(s'.dropped, x)) <==> !RanUnder(s.dropped, x))
  {
  }

  /** The calls that roll back the active transaction without ending its driver.Tx. */
  predicate Abandons(a: Adapter, call: Call, x: nat) {
    && ((call.Close? && !a.closed) || (call.Reset? && Usable(a)))
    && a.core.open && a.core.children == 0 && a.active == Some(x)
  }

  // ---------------------------------------------------------------- one call

  /** The call drops work of `x`, no other way than by ending it or by abandoning it. */
  predicate DroppedBy(a: Adapter, call: Call, out: Option<Failure>, a': Adapter, x: nat) {
    && a.core.session.tx == Some(x) && RanUnder(a.core.session.pending, x)
    && (x in a'.ended || (Abandons(a, call, x) && (a'.core.session.tx == None || out.Some?)))
  }

  predicate Drops(a: Adapter, a': Adapter, x: nat) {
    !RanUnder(a.core.session.dropped, x) && RanUnder(a'.core.session.dropped, x)
  }

  lemma TaggedIsLive(s: Session, x: nat)
    requires Tagged(s) && RanUnder(s.pending, x)
    ensures s.tx == Some(x)
  {
    var i :| 0 <= i < |s.pending| && s.pending[i].tx == Some(x);
    assert s.pending[i] in s.pending;
  }

  lemma CloseDrops(a: Adapter, out: Option<Failure>, a': Adapter, x: nat)
    requires !a.closed && CloseStep(a, a', out) && Drops(a, a', x) && Tagged(a.core.session)
    ensures DroppedBy(a, Close, out, a', x)
  {
    var s := a.core.session;
    RanUnderConcat(s.dropped, s.pending, x);
    if RanUnder(s.pending, x) { TaggedIsLive(s, x); }
    hide Tagged, RanUnder;
  }

  lemma ResetDrops(a: Adapter, out: Option<Failure>, a': Adapter, x: nat)
    requires Usable(a) && ResetStep(a, a', out) && Drops(a, a', x) && Tagged(a.core.session)
    ensures DroppedBy(a, Reset, out, a', x)
  {
    var s := a.core.session;
    RanUnderConcat(s.dropped, s.pending, x);
    if RanUnder(s.pending, x) { TaggedIsLive(s, x); }
    hide Tagged, RanUnder;
  }

  lemma FinishDrops(a: Adapter, call: Call, out: Option<Failure>, a': Adapter, x: nat)
    requires (call.Commit? || call.Rollback?) && Step(a, call, out, a') && Drops(a, a', x) && Tagged(a.core.session)
    ensures DroppedBy(a, call, out, a', x)
  {
    var s := a.core.session;
    RanUnderConcat(s.dropped, s.pending, x);
    if RanUnder(s.pending, x) { TaggedIsLive(s, x); }
    assert s.dropped + [] == s.dropped;
    hide Tagged, RanUnder;
  }

  lemma StepDrops(a: Adapter, call: Call, out: Option<Failure>, a': Adapter, x: nat)
    requires Step(a, call, out, a') && Drops(a, a', x) && Tagged(a.core.session)
    ensures DroppedBy(a, call, out, a', x)
  {
    match call
    case Close => CloseDrops(a, out, a', x);
    case Reset => ResetDrops(a, out, a', x);
    case Commit(_) => FinishDrops(a, call, out, a', x);
    case Rollback(_) => FinishDrops(a, call, out, a', x);
    case _ =>
  }

  /** The rollback of an abandoned transaction can take effect and report an error. */
  lemma AbandonLoses(a: Adapter, call: Call, x: nat)
    requires Abandons(a, call, x) && ActiveIsLive(a) && x !in a.ended && RanUnder(a.core.session.pending, x)
    ensures exists o1, a1, a2 ::
              Step(a, call, o1, a1) && Step(a1, Commit(x), None, a2) && RanUnder(a2.core.session.dropped, x)
  {
    var s := a.core.session;
    var s1 := s.(dropped := s.dropped + s.pending, pending := []);
    RanUnderConcat(s.dropped, s.pending, x);
    hide RanUnder;
    var lost := Sdk(1, Server);
    var c1 := a.core.(session := s1);
    assert AbandonActive(a, c1, Some(lost));
    var s2 := s1.(commits := s1.commits + 1, committed := s1.committed + s1.pending, pending := [], tx := None);
    var c2 := c1.(session := s2);
    assert CoreFinishTx(c1, c2, x, true, None);
    var a1 := if call.Close? then a.(core := c1, active := None) else a.(core := c1, broken := true);
    var a2 := FinishTransaction(a1.(core := c2, ended := a.ended + {x}), x, false, true);
    if call.Close? {
      assert CoreClose(c1, c1, Some(Busy));
      assert Step(a, call, Some(Joined(lost, Busy)), a1);
    } else {
      assert Step(a, call, Some(BadConn), a1);
    }
    assert CommitStep(a1, a2, x, None);
    assert Step(a1, Commit(x), None, a2);
  }

  /**
    A transaction of which nothing is lost so far can lose work in one call and still commit with nil, exactly when the
    call is a Close or a ResetSession that abandons it with statements unresolved.
   */
  lemma NilCommitLosesExactly(a: Adapter, call: Call, x: nat)
    requires Tagged(a.core.session) && ActiveIsLive(a) && !RanUnder(a.core.session.dropped, x)
    ensures (exists o1, a1, a2 ::
               Step(a, call, o1, a1) && Step(a1, Commit(x), None, a2) && RanUnder(a2.core.session.dropped, x))
            <==> Abandons(a, call, x) && x !in a.ended && RanUnder(a.core.session.pending, x)
  {
    if Abandons(a, call, x) && x !in a.ended && RanUnder(a.core.session.pending, x) { AbandonLoses(a, call, x); }
    forall o1, a1, a2 | Step(a, call, o1, a1) && Step(a1, Commit(x), None, a2) && RanUnder(a2.core.session.dropped, x)
      ensures Abandons(a, call, x) && x !in a.ended && RanUnder(a.core.session.pending, x)
    {
      NilCommit(a1, x, a2);
      StepDrops(a, call, o1, a1, x);
      EndedGrows(a, call, o1, a1);
      hide Step, RanUnder;
    }
  }

  lemma EndedGrows(a: Adapter, call: Call, out: Option<Failure>, a': Adapter)
    requires Step(a, call, out, a')
    ensures a.ended <= a'.ended
  {
    match call
    case Close =>
    case Reset =>
    case Exec(_) =>
    case Commit(_) =>
    case _ =>
  }

  // ---------------------------------------------------------------- runs

  lemma {:induction false} EndedStays(states: seq<Adapter>, turns: seq<Turn>, i: nat, j: nat)
    requires IsRun(states, turns) && i <= j < |states|
    ensures states[i].ended <= states[j].ended
    decreases j - i
  {
    if i < j {
      EndedStays(states, turns, i, j - 1);
      EndedGrows(states[j - 1], turns[j - 1].call, turns[j - 1].out, states[j]);
    }
  }

  lemma NumbersOnce(states: seq<Adapter>, turns: seq<Turn>, i: nat, j: nat)
    requires IsRun(states, turns) && i <= j < |states|
    ensures NoReturn(states[i].core.session, states[j].core.session)
    ensures Tagged(states[j].core.session)
  {
    RunLater(states, turns, i, j);
    RunLater(states, turns, 0, j);
  }

  lemma NothingDropped(a: Adapter, x: nat)
    requires Connected(a)
    ensures !RanUnder(a.core.session.dropped, x)
  {
  }

  /** Dropped work of a transaction was dropped by some call, when the transaction was live. */
  lemma {:induction false} FirstDrop(states: seq<Adapter>, turns: seq<Turn>, i: nat, x: nat) returns (k: nat)
    requires IsRun(states, turns) && i < |states| && RanUnder(states[i].core.session.dropped, x)
    ensures k < i && Drops(states[k], states[k + 1], x)
    ensures DroppedBy(states[k], turns[k].call, turns[k].out, states[k + 1], x) && x < states[k].core.session.nextTx
  {
    hide Step, RanUnder, Abandons;
    assert i > 0 by { NothingDropped(states[0], x); }
    if RanUnder(states[i - 1].core.session.dropped, x) {
      k := FirstDrop(states, turns, i - 1, x);
    } else {
      k := i - 1;
      NumbersOnce(states, turns, 0, k);
      StepDrops(states[k], turns[k].call, turns[k].out, states[k + 1], x);
    }
  }

  /** The call abandoned transaction `x`, reported an error, and did drop work of it. */
  predicate Lost(states: seq<Adapter>, turns: seq<Turn>, k: nat, x: nat) {
    && k < |turns| && k + 1 < |states|
    && Abandons(states[k], turns[k].call, x) && turns[k].out.Some?
    && RanUnder(states[k].core.session.pending, x) && Drops(states[k], states[k + 1], x)
  }

  /** In every run, a transaction that committed with nil has dropped work exactly if an earlier Close or Reset lost it. */
  lemma NilCommitLost(states: seq<Adapter>, turns: seq<Turn>, i: nat, x: nat)
    requires IsRun(states, turns) && i < |turns| && turns[i] == Turn(Commit(x), None)
    ensures RanUnder(states[i + 1].core.session.dropped, x) <==> exists k :: 0 <= k < i && Lost(states, turns, k, x)
  {
    NilCommit(states[i], x, states[i + 1]);
    hide Later, Step, RanUnder, Abandons;
    if k :| 0 <= k < i && Lost(states, turns, k, x) {
      DroppedStays(states, turns, k + 1, i, x);
    }
    if RanUnder(states[i].core.session.dropped, x) {
      var k := FirstDrop(states, turns, i, x);
      EndedStays(states, turns, k + 1, i);
      NumbersOnce(states, turns, k + 1, i);
      NumbersOnce(states, turns, k, k + 1);
      assert Lost(states, turns, k, x);
    }
  }

  lemma DroppedStays(states: seq<Adapter>, turns: seq<Turn>, i: nat, j: nat, x: nat)
    requires IsRun(states, turns) && i <= j < |states| && RanUnder(states[i].core.session.dropped, x)
    ensures RanUnder(states[j].core.session.dropped, x)
  {
    RunLater(states, turns, i, j);
    var s, s' := states[i].core.session, states[j].core.session;
    var n :| 0 <= n < |s.dropped| && s.dropped[n].tx == Some(x);
    assert s'.dropped[n] == s.dropped[n];
  }

  /**
    A nil Commit is durable: unless an earlier Close or ResetSession that abandoned the transaction reported an error,
    every statement ever run under it is durable at once and stays so, and none is run later.
   */
  lemma NilCommitIsDurable(states: seq<Adapter>, turns: seq<Turn>, i: nat, j: nat, x: nat, w: Work)
    requires IsRun(states, turns) && i < j < |states| && turns[i] == Turn(Commit(x), None)
    requires forall k :: 0 <= k < i && Abandons(states[k], turns[k].call, x) ==> turns[k].out == None
    requires var s := states[j].core.session; w.tx == Some(x) && w in s.committed + s.pending + s.dropped
    ensures w in states[j].core.session.committed
  {
    var s := states[j].core.session;
    NilCommit(states[i], x, states[i + 1]);
    NilCommitLost(states, turns, i, x);
    NumbersOnce(states, turns, 0, i);
    NumbersOnce(states, turns, i, i + 1);
    NumbersOnce(states, turns, i + 1, j);
    assert states[i + 1].core.session.tx == None;
    hide Later, Step, Abandons;
    if w in s.dropped {
      MemberRanUnder(s.dropped, w);
      var k := FirstDrop(states, turns, j, x);
      if k <= i {
        DroppedStays(states, turns, k + 1, i + 1, x);
      } else {
        NumbersOnce(states, turns, i + 1, k);
      }
    }
  }
}
