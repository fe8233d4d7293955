/**
  The two mutexes of `internal/csdk` under the step system of `Interleaving`.

  A native call holds the mutex of its `csdk.Conn`, and a one-shot execution takes the mutex of its `csdk.Bind` inside it;
  filling a bind graph takes the `csdk.Bind` mutex alone. Here a goroutine at a native call goes through these mutexes
  before the step of `Interleaving` that makes the call. No mutex of the core is taken under them.
 */
module NativeLocks {
  import opened Basics
  import opened Interleaving
  import opened InterleavingSafety
  import opened InterleavingSteps
  import opened InterleavingRuns
  import opened InterleavingTheorems

  /** Where a goroutine stands with the mutexes of the native layer. */
  datatype Phase =
    | Outside
    | WaitConn                 // csdk.Conn.mu
    | HasConn                   // holds it
    | WaitBoth(bind: Id)       // holds csdk.Conn.mu, waits for csdk.Bind.mu
    | InBoth(bind: Id)         // holds both
    | WaitBind(bind: Id)       // csdk.Bind.mu alone
    | HasBind(bind: Id)

  datatype Full = Full(core: State, phases: map<Id, Phase>)

  function PhaseOf(s: Full, t: Id): Phase { if t in s.phases then s.phases[t] else Outside }

  predicate HoldsConn(p: Phase) { p.HasConn? || p.WaitBoth? || p.InBoth? }

  predicate HoldsBind(p: Phase, bind: Id) { (p.InBoth? || p.HasBind?) && p.bind == bind }

  /** `p` is kept out by `other`. */
  predicate Excludes(p: Phase, other: Phase) {
    || (p.WaitConn? && HoldsConn(other))
    || ((p.WaitBoth? || p.WaitBind?) && HoldsBind(other, p.bind))
  }

  ghost predicate FullBlocked(s: Full, t: Id)
    requires t in s.core.threads
  {
    if PhaseOf(s, t).Outside? then Blocked(s.core, t)
    else exists u :: u in s.core.threads && u != t && Excludes(PhaseOf(s, t), PhaseOf(s, u))
  }

  /** The mutex a goroutine takes next, if nobody keeps it out, and the mutexes it gives back. */
  predicate PhaseMove(p: Phase, p': Phase) {
    match p
    case Outside => p'.WaitConn? || p'.WaitBind?
    case WaitConn => p'.HasConn?
    case HasConn => p'.WaitBoth?
    case WaitBoth(b) => p' == InBoth(b)
    case WaitBind(b) => p' == HasBind(b)
    case HasBind(_) => p' == Outside
    case InBoth(_) => false
  }

  /** A move between the mutexes, which makes no core step. */
  ghost predicate PhaseStep(s: Full, s': Full, t: Id, p: Phase) {
    && t in s.core.threads && Calls(s.core.threads[t].pc)
    && PhaseMove(PhaseOf(s, t), p)
    && !FullBlocked(s, t)
    && s' == s.(phases := s.phases[t := p])
  }

  /** A core step: it makes its native call, if any, under csdk.Conn.mu, and leaves the native layer. */
  ghost predicate CoreStep(s: Full, s': Full, t: Id, c: Choice) {
    && StepBy(s.core, s'.core, t, c)
    && (PhaseOf(s, t).Outside? || PhaseOf(s, t).HasConn? || PhaseOf(s, t).InBoth?)
    && (s'.core.memory.trace != s.core.memory.trace ==> HoldsConn(PhaseOf(s, t)))
    && s'.phases == s.phases[t := Outside]
  }

  ghost predicate FullStep(s: Full, s': Full) {
    (exists t, p :: PhaseStep(s, s', t, p)) || (exists t, c :: CoreStep(s, s', t, c))
  }

  ghost predicate IsFullRun(run: seq<Full>) {
    && |run| > 0
    && Init(run[0].core) && run[0].phases == map[]
    && forall i :: 0 <= i < |run| - 1 ==> FullStep(run[i], run[i + 1])
  }

  /** Inside the native layer a goroutine stands at a native call, and at most one holds csdk.Conn.mu. */
  ghost predicate FullInv(s: Full) {
    && Inv(s.core)
    && (forall t :: !PhaseOf(s, t).Outside? ==> t in s.core.threads && Calls(s.core.threads[t].pc))
    && (forall t, u :: HoldsConn(PhaseOf(s, t)) && HoldsConn(PhaseOf(s, u)) ==> t == u)
  }

  lemma NotExcluded(s: Full, t: Id, u: Id)
    requires t in s.core.threads && u in s.core.threads && u != t && !PhaseOf(s, t).Outside? && !FullBlocked(s, t)
    ensures !Excludes(PhaseOf(s, t), PhaseOf(s, u))
  {
  }

  lemma PhaseStepKeeps(s: Full, s': Full, t: Id, p: Phase)
    requires FullInv(s) && PhaseStep(s, s', t, p)
    ensures FullInv(s')
  {
    hide Inv, Calls, Blocked;
    forall u ensures PhaseOf(s', u) == if u == t then p else PhaseOf(s, u) { }
    if PhaseOf(s, t).WaitConn? {
      forall u | u in s.core.threads && u != t ensures !HoldsConn(PhaseOf(s, u)) { NotExcluded(s, t, u); }
    }
  }

  lemma OthersStay(s: State, s': State, t: Id, c: Choice)
    requires StepBy(s, s', t, c)
    ensures t in s.threads && forall u :: u in s.threads ==> u in s'.threads && (u != t ==> s'.threads[u] == s.threads[u])
  {
    hide Next;
  }

  lemma CoreStepKeeps(s: Full, s': Full, t: Id, c: Choice)
    requires FullInv(s) && CoreStep(s, s', t, c)
    ensures FullInv(s')
  {
    hide Inv, Calls, StepBy, Next, Enabled;
    InvStep(s.core, s'.core, t, c);
    OthersStay(s.core, s'.core, t, c);
    forall u ensures PhaseOf(s', u) == if u == t then Outside else PhaseOf(s, u) { }
  }

  /** Every state of a run with the native mutexes keeps the invariant of the core, so what is proved of it holds here too. */
  lemma {:induction false} FullReachable(run: seq<Full>, i: nat)
    requires IsFullRun(run) && i < |run|
    ensures FullInv(run[i])
  {
    if i == 0 {
      InitHolds(run[0].core);
    } else {
      FullReachable(run, i - 1);
      var s, s' := run[i - 1], run[i];
      assert FullStep(s, run[i - 1 + 1]);
      hide FullInv, PhaseStep, CoreStep, IsFullRun;
      if t, p :| PhaseStep(s, s', t, p) {
        PhaseStepKeeps(s, s', t, p);
      } else {
        var t, c :| CoreStep(s, s', t, c);
        CoreStepKeeps(s, s', t, c);
      }
    }
  }

  /** Whoever holds a native mutex gets on: it holds the last one, or its holder does. */
  lemma SomeoneInsideMoves(s: Full, t: Id)
    requires FullInv(s) && !PhaseOf(s, t).Outside?
    ensures exists u :: u in s.core.threads && !PhaseOf(s, u).Outside? && !FullBlocked(s, u)
  {
    hide Inv, Blocked, Calls;
    if FullBlocked(s, t) {
      var u :| u in s.core.threads && u != t && Excludes(PhaseOf(s, t), PhaseOf(s, u));
      if FullBlocked(s, u) {
        var v :| v in s.core.threads && v != u && Excludes(PhaseOf(s, u), PhaseOf(s, v));
        assert !FullBlocked(s, v);
      }
    }
  }

  /** With the native mutexes included: in every reachable state with an operation in progress somebody busy is not blocked. */
  lemma FullDeadlockFree(run: seq<Full>, i: nat)
    requires IsFullRun(run) && i < |run|
    requires exists t :: t in run[i].core.threads && Busy(run[i].core.threads[t])
    ensures exists t :: t in run[i].core.threads && Busy(run[i].core.threads[t]) && !FullBlocked(run[i], t)
  {
    FullReachable(run, i);
    var s := run[i];
    if t :| t in s.core.threads && !PhaseOf(s, t).Outside? {
      SomeoneInsideMoves(s, t);
      var u :| u in s.core.threads && !PhaseOf(s, u).Outside? && !FullBlocked(s, u);
      assert Busy(s.core.threads[u]);
    } else {
      NotAllBlocked(s.core);
      var u :| u in s.core.threads && Busy(s.core.threads[u]) && !Blocked(s.core, u);
      assert !FullBlocked(s, u);
    }
  }

  /** What a goroutine is doing, native mutexes included. */
  function Standing(s: Full, t: Id): (Thread, Phase)
    requires t in s.core.threads
  {
    (s.core.threads[t], PhaseOf(s, t))
  }

  lemma CallsWaitForNothing(s: State, t: Id)
    requires t in s.threads && Calls(s.threads[t].pc)
    ensures Busy(s.threads[t]) && !Blocked(s, t)
  {
  }

  /** A busy goroutine that nobody keeps out has a step that changes where it stands. */
  lemma FullUnblockedCanStep(s: Full, t: Id)
    requires FullInv(s) && t in s.core.threads && Busy(s.core.threads[t]) && !FullBlocked(s, t)
    ensures exists s' :: FullStep(s, s') && t in s'.core.threads && Standing(s', t) != Standing(s, t)
  {
    var p := PhaseOf(s, t);
    if p.HasConn? || p.InBoth? || (p.Outside? && !Calls(s.core.threads[t].pc)) {
      if !p.Outside? { CallsWaitForNothing(s.core, t); }
      UnblockedCanStep(s.core, t);
      var c, core' :| StepBy(s.core, core', t, c) && core'.threads[t] != s.core.threads[t];
      if p.Outside? { QuietStep(s.core.memory, t, s.core.threads[t], c); }
      var s' := Full(core', s.phases[t := Outside]);
      assert CoreStep(s, s', t, c);
      assert FullStep(s, s');
    } else {
      var next := match p
                  case Outside => WaitConn
                  case WaitConn => HasConn
                  case WaitBoth(b) => InBoth(b)
                  case WaitBind(b) => HasBind(b)
                  case _ => Outside;
      var s' := s.(phases := s.phases[t := next]);
      assert PhaseStep(s, s', t, next);
      assert FullStep(s, s');
      assert PhaseOf(s', t) == next;
    }
  }
}
