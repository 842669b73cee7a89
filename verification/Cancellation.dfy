/**
 * The cancellation token: an atomic flag and a locked list of wakers. Any
 * number of threads poll and cancel, interleaved at every atomic access.
 */
module Cancellation {
  import opened Outcomes

  type Waker = nat
  type ThreadId = nat

  /** What a thread is about to do. */
  datatype Phase =
    | Idle
    | Swapped                    // won the swap, has not locked the list
    | Draining                   // holds the lock, waking one waiter at a time
    | Checked(waker: Waker)      // saw the flag clear, has not locked the list
    | Locked(waker: Waker)       // holds the lock, has not looked again
    | Pushing(waker: Waker)      // holds the lock and saw the flag clear again

  /**
   * `unserved`, which only the proof needs, holds the wakers of polls that returned `Pending` and have not
   * been woken since.
   */
  datatype Token = Token(
    cancelled: bool, waiters: seq<Waker>, lock: Option<ThreadId>, phases: map<ThreadId, Phase>, unserved: set<Waker>)

  datatype Move =
    | StartCancel
    | StartPoll(waker: Waker)
    | Continue
    | Reset

  function PhaseOf(s: Token, t: ThreadId): Phase {
    if t in s.phases then s.phases[t] else Idle
  }

  predicate InFlight(s: Token, t: ThreadId) {
    PhaseOf(s, t) != Idle
  }

  ghost predicate Quiet(s: Token) {
    forall t :: t in s.phases ==> s.phases[t] == Idle
  }

  /** Some thread has won the swap and not finished draining. */
  ghost predicate CancellerInWindow(s: Token) {
    exists t :: t in s.phases && (s.phases[t] == Swapped || s.phases[t] == Draining)
  }

  /** The move can be made now; `reset` waits until nothing is in flight. */
  ghost predicate Enabled(s: Token, t: ThreadId, move: Move) {
    match move
    case StartCancel => !InFlight(s, t)
    case StartPoll(_) => !InFlight(s, t)
    case Continue =>
      InFlight(s, t) && (PhaseOf(s, t).Swapped? || PhaseOf(s, t).Checked? ==> s.lock.None?)
    case Reset => Quiet(s)
  }

  function PushWaker(waiters: seq<Waker>, w: Waker): seq<Waker> {
    if w in waiters then waiters else waiters + [w]
  }

  /** One atomic access by one thread. */
  ghost function Next(s: Token, t: ThreadId, move: Move): Token
    requires Enabled(s, t, move)
  {
    match move
    case StartCancel =>
      if s.cancelled then s else s.(cancelled := true, phases := s.phases[t := Swapped])
    case StartPoll(w) =>
      if s.cancelled then s else s.(phases := s.phases[t := Checked(w)])
    case Reset => s.(cancelled := false, waiters := [], unserved := {})
    case Continue =>
      match PhaseOf(s, t)
      case Swapped => s.(lock := Some(t), phases := s.phases[t := Draining])
      case Draining =>
        if s.waiters == [] then s.(lock := None, phases := s.phases[t := Idle])
        else s.(waiters := s.waiters[1..], unserved := s.unserved - {s.waiters[0]})
      case Checked(w) => s.(lock := Some(t), phases := s.phases[t := Locked(w)])
      case Locked(w) =>
        if s.cancelled then s.(lock := None, phases := s.phases[t := Idle]) else s.(phases := s.phases[t := Pushing(w)])
      case Pushing(w) =>
        s.(waiters := PushWaker(s.waiters, w), unserved := s.unserved + {w}, lock := None,
          phases := s.phases[t := Idle])
      case Idle => s
  }

  // -------------------------------------------------------------- invariant

  predicate HoldsLock(p: Phase) {
    p.Draining? || p.Locked? || p.Pushing?
  }

  ghost predicate Safe(s: Token) {
    && (forall w :: w in s.unserved ==> w in s.waiters)
    && (forall i, j :: 0 <= i < j < |s.waiters| ==> s.waiters[i] != s.waiters[j])
    && (forall t :: t in s.phases ==> (HoldsLock(s.phases[t]) <==> s.lock == Some(t)))
    && (s.lock.Some? ==> s.lock.value in s.phases)
    && (!s.cancelled ==> !CancellerInWindow(s))
    && (s.cancelled && !CancellerInWindow(s) ==>
          s.waiters == [] && forall t :: t in s.phases ==> !s.phases[t].Pushing?)
  }

  const FRESH: Token := Token(false, [], None, map[], {})

  lemma FreshIsSafe()
    ensures Safe(FRESH)
  {}

  lemma WindowKept(s: Token, s': Token, t: ThreadId)
    requires forall u :: u != t ==> PhaseOf(s', u) == PhaseOf(s, u)
    ensures CancellerInWindow(s') <==>
      || PhaseOf(s', t).Swapped? || PhaseOf(s', t).Draining?
      || (exists u :: u != t && u in s.phases && (s.phases[u].Swapped? || s.phases[u].Draining?))
  {
    if CancellerInWindow(s') {
      var u :| u in s'.phases && (s'.phases[u] == Swapped || s'.phases[u] == Draining);
      if u != t {
        assert PhaseOf(s', u) == PhaseOf(s, u);
        assert u in s.phases;
      }
    }
    if u :| u != t && u in s.phases && (s.phases[u].Swapped? || s.phases[u].Draining?) {
      assert PhaseOf(s', u) == PhaseOf(s, u);
      assert u in s'.phases;
    }
    if PhaseOf(s', t).Swapped? || PhaseOf(s', t).Draining? {
      assert t in s'.phases;
    }
  }

  /** Every atomic step of every thread keeps the token safe. */
  lemma StepKeepsSafe(s: Token, t: ThreadId, move: Move)
    requires Safe(s) && Enabled(s, t, move)
    ensures Safe(Next(s, t, move))
  {
    var s' := Next(s, t, move);
    assert forall u :: u != t ==> PhaseOf(s', u) == PhaseOf(s, u);
    WindowKept(s, s', t);
    WindowKept(s, s, t);
    hide CancellerInWindow;
  }

  // ------------------------------------------------------------------ runs

  type Run = seq<(ThreadId, Move)>

  ghost predicate Possible(s: Token, run: Run)
    decreases |run|
  {
    run != [] ==> Enabled(s, run[0].0, run[0].1) && Possible(Next(s, run[0].0, run[0].1), run[1..])
  }

  ghost function After(s: Token, run: Run): Token
    requires Possible(s, run)
    decreases |run|
  {
    if run == [] then s else After(Next(s, run[0].0, run[0].1), run[1..])
  }

  lemma {:induction false} RunKeepsSafe(s: Token, run: Run)
    requires Safe(s) && Possible(s, run)
    ensures Safe(After(s, run))
    decreases |run|
  {
    if run != [] {
      StepKeepsSafe(s, run[0].0, run[0].1);
      RunKeepsSafe(Next(s, run[0].0, run[0].1), run[1..]);
    }
  }

  /**
   * No lost wake-up: in every interleaving from a fresh token, once the flag
   * is set and no canceller is between its swap and the end of its drain, the
   * list is empty and every poll that returned `Pending` has been woken.
   */
  lemma NoLostWakeUp(run: Run)
    requires Possible(FRESH, run)
    ensures var s := After(FRESH, run);
      s.cancelled && !CancellerInWindow(s) ==> s.waiters == [] && s.unserved == {}
  {
    FreshIsSafe();
    RunKeepsSafe(FRESH, run);
    assert After(FRESH, run).unserved == {} <==> forall w :: w !in After(FRESH, run).unserved;
  }

  /**
   * A poll that returns `Pending` leaves its waker registered and unserved; one that sees the flag
   * registers nothing.
   */
  lemma PollEnds(s: Token, t: ThreadId, w: Waker)
    requires Enabled(s, t, Continue) && (PhaseOf(s, t) == Pushing(w) || PhaseOf(s, t) == Locked(w))
    ensures var s' := Next(s, t, Continue);
      && (PhaseOf(s, t) == Pushing(w) ==> PhaseOf(s', t) == Idle && w in s'.waiters && w in s'.unserved)
      && (PhaseOf(s, t) == Locked(w) && s.cancelled ==>
            PhaseOf(s', t) == Idle && s'.waiters == s.waiters && s'.unserved == s.unserved)
      && (PhaseOf(s, t) == Locked(w) && !s.cancelled ==> PhaseOf(s', t) == Pushing(w))
  {}

  /** Once a cancel has started the flag stays set until a reset, in every interleaving. */
  lemma {:induction false} FlagStays(s: Token, t: ThreadId, run: Run)
    requires Enabled(s, t, StartCancel) && Possible(Next(s, t, StartCancel), run)
    requires forall i :: 0 <= i < |run| ==> run[i].1 != Move.Reset
    ensures After(Next(s, t, StartCancel), run).cancelled
  {
    SetStays(Next(s, t, StartCancel), run);
  }

  lemma {:induction false} SetStays(s: Token, run: Run)
    requires s.cancelled && Possible(s, run) && forall i :: 0 <= i < |run| ==> run[i].1 != Move.Reset
    ensures After(s, run).cancelled
    decreases |run|
  {
    if run != [] {
      assert run[0].1 != Move.Reset;
      SetStays(Next(s, run[0].0, run[0].1), run[1..]);
    }
  }

  // -------------------------------------------------------------- progress

  function Weight(p: Phase): nat {
    match p
    case Idle => 0
    case Draining => 1
    case Swapped => 2
    case Pushing(_) => 2
    case Locked(_) => 3
    case Checked(_) => 4
  }

  ghost function Total(phases: map<ThreadId, Phase>, ids: set<ThreadId>): nat
    requires ids <= phases.Keys
  {
    if ids == {} then 0
    else
      var t :| t in ids;
      Weight(phases[t]) + Total(phases, ids - {t})
  }

  /** The steps left to the threads in flight, if no new poll or cancel starts. */
  ghost function WorkLeft(s: Token): nat {
    |s.waiters| + Total(s.phases, s.phases.Keys)
  }

  lemma {:induction false} TotalAround(phases: map<ThreadId, Phase>, ids: set<ThreadId>, t: ThreadId)
    requires ids <= phases.Keys && t in ids
    ensures Total(phases, ids) == Weight(phases[t]) + Total(phases, ids - {t})
  {
    var u :| u in ids && Total(phases, ids) == Weight(phases[u]) + Total(phases, ids - {u});
    if u != t {
      TotalAround(phases, ids - {u}, t);
      TotalAround(phases, ids - {t}, u);
      assert ids - {u} - {t} == ids - {t} - {u};
    }
  }

  lemma {:induction false} TotalAgrees(a: map<ThreadId, Phase>, b: map<ThreadId, Phase>, ids: set<ThreadId>)
    requires ids <= a.Keys && ids <= b.Keys && forall t :: t in ids ==> a[t] == b[t]
    ensures Total(a, ids) == Total(b, ids)
  {
    if ids != {} {
      var t :| t in ids;
      TotalAround(a, ids, t);
      TotalAround(b, ids, t);
      TotalAgrees(a, b, ids - {t});
    }
  }

  /** Continuing a thread in flight uses up work. */
  lemma ContinueUsesWork(s: Token, t: ThreadId)
    requires Enabled(s, t, Continue)
    ensures WorkLeft(Next(s, t, Continue)) < WorkLeft(s)
  {
    var s' := Next(s, t, Continue);
    var ids := s.phases.Keys;
    assert s'.phases.Keys == ids;
    TotalAround(s.phases, ids, t);
    TotalAround(s'.phases, ids, t);
    TotalAgrees(s.phases, s'.phases, ids - {t});
  }

  /** Whenever something is in flight, some thread in flight can continue. */
  lemma SomethingContinues(s: Token) returns (t: ThreadId)
    requires Safe(s) && !Quiet(s)
    ensures Enabled(s, t, Continue)
  {
    if s.lock.Some? {
      t := s.lock.value;
    } else {
      t :| t in s.phases && s.phases[t] != Idle;
    }
  }

  ghost predicate OnlyContinues(run: Run) {
    forall i :: 0 <= i < |run| ==> run[i].1 == Continue
  }

  ghost predicate SomeoneCanContinue(s: Token) {
    exists t :: Enabled(s, t, Continue)
  }

  /** Each step of a thread in flight uses up work and leaves the flag alone. */
  lemma {:induction false} ContinuingUsesWork(s: Token, run: Run)
    requires Safe(s) && Possible(s, run) && OnlyContinues(run)
    ensures |run| + WorkLeft(After(s, run)) <= WorkLeft(s)
    ensures After(s, run).cancelled == s.cancelled && Safe(After(s, run))
    decreases |run|
  {
    if run != [] {
      var t := run[0].0;
      ContinueUsesWork(s, t);
      StepKeepsSafe(s, t, Continue);
      ContinuingUsesWork(Next(s, t, Continue), run[1..]);
    }
  }

  /**
   * If no new poll or cancel starts, then in every order of their steps the
   * threads in flight finish within the work left, and are never stuck before;
   * if the flag was set, nobody is left waiting.
   */
  lemma EveryoneIsServed(s: Token, run: Run)
    requires Safe(s) && Possible(s, run) && OnlyContinues(run)
    ensures |run| <= WorkLeft(s)
    ensures SomeoneCanContinue(After(s, run)) <==> !Quiet(After(s, run))
    ensures Quiet(After(s, run)) && s.cancelled ==> After(s, run).waiters == [] && After(s, run).unserved == {}
  {
    var end := After(s, run);
    ContinuingUsesWork(s, run);
    if !Quiet(end) {
      var t := SomethingContinues(end);
      assert SomeoneCanContinue(end);
    } else {
      assert s.cancelled ==> forall w :: w !in end.unserved;
    }
  }

  // ------------------------------------------------- uninterrupted methods

  datatype PollResult = Ready | Pending

  /** The shared state, as its methods change it when nothing interleaves. */
  class CancellationToken {
    var cancelled: bool
    var waiters: seq<Waker>
    ghost var unserved: set<Waker>

    constructor ()
      ensures !cancelled && waiters == [] && unserved == {}
    {
      cancelled, waiters, unserved := false, [], {};
    }

    /** The token with no thread in flight. */
    ghost function Still(phases: map<ThreadId, Phase>): Token
      reads this
    {
      Token(cancelled, waiters, None, phases, unserved)
    }

    /** `cancel`: the swap, then the drain under the lock. */
    method Cancel(ghost t: ThreadId, ghost phases: map<ThreadId, Phase>) returns (ghost run: Run)
      requires t in phases && phases[t] == Idle
      modifies this
      ensures Possible(old(Still(phases)), run) && After(old(Still(phases)), run) == Still(phases)
      ensures cancelled && (!old(cancelled) ==> waiters == [])
      ensures old(cancelled) ==> waiters == old(waiters)
      // Whoever was registered has been woken.
      ensures !old(cancelled) ==> unserved == old(unserved) - set w | w in old(waiters)
    {
      ghost var start := Still(phases);
      run := [(t, StartCancel)];
      if !cancelled {
        cancelled := true;
        StartWith(start, t, StartCancel);
        ThenContinue(start, run, t);
        run := run + [(t, Continue)];
        assert phases[t := Swapped][t := Draining] == phases[t := Draining];
        ghost var draining := phases[t := Draining];
        ghost var woken: seq<Waker> := [];
        while waiters != []
          invariant old(waiters) == woken + waiters && unserved == old(unserved) - set w | w in woken
          invariant cancelled && Possible(start, run)
          invariant After(start, run) == Token(true, waiters, Some(t), draining, unserved)
          decreases |waiters|
        {
          ThenContinue(start, run, t);
          run := run + [(t, Continue)];
          unserved := unserved - {waiters[0]};
          woken := woken + [waiters[0]];
          waiters := waiters[1..];
        }
        assert woken == old(waiters);
        ThenContinue(start, run, t);
        run := run + [(t, Continue)];
        assert draining[t := Idle] == phases;
      }
    }

    /** `poll`: check, lock, check again, register the waker once. */
    method Poll(
      w: Waker, ghost t: ThreadId, ghost phases: map<ThreadId, Phase>) returns (result: PollResult, ghost run: Run)
      requires t in phases && phases[t] == Idle
      modifies this`waiters, this`unserved
      ensures Possible(old(Still(phases)), run) && After(old(Still(phases)), run) == Still(phases)
      ensures result.Ready? <==> cancelled
      ensures cancelled ==> waiters == old(waiters) && unserved == old(unserved)
      // A pending poll's waker is registered, once, behind those that were.
      ensures !cancelled ==>
        && w in waiters && w in unserved && old(waiters) <= waiters
        && (w in old(waiters) ==> waiters == old(waiters))
        && (w !in old(waiters) ==> |waiters| == |old(waiters)| + 1 && waiters[|old(waiters)|] == w)
    {
      run := [(t, StartPoll(w))];
      if cancelled {
        return Ready, run;
      }
      ghost var start := Still(phases);
      StartWith(start, t, StartPoll(w));
      ThenContinue(start, run, t);
      run := run + [(t, Continue)];
      ThenContinue(start, run, t);
      run := run + [(t, Continue)];
      ThenContinue(start, run, t);
      run := run + [(t, Continue)];
      assert phases[t := Checked(w)][t := Locked(w)][t := Pushing(w)][t := Idle] == phases;
      waiters := PushWaker(waiters, w);
      unserved := unserved + {w};
      return Pending, run;
    }

    /** `reset`, after the previous turn has fully stopped. */
    method Reset(ghost t: ThreadId, ghost phases: map<ThreadId, Phase>) returns (ghost run: Run)
      requires Quiet(Still(phases))
      modifies this
      ensures Possible(old(Still(phases)), run) && After(old(Still(phases)), run) == Still(phases)
      ensures !cancelled && waiters == []
    {
      run := [(t, Move.Reset)];
      StartWith(Still(phases), t, Move.Reset);
      cancelled, waiters, unserved := false, [], {};
    }
  }

  lemma StartWith(s: Token, t: ThreadId, move: Move)
    requires Enabled(s, t, move)
    ensures Possible(s, [(t, move)]) && After(s, [(t, move)]) == Next(s, t, move)
  {
    assert [(t, move)][1..] == [];
  }

  lemma {:induction false} ThenContinue(s: Token, run: Run, t: ThreadId)
    requires Possible(s, run) && Enabled(After(s, run), t, Continue)
    ensures Possible(s, run + [(t, Continue)])
    ensures After(s, run + [(t, Continue)]) == Next(After(s, run), t, Continue)
    decreases |run|
  {
    var longer := run + [(t, Continue)];
    if run != [] {
      assert longer[1..] == run[1..] + [(t, Continue)];
      ThenContinue(Next(s, run[0].0, run[0].1), run[1..], t);
    }
  }
}
