/**
 * The "getting ready" debouncer of the new-printer notification service
 * (applet.py:52-85), as a value: the counter `getting_ready`, whether the
 * searching status icon is shown, how many single-shot readiness timeouts
 * are still armed in the event loop, and the log of calls made to the
 * viewer's special status icon.
 *
 * The service class in service.dfy keeps the same fields and proves each of
 * its methods against the step functions here; the lemmas in this module
 * are the properties those steps have over whole runs of events.
 */
module Readiness {
  import opened Wrappers

  /** A call to the job viewer's special status icon. */
  datatype IconCall = ShowSearching | HideSearching

  datatype State = State(
    gettingReady: nat,       // `getting_ready`
    iconShown: bool,         // the searching icon is currently set
    pendingTimeouts: nat,    // armed `timeout_ready` callbacks not yet fired
    iconCalls: seq<IconCall> // every set/unset call made so far, in order
  )

  /** Delay of the readiness timeout armed by each GetReady, in milliseconds. */
  const ReadyTimeoutMs: nat := 60 * 1000

  /** The state right after the service is constructed (applet.py:54). */
  const Initial: State := State(0, false, 0, [])

  /**
   * The debouncer invariant: the icon is shown exactly while the counter is
   * positive, and every unit of the counter is backed by an armed timeout,
   * so the icon can never stay on once all armed timeouts have fired.
   */
  predicate Inv(s: State) {
    && (s.iconShown <==> s.gettingReady > 0)
    && s.gettingReady <= s.pendingTimeouts
  }

  /**
   * GetReady (applet.py:70-76): show the searching icon on the 0 -> 1 edge
   * only, count one more outstanding search and arm one more timeout.
   */
  function GetReady(s: State): (r: State)
    ensures r.gettingReady == s.gettingReady + 1
    ensures r.pendingTimeouts == s.pendingTimeouts + 1
    ensures r.iconCalls == if s.gettingReady == 0 then s.iconCalls + [ShowSearching] else s.iconCalls
    ensures Inv(s) ==> Inv(r) && r.iconShown
  {
    if s.gettingReady == 0 then
      State(1, true, s.pendingTimeouts + 1, s.iconCalls + [ShowSearching])
    else
      s.(gettingReady := s.gettingReady + 1, pendingTimeouts := s.pendingTimeouts + 1)
  }

  /**
   * The body of `timeout_ready` (applet.py:78-85): decrement the counter if it
   * is positive, then hide the icon whenever the counter is zero. It does not
   * touch the armed timeouts: NewPrinter calls it directly.
   */
  function TimeoutReady(s: State): (r: State)
    ensures s.gettingReady > 0 ==> r.gettingReady == s.gettingReady - 1
    ensures s.gettingReady == 0 ==> r.gettingReady == 0
    ensures r.pendingTimeouts == s.pendingTimeouts
    ensures r.gettingReady == 0 ==> !r.iconShown && r.iconCalls == s.iconCalls + [HideSearching]
    ensures r.gettingReady > 0 ==> r.iconShown == s.iconShown && r.iconCalls == s.iconCalls
    ensures Inv(s) ==> Inv(r)
  {
    var n := if s.gettingReady > 0 then s.gettingReady - 1 else s.gettingReady;
    if n == 0 then
      s.(gettingReady := 0, iconShown := false, iconCalls := s.iconCalls + [HideSearching])
    else
      s.(gettingReady := n)
  }

  /**
   * The event loop fires one armed readiness timeout: it is consumed, runs
   * `timeout_ready`, and since that returns False it is not re-armed.
   */
  function FireTimeout(s: State): (r: State)
    requires s.pendingTimeouts > 0
    ensures r.pendingTimeouts == s.pendingTimeouts - 1
    ensures Inv(s) ==> Inv(r)
  {
    TimeoutReady(s.(pendingTimeouts := s.pendingTimeouts - 1))
  }

  /** What can happen to the debouncer, one event at a time. */
  datatype Event =
    | GetReadyCall       // the spooler calls GetReady
    | TimeoutFired       // an armed readiness timeout fires
    | PrinterNotified    // NewPrinter reached its notification and resets the icon

  /** One event; a timeout cannot fire when none is armed. */
  function Step(s: State, e: Event): (r: Option<State>)
    ensures r.None? <==> e.TimeoutFired? && s.pendingTimeouts == 0
    ensures r.Some? && Inv(s) ==> Inv(r.value)
  {
    match e
    case GetReadyCall => Some(GetReady(s))
    case TimeoutFired => if s.pendingTimeouts == 0 then None else Some(FireTimeout(s))
    case PrinterNotified => Some(TimeoutReady(s))
  }

  /** A run of events, in arrival order; None if some event was not enabled. */
  function Run(s: State, events: seq<Event>): Option<State>
    decreases |events|
  {
    if events == [] then Some(s)
    else
      match Step(s, events[0])
      case None => None
      case Some(t) => Run(t, events[1..])
  }

  /** The debouncer invariant holds after every run of events, however interleaved. */
  lemma {:induction false} RunPreservesInv(s: State, events: seq<Event>)
    requires Inv(s)
    ensures Run(s, events).Some? ==> Inv(Run(s, events).value)
    decreases |events|
  {
    if events != [] {
      match Step(s, events[0])
      case None =>
      case Some(t) => RunPreservesInv(t, events[1..]);
    }
  }

  /** n GetReady calls in a row. */
  function GetReadyN(s: State, n: nat): State
    decreases n
  {
    if n == 0 then s else GetReadyN(GetReady(s), n - 1)
  }

  /** n armed timeouts fire in a row. */
  function FireN(s: State, n: nat): State
    requires n <= s.pendingTimeouts
    decreases n
  {
    if n == 0 then s else FireN(FireTimeout(s), n - 1)
  }

  /**
   * A burst of n GetReady calls raises the counter and the armed timeouts by
   * n, and shows the searching icon at most once: once if the counter was
   * zero, never if a search was already outstanding.
   */
  lemma {:induction false} GetReadyBurst(s: State, n: nat)
    ensures GetReadyN(s, n).gettingReady == s.gettingReady + n
    ensures GetReadyN(s, n).pendingTimeouts == s.pendingTimeouts + n
    ensures GetReadyN(s, n).iconCalls
         == s.iconCalls + (if s.gettingReady == 0 && n > 0 then [ShowSearching] else [])
    ensures Inv(s) ==> Inv(GetReadyN(s, n)) && GetReadyN(s, n).iconShown == (s.gettingReady + n > 0)
    decreases n
  {
    if n > 0 {
      var t := GetReady(s);
      GetReadyBurst(t, n - 1);
    }
  }

  /**
   * Self-healing: from any state satisfying the invariant, once every armed
   * timeout has fired the counter is zero, the icon is hidden, and the last
   * icon call (if there were timeouts) is a hide.
   */
  lemma {:induction false} DrainClears(s: State)
    requires Inv(s)
    ensures var t := FireN(s, s.pendingTimeouts);
      t.gettingReady == 0 && !t.iconShown && t.pendingTimeouts == 0
      && (s.pendingTimeouts > 0 ==> |t.iconCalls| > 0 && t.iconCalls[|t.iconCalls| - 1] == HideSearching)
    decreases s.pendingTimeouts
  {
    if s.pendingTimeouts > 0 {
      var t := FireTimeout(s);
      DrainClears(t);
      if t.pendingTimeouts == 0 {
        assert t.gettingReady == 0;
        assert t.iconCalls == s.iconCalls + [HideSearching];
      }
    }
  }

  /** Firing k timeouts from a balanced searching state makes exactly one hide call. */
  lemma {:induction false} FireBalanced(k: nat, calls: seq<IconCall>)
    requires k > 0
    ensures FireN(State(k, true, k, calls), k) == State(0, false, 0, calls + [HideSearching])
    decreases k
  {
    if k > 1 {
      assert FireTimeout(State(k, true, k, calls)) == State(k - 1, true, k - 1, calls);
      FireBalanced(k - 1, calls);
    }
  }

  /**
   * Starting from a freshly constructed service, n GetReady calls followed
   * by their n timeouts leave the counter at zero and the icon hidden, after
   * exactly one show and one hide.
   */
  lemma {:induction false} BurstThenDrain(n: nat)
    ensures GetReadyN(Initial, n).pendingTimeouts == n
    ensures FireN(GetReadyN(Initial, n), n)
         == if n == 0 then Initial else State(0, false, 0, [ShowSearching, HideSearching])
  {
    GetReadyBurst(Initial, n);
    var s := GetReadyN(Initial, n);
    if n == 0 {
      assert s == Initial;
      assert FireN(s, 0) == s;
    } else {
      assert s == State(n, true, n, [ShowSearching]);
      FireBalanced(n, [ShowSearching]);
      calc {
        FireN(s, n);
        FireN(State(n, true, n, [ShowSearching]), n);
        State(0, false, 0, [ShowSearching] + [HideSearching]);
        State(0, false, 0, [ShowSearching, HideSearching]);
      }
    }
  }

  /**
   * Every state reachable from construction by any run of events returns to
   * an idle debouncer (counter zero, icon hidden) once its armed timeouts fire.
   */
  lemma ReachableDrains(events: seq<Event>)
    requires Run(Initial, events).Some?
    ensures var s := Run(Initial, events).value;
      var t := FireN(s, s.pendingTimeouts);
      t.gettingReady == 0 && !t.iconShown
  {
    RunPreservesInv(Initial, events);
    DrainClears(Run(Initial, events).value);
  }

  /**
   * A successful NewPrinter and the timeout armed by the same GetReady both
   * count down. With two searches outstanding, one NewPrinter and one fired
   * timeout hide the icon while the second search's timeout is still armed.
   */
  lemma NotifyAndTimeoutBothCount()
    ensures Run(Initial, [GetReadyCall, GetReadyCall, PrinterNotified, TimeoutFired])
         == Some(State(0, false, 1, [ShowSearching, HideSearching]))
  {
    var events := [GetReadyCall, GetReadyCall, PrinterNotified, TimeoutFired];
    var s1 := State(1, true, 1, [ShowSearching]);
    var s2 := State(2, true, 2, [ShowSearching]);
    var s3 := State(1, true, 2, [ShowSearching]);
    var s4 := State(0, false, 1, [ShowSearching, HideSearching]);
    assert GetReady(Initial) == s1;
    assert FireTimeout(s3) == s4;
    assert events[1..] == [GetReadyCall, PrinterNotified, TimeoutFired];
    assert events[2..] == [PrinterNotified, TimeoutFired];
    assert events[3..] == [TimeoutFired];
    calc {
      Run(Initial, events);
      Run(s1, events[1..]);
      Run(s2, events[2..]);
      Run(s3, events[3..]);
      Run(s4, []);
    }
  }
}
