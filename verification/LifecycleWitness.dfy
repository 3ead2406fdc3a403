/** Runs that reach the corners the theorems speak of: a registration that lands inside
    doCleanup, and a process that outlives the wait for its socket or a failed Start. */
module LifecycleWitness {
  import opened CleanupStack
  import opened Lifecycle
  import opened LifecycleInvariant

  /** Start is past startVMM with only the socket's cleanup registered. */
  function Booted(c: Config): State {
    State(LateHandlers, WaitProcess, Receive, SelectDone, if c.forwards then Forwarding else ForwarderUnborn,
          [], [], Running, false, false, false, false, Nil,
          Stack(1, Unfired, [], [], [], false), false, 0, Succeeded, false, [])
  }

  /** Start is inside waitForSocket. */
  function Waiting(c: Config): State {
    State(AwaitSocket, WaitProcess, PublisherUnborn, WatcherUnborn, if c.forwards then Forwarding else ForwarderUnborn,
          [], [], Running, false, false, false, false, Nil,
          Stack(1, Unfired, [], [], [], false), false, 0, Unfinished, false, [])
  }

  /** Reachable without a handler after StartVMM registering a cleanup. */
  ghost predicate QuietlyReachable(c: Config, s: State) {
    exists labels :: Exec(c, INIT, labels) == At(s) && NoneRegistersLate(c, labels)
  }

  lemma {:induction false} QuietStep(c: Config, s: State, l: Label)
    requires QuietlyReachable(c, s) && Enabled(s, l) && !RegistersLate(s, l)
    ensures QuietlyReachable(c, Do(c, s, l))
  {
    var labels :| Exec(c, INIT, labels) == At(s) && NoneRegistersLate(c, labels);
    var more := labels + [l];
    assert more[..|more| - 1] == labels;
    assert Exec(c, INIT, more) == At(Do(c, s, l));
  }

  lemma {:induction false} QuietReachable(c: Config, s: State)
    requires QuietlyReachable(c, s)
    ensures Reachable(c, s)
  {
    var labels :| Exec(c, INIT, labels) == At(s) && NoneRegistersLate(c, labels);
  }

  lemma {:induction false} WaitingReachable(c: Config)
    ensures QuietlyReachable(c, Waiting(c))
  {
    assert Exec(c, INIT, []) == At(INIT) && NoneRegistersLate(c, []);
    QuietStep(c, INIT, Start(CallStart));
    var s1 := INIT.(starter := EarlyHandlers);
    QuietStep(c, s1, Start(ReachStartVMM));
    var s2 := INIT.(starter := Launching);
    QuietStep(c, s2, Start(LaunchOk));
    var s3 := INIT.(starter := RegisterSocket, process := Running);
    QuietStep(c, s3, Start(Proceed));
    var s4 := s3.(starter := SpawnWaiter, stack := Register(EMPTY, 1));
    QuietStep(c, s4, Start(Proceed));
    var s5 := s4.(starter := SetupSignals, waiter := WaitProcess);
    QuietStep(c, s5, Start(Proceed));
    assert Do(c, s5, Start(Proceed)) == Waiting(c);
  }

  lemma {:induction false} BootedReachable(c: Config)
    ensures QuietlyReachable(c, Booted(c))
  {
    WaitingReachable(c);
    QuietStep(c, Waiting(c), Start(SocketReady));
    var s1 := Waiting(c).(starter := SpawnWatcher);
    QuietStep(c, s1, Start(Proceed));
    var s2 := s1.(starter := SpawnPublisher, watcher := SelectDone);
    QuietStep(c, s2, Start(Proceed));
    assert Do(c, s2, Start(Proceed)) == Booted(c);
  }

  /** The process has died just after its socket came up, and the waiter is inside doCleanup. */
  function Cleaning(c: Config, stack: Stack): State {
    Booted(c).(process := Reaped([BadExit(1)]), waiter := InCleanup([BadExit(1)]), stack := stack)
  }

  lemma {:induction false} CleaningReachable(c: Config)
    ensures QuietlyReachable(c, Cleaning(c, Stack(1, Firing(ByWaiter, 1, 0), [], [], [], false)))
  {
    BootedReachable(c);
    var s0 := Booted(c);
    QuietStep(c, s0, Side(ProcessExits(false, 1)));
    var s1 := s0.(process := Exited([BadExit(1)]));
    QuietStep(c, s1, Wait(Reap));
    var s2 := s0.(process := Reaped([BadExit(1)]), waiter := CheckDaemonize([BadExit(1)]));
    QuietStep(c, s2, Wait(CheckIt));
    var s3 := s2.(waiter := EnterCleanup([BadExit(1)]));
    QuietStep(c, s3, Clean(ByWaiter, EnterOnce));
  }

  /** The process dies just after its socket came up; the waiter starts doCleanup with
      one cleanup registered; Start's next handler registers a second one; the loop
      then calls the second instead of the first, which is never called. */
  lemma {:induction false} LateRegistrationLosesCleanup(c: Config)
    ensures exists s :: Reachable(c, s) && s.stack.once == Fired(ByWaiter, 1) && s.stack.shifted && s.stack.ran == [1]
  {
    CleaningReachable(c);
    QuietReachable(c, Cleaning(c, Stack(1, Firing(ByWaiter, 1, 0), [], [], [], false)));
    LeadsStep(c, INIT, Cleaning(c, Stack(1, Firing(ByWaiter, 1, 0), [], [], [], false)), Start(Handler(1)));
    LeadsStep(c, INIT, Cleaning(c, Stack(2, Firing(ByWaiter, 1, 0), [], [], [], true)), Clean(ByWaiter, CallOne(Fine)));
    var s6 := Cleaning(c, Stack(2, Firing(ByWaiter, 1, 1), [1], [], [Fine], true));
    LeadsStep(c, INIT, s6, Clean(ByWaiter, LeaveOnce));
    var s7 := Do(c, s6, Clean(ByWaiter, LeaveOnce));
    assert Reachable(c, s7) && s7.stack == Stack(2, Fired(ByWaiter, 1), [1], [], [Fine], true);
  }

  lemma {:induction false} WithinStep(c: Config, labels: seq<Label>, s: State, l: Label, allowed: iset<nat>)
    requires Exec(c, INIT, labels) == At(s) && LateWithin(c, labels, allowed) && Enabled(s, l)
    requires RegistersLate(s, l) ==> l.start.adds in allowed
    ensures Exec(c, INIT, labels + [l]) == At(Do(c, s, l)) && LateWithin(c, labels + [l], allowed)
  {
    assert (labels + [l])[..|labels|] == labels;
  }

  /** A run in which a handler after StartVMM registers n cleanups, and the one the pass calls is the last of them. */
  lemma {:induction false} LateRun(c: Config, allowed: iset<nat>, n: nat) returns (labels: seq<Label>, s: State)
    requires n in allowed && n > 0
    ensures Exec(c, INIT, labels) == At(s) && LateWithin(c, labels, allowed)
    ensures s.stack.once == Fired(ByWaiter, 1) && s.stack.ran == [n]
  {
    CleaningReachable(c);
    var s0 := Cleaning(c, Stack(1, Firing(ByWaiter, 1, 0), [], [], [], false));
    labels :| Exec(c, INIT, labels) == At(s0) && NoneRegistersLate(c, labels);
    NoneIsWithin(c, labels, allowed);
    WithinStep(c, labels, s0, Start(Handler(n)), allowed);
    var s1 := Cleaning(c, Stack(1 + n, Firing(ByWaiter, 1, 0), [], [], [], true));
    labels := labels + [Start(Handler(n))];
    WithinStep(c, labels, s1, Clean(ByWaiter, CallOne(Fine)), allowed);
    var s2 := Cleaning(c, Stack(1 + n, Firing(ByWaiter, 1, 1), [n], [], [Fine], true));
    labels := labels + [Clean(ByWaiter, CallOne(Fine))];
    WithinStep(c, labels, s2, Clean(ByWaiter, LeaveOnce), allowed);
    labels := labels + [Clean(ByWaiter, LeaveOnce)];
    s := Do(c, s2, Clean(ByWaiter, LeaveOnce));
  }

  /** If the run's pass over the cleanups is finished, it was the exact reverse of the registrations. */
  predicate Reverses(c: Config, labels: seq<Label>) {
    match Exec(c, INIT, labels)
    case Broken => true
    case At(s) => s.stack.once.Fired? ==> s.stack.ran == Countdown(s.stack.once.total)
  }

  lemma {:induction false} LateRunFails(c: Config, allowed: iset<nat>, n: nat) returns (labels: seq<Label>)
    requires n in allowed && n > 0
    ensures LateWithin(c, labels, allowed) && !Reverses(c, labels)
  {
    var s;
    labels, s := LateRun(c, allowed, n);
    assert s.stack.ran[0] == n && Countdown(1)[0] == 0;
  }

  lemma {:induction false} WithoutLateReverses(c: Config, labels: seq<Label>, allowed: iset<nat>)
    requires LateWithin(c, labels, allowed) && forall n :: n in allowed ==> n == 0
    ensures Reverses(c, labels)
  {
    WithinNothing(c, labels, allowed);
    if Exec(c, INIT, labels).At? {
      CleanupReversedUnlessLate(c, labels, Exec(c, INIT, labels).state);
    }
  }

  /** If the handlers after StartVMM may register these numbers of cleanups and no others,
      then every run's finished pass is the exact reverse of the registrations if and only
      if none of the numbers is positive. */
  lemma {:induction false} AlwaysReversedIff(c: Config, allowed: iset<nat>)
    ensures (forall labels :: LateWithin(c, labels, allowed) ==> Reverses(c, labels)) <==> forall n :: n in allowed ==> n == 0
  {
    if n :| n in allowed && n > 0 {
      var labels := LateRunFails(c, allowed, n);
    } else {
      forall labels | LateWithin(c, labels, allowed)
        ensures Reverses(c, labels)
      {
        WithoutLateReverses(c, labels, allowed);
      }
    }
  }

  /** A reachable state with a live process in which waitForSocket has timed out. */
  lemma {:induction false} TimeoutReachable(c: Config)
    ensures exists s :: Reachable(c, s) && s.timedOut && s.process.Running?
  {
    WaitingReachable(c);
    QuietReachable(c, Waiting(c));
    LeadsStep(c, INIT, Waiting(c), Start(SocketTimeout));
    assert Reachable(c, Do(c, Waiting(c), Start(SocketTimeout)));
  }

  /** Start is about to unwind, with only the socket's cleanup registered and the process alive. */
  predicate Unwindable(s: State) {
    && s.starter.Unwind? && s.process.Running? && !s.panicked
    && s.stack == Stack(1, Unfired, [], [], [], false)
  }

  lemma {:induction false} UnwindReturns(c: Config, s: State)
    requires Reachable(c, s) && Unwindable(s)
    ensures exists t :: Reachable(c, t) && Left(t) && t.vmm == s.vmm
  {
    LeadsStep(c, INIT, s, Clean(ByStarter, EnterOnce));
    var s1 := s.(starter := Unwinding, stack := Stack(1, Firing(ByStarter, 1, 0), [], [], [], false));
    LeadsStep(c, INIT, s1, Clean(ByStarter, CallOne(Fine)));
    var s2 := s1.(stack := Stack(1, Firing(ByStarter, 1, 1), [0], [], [Fine], false));
    LeadsStep(c, INIT, s2, Clean(ByStarter, LeaveOnce));
    assert Left(Do(c, s2, Clean(ByStarter, LeaveOnce)));
  }

  /** Start has failed and returned, every cleanup has run, and the process is alive. */
  predicate Left(s: State) {
    s.starter == Returned(true) && s.process.Running? && s.stack.once.Fired?
  }

  /** A failed Start can leave the VMM running behind its cleanups exactly when it fails in
      the wait for the socket or after startVMM returned. */
  lemma {:induction false} FailedStartLeavesVMM(c: Config, o: Outcome)
    ensures (exists s :: Reachable(c, s) && Left(s) && s.vmm == o) <==> o.SocketError? || o.Succeeded?
  {
    if o.Succeeded? {
      BootedReachable(c);
      QuietReachable(c, Booted(c));
      LeadsStep(c, INIT, Booted(c), Start(HandlerFails));
      UnwindReturns(c, Booted(c).(starter := Unwind));
    } else if o.SocketError? {
      WaitingReachable(c);
      QuietReachable(c, Waiting(c));
      LeadsStep(c, INIT, Waiting(c), Start(SocketTimeout));
      var s1 := Waiting(c).(starter := StoreSocketError(Single(InitTimeout)), timedOut := true);
      LeadsStep(c, INIT, s1, Start(Proceed));
      var s2 := s1.(starter := CloseAfterSocketError, fatalErr := Wrapped(Single(InitTimeout)));
      LeadsStep(c, INIT, s2, Start(Proceed));
      UnwindReturns(c, Do(c, s2, Start(Proceed)));
    }
    if s :| Reachable(c, s) && Left(s) && s.vmm == o {
      FailedStartProcess(c, s);
    }
  }
}
