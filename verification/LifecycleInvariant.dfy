/** What every interleaving of the lifecycle keeps: no channel is closed twice and
    nothing is sent on a closed one, fatalErr is settled before exitCh closes, and
    the cleanups run once, in reverse. */
module LifecycleInvariant {
  import opened CleanupStack
  import opened Lifecycle

  // ---------- the invariant, goroutine by goroutine ----------

  /** startVMM is between spawning the waiter and returning. */
  predicate InStartVMM(s: State) {
    || s.starter.SetupSignals?
    || s.starter.AwaitSocket?
    || s.starter.StoreSocketError?
    || s.starter.CloseAfterSocketError?
    || s.starter.SpawnWatcher?
    || s.starter.SpawnPublisher?
  }

  predicate AfterFailure(s: State) { s.starter.Unwind? || s.starter.Unwinding? || s.starter.Returned? }

  predicate Delivered(s: State) { s.sent != [] }

  /** Where Start is fixes how startVMM ended and which goroutines exist. */
  ghost predicate StarterInv(s: State) {
    && (s.starter.NotCalled? || s.starter.EarlyHandlers? || s.starter.Launching? ==>
          s.process.NotStarted? && s.vmm.Unfinished?)
    && (s.starter.StoreLaunchError? ==> s.process == Refused(s.starter.launch) && s.vmm.Unfinished?)
    && (s.starter.CloseAfterLaunchError? ==>
          s.process.Refused? && s.vmm.Unfinished? && s.fatalErr == Single(s.process.failure))
    && (s.starter.RegisterSocket? || s.starter.SpawnWaiter? ==> ProcessSet(s) && s.vmm.Unfinished? && s.waiter.WaiterUnborn?)
    && (InStartVMM(s) ==> ProcessSet(s) && s.vmm.Unfinished? && !s.waiter.WaiterUnborn?)
    && (s.starter.LateHandlers? ==> s.vmm.Succeeded?)
    && (AfterFailure(s) ==> s.vmm.Unfinished? ==> s.process.NotStarted?)
    && (s.starter == Returned(false) ==> s.vmm.Succeeded?)
    && (s.vmm.LaunchError? ==> s.process.Refused? && s.fatalErr == Single(s.process.failure))
    && (s.vmm.SocketError? || s.vmm.Succeeded? ==> ProcessSet(s) && !s.waiter.WaiterUnborn?)
    && (!s.vmm.Unfinished? ==> AfterFailure(s) || s.starter.LateHandlers?)
    && (s.publisher.PublisherUnborn? <==> !s.vmm.Succeeded?)
    && (!ProcessSet(s) ==> s.waiter.WaiterUnborn?)
  }

  /** What the waiter has done so far. */
  ghost predicate WaiterInv(s: State) {
    && (s.waiter.WaitProcess? ==> s.process.Running? || s.process.Exited?)
    && (s.waiter.CheckDaemonize? || s.waiter.AwaitShutdown? || s.waiter.EnterCleanup? || s.waiter.InCleanup? ==>
          s.process == Reaped(s.waiter.exit))
    && (s.waiter.SendResult? || s.waiter.CloseErrCh? || s.waiter.CloseCleanupCh? || s.waiter.WaiterDone? ==>
          s.process.Reaped? && s.stack.once.Fired?)
    && (s.process.Reaped? ==> !s.waiter.WaiterUnborn? && !s.waiter.WaitProcess?)
    && (s.waiter.SendResult? ==> s.waiter.result == ProcessResult(s))
    && (Delivered(s) <==> s.waiter.CloseErrCh? || s.waiter.CloseCleanupCh? || s.waiter.WaiterDone?)
    && (Delivered(s) ==> s.sent == [ProcessResult(s)])
    && (s.errClosed <==> s.waiter.CloseCleanupCh? || s.waiter.WaiterDone?)
    && (s.cleanupClosed <==> s.waiter.WaiterDone?)
  }

  /** The combined wait and cleanup error, as the waiter sends it. */
  function ProcessResult(s: State): GoError
    requires s.process.Reaped?
  {
    ErrorOrNil(s.process.exit + WaiterCleanupErrs(s))
  }

  /** errCh has one value and one reader for it. */
  ghost predicate ErrChInv(s: State) {
    && (Delivered(s) ==> s.process.Reaped?)
    && (s.starter.SetupSignals? || s.starter.AwaitSocket? ==> !Delivered(s))
    && (s.starter.SpawnWatcher? || s.starter.SpawnPublisher? || s.publisher.Receive? ==>
          Delivered(s) ==> s.sent[0].Nil?)
    && (s.timedOut ==> !Delivered(s)
                       && (s.starter == StoreSocketError(Single(InitTimeout)) || s.starter.CloseAfterSocketError? || s.vmm.SocketError?))
    && (s.starter.StoreSocketError? && !s.timedOut ==> Delivered(s) && s.starter.socket == s.sent[0] && !s.sent[0].Nil?)
    && (s.starter.CloseAfterSocketError? || s.vmm.SocketError? ==> s.timedOut || (Delivered(s) && !s.sent[0].Nil?))
    && (s.publisher.StoreFatal? ==> Delivered(s) && s.publisher.value == s.sent[0])
    && (s.publisher.CloseExitCh? || s.publisher.PublisherDone? ==> Delivered(s) && s.fatalErr == s.sent[0])
    && (s.starter.CloseAfterSocketError? || s.vmm.SocketError? ==> s.fatalErr == Wrapped(SocketCause(s)))
  }

  /** The cause startVMM wraps when waitForSocket fails. */
  function SocketCause(s: State): GoError {
    if s.timedOut || s.sent == [] then Single(InitTimeout) else s.sent[0]
  }

  /** Who is inside cleanupOnce. */
  ghost predicate OnceInv(s: State) {
    && (s.starter.Unwinding? <==> s.stack.once.Firing? && s.stack.once.owner.ByStarter?)
    && (s.waiter.InCleanup? <==> s.stack.once.Firing? && s.stack.once.owner.ByWaiter?)
    && (s.starter == Returned(true) ==> s.stack.once.Fired?)
    && (s.stack.once.Fired? && s.stack.once.owner.ByWaiter? ==> s.waiter.SendResult? || Delivered(s))
    && (s.stack.once.Firing? ==> s.stack.once.next <= s.stack.once.total)
  }

  /** exitCh is open until the one site that owns the close has run. */
  ghost predicate ExitChInv(s: State) {
    && (s.exitClosed <==> s.vmm.LaunchError? || s.vmm.SocketError? || s.publisher.PublisherDone?)
    && (s.vmm.Unfinished? ==> s.publisher.PublisherUnborn?)
  }

  ghost predicate ShutdownInv(s: State) {
    && (s.shutdownClosed <==> s.shutdowns > 0)
    && (s.panicked <==> s.shutdowns > 1)
  }

  ghost predicate CallerInv(s: State) {
    && (forall i :: 0 <= i < |s.callers| ==> s.callers[i].Woken? || s.callers[i].Got? ==> s.exitClosed)
    && (forall i :: 0 <= i < |s.callers| ==> s.callers[i].Got? ==> s.callers[i].value == s.fatalErr)
    && (forall i :: 0 <= i < |s.stoppers| ==> s.stoppers[i] == Stopped(true, true) ==> s.cleanupClosed)
    && (forall i :: 0 <= i < |s.stoppers| ==>
          (s.stoppers[i].Signalling? || s.stoppers[i].AwaitCleanup? || (s.stoppers[i].Stopped? && s.stoppers[i].started)) ==>
            ProcessSet(s))
  }

  /** The waiter's share of the errors doCleanup collected. */
  function WaiterCleanupErrs(s: State): seq<Failure> {
    if s.stack.once.Fired? && s.stack.once.owner == ByWaiter then s.stack.errs else []
  }

  ghost predicate Control(s: State) {
    && StarterInv(s)
    && OnceInv(s)
    && ExitChInv(s)
    && ShutdownInv(s)
  }

  ghost predicate Data(s: State) {
    && WaiterInv(s)
    && ErrChInv(s)
  }

  ghost predicate Core(s: State) {
    && Control(s)
    && Data(s)
  }

  ghost predicate Inv(s: State) {
    && Core(s)
    && CallerInv(s)
    && LogInv(s.stack)
  }

  predicate ProcessGone(s: State) { s.process.Exited? || s.process.Reaped? }

  /** What no later step takes back: closed channels, a published
      fatalErr, a started or finished process, how startVMM ended. */
  predicate Settled(s: State, t: State) {
    && (s.exitClosed ==> t.exitClosed && t.fatalErr == s.fatalErr)
    && (s.errClosed ==> t.errClosed)
    && (s.cleanupClosed ==> t.cleanupClosed)
    && (s.shutdownClosed ==> t.shutdownClosed)
    && (ProcessSet(s) ==> ProcessSet(t))
    && (ProcessGone(s) ==> ProcessGone(t) && t.process.exit == s.process.exit)
    && (s.vmm.Unfinished? || t.vmm == s.vmm)
    && (s.timedOut ==> t.timedOut)
  }

  predicate SameCallers(s: State, t: State) { s.callers == t.callers && s.stoppers == t.stoppers }

  // ---------- preservation ----------

  lemma {:induction false} StartKeepsControl(c: Config, s: State, m: StartMove)
    requires Core(s) && !s.panicked && CanStart(s, m) && !m.Proceed?
    ensures Control(DoStart(c, s, m))
  {
  }

  lemma {:induction false} StartKeepsData(c: Config, s: State, m: StartMove)
    requires Core(s) && !s.panicked && CanStart(s, m) && !m.Proceed?
    ensures Data(DoStart(c, s, m))
  {
  }

  lemma {:induction false} StartSettles(c: Config, s: State, m: StartMove)
    requires Core(s) && !s.panicked && CanStart(s, m) && !m.Proceed?
    ensures Settled(s, DoStart(c, s, m)) && SameCallers(s, DoStart(c, s, m))
  {
  }

  lemma {:induction false} ProceedKeepsControl(c: Config, s: State)
    requires Core(s) && !s.panicked && CanProceed(s.starter)
    ensures Control(DoProceed(c, s))
  {
  }

  lemma {:induction false} ProceedKeepsData(c: Config, s: State)
    requires Core(s) && !s.panicked && CanProceed(s.starter)
    ensures Data(DoProceed(c, s))
    ensures Settled(s, DoProceed(c, s)) && SameCallers(s, DoProceed(c, s))
  {
  }

  lemma {:induction false} StarterCleanKeepsControl(s: State, m: CleanupMove)
    requires Core(s) && !s.panicked && LogInv(s.stack) && CanClean(s, ByStarter, m)
    ensures Control(DoClean(s, ByStarter, m))
  {
  }

  lemma {:induction false} StarterCleanKeepsData(s: State, m: CleanupMove)
    requires Core(s) && !s.panicked && LogInv(s.stack) && CanClean(s, ByStarter, m)
    ensures Data(DoClean(s, ByStarter, m))
    ensures Settled(s, DoClean(s, ByStarter, m)) && SameCallers(s, DoClean(s, ByStarter, m))
  {
  }

  lemma {:induction false} WaiterCleanKeepsControl(s: State, m: CleanupMove)
    requires Core(s) && !s.panicked && LogInv(s.stack) && CanClean(s, ByWaiter, m)
    ensures Control(DoClean(s, ByWaiter, m))
  {
  }

  lemma {:induction false} WaiterCleanKeepsData(s: State, m: CleanupMove)
    requires Core(s) && !s.panicked && LogInv(s.stack) && CanClean(s, ByWaiter, m)
    ensures Data(DoClean(s, ByWaiter, m))
    ensures Settled(s, DoClean(s, ByWaiter, m)) && SameCallers(s, DoClean(s, ByWaiter, m))
  {
  }

  lemma {:induction false} WaitKeepsControl(c: Config, s: State, m: WaitMove)
    requires Core(s) && !s.panicked && CanWait(s, m)
    ensures Control(DoWait(c, s, m))
  {
  }

  lemma {:induction false} WaitKeepsData(c: Config, s: State, m: WaitMove)
    requires Core(s) && !s.panicked && CanWait(s, m)
    ensures Data(DoWait(c, s, m))
  {
  }

  lemma {:induction false} WaitSettles(c: Config, s: State, m: WaitMove)
    requires Core(s) && !s.panicked && CanWait(s, m)
    ensures Settled(s, DoWait(c, s, m)) && SameCallers(s, DoWait(c, s, m))
  {
  }

  lemma {:induction false} PublishKeepsControl(s: State, m: PublishMove)
    requires Core(s) && !s.panicked && CanPublish(s, m)
    ensures Control(DoPublish(s, m))
  {
  }

  lemma {:induction false} PublishKeepsData(s: State, m: PublishMove)
    requires Core(s) && !s.panicked && CanPublish(s, m)
    ensures Data(DoPublish(s, m))
    ensures Settled(s, DoPublish(s, m)) && SameCallers(s, DoPublish(s, m))
  {
  }

  predicate Environment(m: SideMove) { m.ProcessExits? || m.Shutdown? }

  /** Watcher, forwarder and callers change nothing the protocol depends on. */
  lemma {:induction false} SideIsQuiet(s: State, m: SideMove)
    requires CanSide(s, m) && !Environment(m)
    ensures var t := DoSide(s, m);
            t == s.(watcher := t.watcher, forwarder := t.forwarder, stoppers := t.stoppers, callers := t.callers)
  {
    match m
    case StopperChecks(i) => assert DoSide(s, m) == s.(stoppers := DoSide(s, m).stoppers);
    case StopperSignals(i, ok) => assert DoSide(s, m) == s.(stoppers := DoSide(s, m).stoppers);
    case CallerReads(i) => assert DoSide(s, m) == s.(callers := DoSide(s, m).callers);
    case _ =>
  }

  lemma {:induction false} QuietKeeps(s: State, w: Watcher, f: Forwarder, stoppers: seq<Stopper>, callers: seq<Caller>)
    requires Core(s)
    ensures var t := s.(watcher := w, forwarder := f, stoppers := stoppers, callers := callers);
            Core(t) && Settled(s, t)
  {
  }

  lemma {:induction false} EnvironmentKeeps(s: State, m: SideMove)
    requires Core(s) && !s.panicked && Environment(m) && CanSide(s, m)
    ensures Core(DoSide(s, m)) && Settled(s, DoSide(s, m))
  {
  }

  lemma {:induction false} CallersFollow(s: State, t: State)
    requires CallerInv(s) && Settled(s, t) && SameCallers(s, t)
    ensures CallerInv(t)
  {
  }

  lemma {:induction false} SideCallers(s: State, m: SideMove)
    requires CallerInv(s) && CanSide(s, m)
    ensures CallerInv(DoSide(s, m))
  {
  }

  /** One step of any goroutine keeps the invariant and settles what is settled. */
  lemma {:induction false} StepKeeps(c: Config, s: State, l: Label)
    requires Inv(s) && Enabled(s, l)
    ensures Inv(Do(c, s, l)) && Settled(s, Do(c, s, l))
  {
    var t := Do(c, s, l);
    StepKeepsCore(c, s, l);
    StepKeepsLog(c, s, l);
    if l.Side? {
      SideCallers(s, l.side);
    } else {
      CallersFollow(s, t);
    }
  }

  lemma {:induction false} StepKeepsCore(c: Config, s: State, l: Label)
    requires Core(s) && LogInv(s.stack) && Enabled(s, l)
    ensures Core(Do(c, s, l)) && Settled(s, Do(c, s, l))
    ensures !l.Side? ==> SameCallers(s, Do(c, s, l))
  {
    match l
    case Start(m) =>
      if m.Proceed? {
        ProceedKeepsControl(c, s);
        ProceedKeepsData(c, s);
      } else {
        StartKeepsControl(c, s, m);
        StartKeepsData(c, s, m);
        StartSettles(c, s, m);
      }
    case Clean(owner, m) =>
      if owner.ByStarter? {
        StarterCleanKeepsControl(s, m);
        StarterCleanKeepsData(s, m);
      } else {
        WaiterCleanKeepsControl(s, m);
        WaiterCleanKeepsData(s, m);
      }
    case Wait(m) =>
      WaitKeepsControl(c, s, m);
      WaitKeepsData(c, s, m);
      WaitSettles(c, s, m);
    case Publish(m) =>
      PublishKeepsControl(s, m);
      PublishKeepsData(s, m);
    case Side(m) =>
      if Environment(m) {
        EnvironmentKeeps(s, m);
      } else {
        SideIsQuiet(s, m);
        var t := DoSide(s, m);
        QuietKeeps(s, t.watcher, t.forwarder, t.stoppers, t.callers);
      }
  }

  lemma {:induction false} ProceedStack(c: Config, s: State)
    requires CanProceed(s.starter)
    ensures DoProceed(c, s).stack == if s.starter.RegisterSocket? then Register(s.stack, 1) else s.stack
  {
    match s.starter
    case RegisterSocket =>
    case CloseAfterLaunchError => assert CloseExit(s).stack == s.stack;
    case CloseAfterSocketError => assert CloseExit(s).stack == s.stack;
    case _ =>
  }

  lemma {:induction false} StartKeepsLog(c: Config, s: State, m: StartMove)
    requires LogInv(s.stack) && CanStart(s, m)
    ensures LogInv(DoStart(c, s, m).stack)
  {
    match m
    case Handler(adds) => RegisterKeeps(s.stack, adds);
    case Proceed =>
      ProceedStack(c, s);
      RegisterKeeps(s.stack, 1);
    case _ => assert DoStart(c, s, m).stack == s.stack;
  }

  lemma {:induction false} CleanStack(s: State, owner: Owner, m: CleanupMove)
    requires CanClean(s, owner, m) && (m.CallOne? ==> 0 <= NextIndex(s.stack))
    ensures DoClean(s, owner, m).stack ==
            match m
            case EnterOnce => if s.stack.once.Unfired? then Enter(s.stack, owner) else s.stack
            case CallOne(answer) => Call(s.stack, answer)
            case LeaveOnce => Leave(s.stack)
  {
  }

  lemma {:induction false} CleanKeepsLog(s: State, owner: Owner, m: CleanupMove)
    requires LogInv(s.stack) && CanClean(s, owner, m)
    ensures LogInv(DoClean(s, owner, m).stack)
  {
    match m
    case EnterOnce =>
      CleanStack(s, owner, m);
      if s.stack.once.Unfired? {
        EnterKeeps(s.stack, owner);
      }
    case CallOne(answer) =>
      CallKeeps(s.stack, answer);
      CleanStack(s, owner, m);
    case LeaveOnce =>
      LeaveKeeps(s.stack);
      CleanStack(s, owner, m);
  }

  lemma {:induction false} StepKeepsLog(c: Config, s: State, l: Label)
    requires LogInv(s.stack) && Enabled(s, l)
    ensures LogInv(Do(c, s, l).stack)
  {
    match l
    case Start(m) => StartKeepsLog(c, s, m);
    case Clean(owner, m) => CleanKeepsLog(s, owner, m);
    case Wait(m) => assert DoWait(c, s, m).stack == s.stack;
    case Publish(m) => assert DoPublish(s, m).stack == s.stack;
    case Side(m) => assert DoSide(s, m).stack == s.stack;
  }

  lemma {:induction false} ExecKeeps(c: Config, from: State, labels: seq<Label>)
    requires Inv(from) && Exec(c, from, labels).At?
    ensures Inv(Exec(c, from, labels).state) && Settled(from, Exec(c, from, labels).state)
    decreases |labels|
  {
    if labels != [] {
      var before := labels[..|labels| - 1];
      ExecKeeps(c, from, before);
      StepKeeps(c, Exec(c, from, before).state, labels[|labels| - 1]);
    }
  }

  /** The invariant holds in every state any interleaving can reach. */
  lemma {:induction false} ReachableInv(c: Config, s: State)
    requires Reachable(c, s)
    ensures Inv(s)
  {
    var labels :| Exec(c, INIT, labels) == At(s);
    InitInv();
    ExecKeeps(c, INIT, labels);
  }

  lemma InitInv()
    ensures Inv(INIT)
  {
  }

  // ---------- the theorems ----------

  /** In every interleaving the only channel operation that can panic is Shutdown's
      close of shutdownCh, and it does exactly when Shutdown is called a second time.
      So exitCh, errCh and cleanupCh are each closed at most once and nothing is sent
      on a closed errCh, although three sites close exitCh. */
  lemma {:induction false} NoDoubleClose(c: Config, s: State)
    requires Reachable(c, s)
    ensures s.panicked <==> s.shutdowns > 1
  {
    ReachableInv(c, s);
  }

  /** What startVMM's outcome makes of fatalErr, once exitCh is closed. */
  ghost predicate Verdict(s: State, value: GoError) {
    match s.vmm
    case LaunchError => s.process.Refused? && value == Single(s.process.failure)
    case SocketError =>
      if s.timedOut then value == Wrapped(Single(InitTimeout))
      else s.process.Reaped? && value == Wrapped(ProcessResult(s)) && !ProcessResult(s).Nil?
    case Succeeded => s.process.Reaped? && value == ProcessResult(s)
    case Unfinished => false
  }

  lemma {:induction false} VerdictHolds(s: State)
    requires Core(s) && s.exitClosed
    ensures Verdict(s, s.fatalErr)
  {
  }

  lemma {:induction false} GotIsFatal(s: State)
    requires CallerInv(s)
    ensures forall i :: 0 <= i < |s.callers| && s.callers[i].Got? ==> s.exitClosed && s.callers[i].value == s.fatalErr
  {
  }

  /** Every Wait that returns through exitCh, in this state or any later one, gets
      the same error: the start error, the wrapped socket-wait error, or the combined
      wait and cleanup error of the process, according to how startVMM ended. */
  lemma {:induction false} WaitAgrees(c: Config, s: State, t: State)
    requires Reachable(c, s) && s.exitClosed && Leads(c, s, t)
    ensures Verdict(t, s.fatalErr)
    ensures t.fatalErr == s.fatalErr
    ensures forall i :: 0 <= i < |t.callers| && t.callers[i].Got? ==> t.callers[i].value == s.fatalErr
  {
    ReachableInv(c, s);
    var labels :| Exec(c, s, labels) == At(t);
    ExecKeeps(c, s, labels);
    VerdictHolds(t);
    GotIsFatal(t);
  }

  /** No Wait returns an error before exitCh is closed. */
  lemma {:induction false} WaitNeverEarly(c: Config, s: State, i: nat)
    requires Reachable(c, s) && i < |s.callers| && s.callers[i].Got?
    ensures s.exitClosed && Verdict(s, s.callers[i].value)
  {
    ReachableInv(c, s);
    GotIsFatal(s);
    VerdictHolds(s);
  }

  /** StopVMM returning nil after it found a process means the process was waited
      on and the one pass over the cleanups is over. */
  lemma {:induction false} StopMeansCleaned(c: Config, s: State, i: nat)
    requires Reachable(c, s) && i < |s.stoppers| && s.stoppers[i] == Stopped(true, true)
    ensures s.process.Reaped? && s.stack.once.Fired? && s.cleanupClosed
  {
    ReachableInv(c, s);
  }

  /** A failed Start has started a process exactly when startVMM came past the launch. */
  lemma {:induction false} FailedStartProcess(c: Config, s: State)
    requires Reachable(c, s) && s.starter == Returned(true)
    ensures s.process.Running? || s.process.Exited? || s.process.Reaped? <==> s.vmm.SocketError? || s.vmm.Succeeded?
  {
    ReachableInv(c, s);
  }

  /** And nothing Start does ends it, its cleanups included: only its own exit does. */
  lemma {:induction false} OnlyExitEndsIt(c: Config, s: State, l: Label)
    requires Inv(s) && Enabled(s, l) && s.process.Running?
    ensures Do(c, s, l).process.Running? <==> !(l.Side? && l.side.ProcessExits?)
  {
    match l
    case Start(m) => StartMoves(c, s, m);
    case Clean(owner, m) => assert DoClean(s, owner, m).process == s.process;
    case Side(m) => SideMoves(s, m);
    case _ =>                        // a live process has not been waited on, so nothing was sent
  }

  lemma {:induction false} PublishMoves(s: State, m: PublishMove)
    requires CanPublish(s, m)
    ensures var t := DoPublish(s, m); t.starter == s.starter && t.watcher == s.watcher && t.vmm == s.vmm
  {
    match m
    case ReceiveClosed => assert DoPublish(s, m) == s.(publisher := StoreFatal(Nil));
    case StoreIt => assert DoPublish(s, m) == s.(publisher := CloseExitCh, fatalErr := s.publisher.value);
    case CloseIt => assert DoPublish(s, m) == CloseExit(s).(publisher := PublisherDone);
  }

  /** What Start's own moves do to the process and the watcher. */
  lemma {:induction false} StartMoves(c: Config, s: State, m: StartMove)
    requires CanStart(s, m)
    ensures var t := DoStart(c, s, m);
            && (t.process == s.process || s.starter.Launching?)
            && (t.watcher == s.watcher || (s.starter.SpawnWatcher? && t.starter.SpawnPublisher?))
            && (s.starter.SpawnPublisher? ==> t.vmm.Succeeded?)
            && (s.vmm.Succeeded? && !m.Proceed? ==> t.vmm.Succeeded?)
  {
    if m.Proceed? {
      ProceedMoves(c, s);
    }
  }

  lemma {:induction false} ProceedMoves(c: Config, s: State)
    requires CanProceed(s.starter)
    ensures var t := DoProceed(c, s);
            && t.process == s.process
            && (t.watcher == s.watcher || (s.starter.SpawnWatcher? && t.starter.SpawnPublisher?))
            && (s.starter.SpawnPublisher? ==> t.vmm.Succeeded?)
  {
    match s.starter
    case CloseAfterLaunchError => assert CloseExit(s).process == s.process && CloseExit(s).watcher == s.watcher;
    case CloseAfterSocketError => assert CloseExit(s).process == s.process && CloseExit(s).watcher == s.watcher;
    case SpawnWatcher =>
    case SpawnPublisher =>
    case _ =>
  }

  lemma {:induction false} SideMoves(s: State, m: SideMove)
    requires CanSide(s, m)
    ensures var t := DoSide(s, m);
            t.starter == s.starter && t.vmm == s.vmm && (t.process == s.process <==> !m.ProcessExits?)
  {
    if m.ProcessExits? {
      assert DoSide(s, m).process.Exited?;
    } else if !Environment(m) {
      SideIsQuiet(s, m);
    }
  }

  /** The watcher of Start's context exists only if startVMM gets that far: after a failed
      wait for the socket there is none, and cancelling that context stops nothing. */
  lemma {:induction false} WatcherBorn(c: Config, labels: seq<Label>, s: State)
    requires Exec(c, INIT, labels) == At(s)
    ensures !s.watcher.WatcherUnborn? ==> s.starter.SpawnPublisher? || s.vmm.Succeeded?
    decreases |labels|
  {
    if labels != [] {
      var before := labels[..|labels| - 1];
      var s0 := Exec(c, INIT, before).state;
      WatcherBorn(c, before, s0);
      assert Reachable(c, s0);
      ReachableInv(c, s0);
      WatcherKept(c, s0, labels[|labels| - 1]);
    }
  }

  lemma {:induction false} WatcherKept(c: Config, s: State, l: Label)
    requires Inv(s) && Enabled(s, l)
    requires !s.watcher.WatcherUnborn? ==> s.starter.SpawnPublisher? || s.vmm.Succeeded?
    ensures var t := Do(c, s, l); !t.watcher.WatcherUnborn? ==> t.starter.SpawnPublisher? || t.vmm.Succeeded?
  {
    match l
    case Start(m) => StartMoves(c, s, m);
    case Clean(owner, m) => assert DoClean(s, owner, m).watcher == s.watcher && DoClean(s, owner, m).vmm == s.vmm;
    case Wait(m) => assert DoWait(c, s, m).watcher == s.watcher && DoWait(c, s, m).vmm == s.vmm;
    case Publish(m) => PublishMoves(s, m);
    case Side(m) => SideMoves(s, m);
  }

  lemma {:induction false} NobodyWatches(c: Config, s: State)
    requires Reachable(c, s) && s.vmm.SocketError?
    ensures s.watcher.WatcherUnborn?
  {
    var labels :| Exec(c, INIT, labels) == At(s);
    WatcherBorn(c, labels, s);
    ReachableInv(c, s);
  }

  /** A handler that runs after StartVMM registers a cleanup. */
  predicate RegistersLate(s: State, l: Label) {
    s.starter.LateHandlers? && l.Start? && l.start.Handler? && l.start.adds > 0
  }

  /** No handler after StartVMM registers a cleanup. */
  predicate NoneRegistersLate(c: Config, labels: seq<Label>) {
    labels == []
    || (var before := labels[..|labels| - 1];
        && NoneRegistersLate(c, before)
        && (Exec(c, INIT, before).At? ==> !RegistersLate(Exec(c, INIT, before).state, labels[|labels| - 1])))
  }

  /** A handler after StartVMM registers no cleanups or one of the allowed numbers of them. */
  ghost predicate LateWithin(c: Config, labels: seq<Label>, allowed: iset<nat>) {
    labels == []
    || (var before, l := labels[..|labels| - 1], labels[|labels| - 1];
        && LateWithin(c, before, allowed)
        && (Exec(c, INIT, before).At? && RegistersLate(Exec(c, INIT, before).state, l) ==> l.start.adds in allowed))
  }

  lemma {:induction false} WithinNothing(c: Config, labels: seq<Label>, allowed: iset<nat>)
    requires LateWithin(c, labels, allowed) && forall n :: n in allowed ==> n == 0
    ensures NoneRegistersLate(c, labels)
    decreases |labels|
  {
    if labels != [] {
      WithinNothing(c, labels[..|labels| - 1], allowed);
    }
  }

  lemma {:induction false} NoneIsWithin(c: Config, labels: seq<Label>, allowed: iset<nat>)
    requires NoneRegistersLate(c, labels)
    ensures LateWithin(c, labels, allowed)
    decreases |labels|
  {
    if labels != [] {
      NoneIsWithin(c, labels[..|labels| - 1], allowed);
    }
  }

  lemma {:induction false} StaysUnshifted(c: Config, s: State, l: Label)
    requires Inv(s) && Enabled(s, l) && !RegistersLate(s, l) && !s.stack.shifted
    ensures !Do(c, s, l).stack.shifted
  {
    match l
    case Start(m) =>
      assert s.starter.EarlyHandlers? || s.starter.RegisterSocket? ==> !s.stack.once.Firing?;
      if m.Proceed? {
        ProceedStack(c, s);
      } else if !m.Handler? {
        assert DoStart(c, s, m).stack == s.stack;
      }
    case Clean(owner, m) =>
      if m.CallOne? {
        CallKeeps(s.stack, m.answer);
      }
      CleanStack(s, owner, m);
    case Wait(m) => assert DoWait(c, s, m).stack == s.stack;
    case Publish(m) => assert DoPublish(s, m).stack == s.stack;
    case Side(m) =>
      if !Environment(m) {
        SideIsQuiet(s, m);
      }
  }

  /** The condition a caller can check beforehand: if no handler after StartVMM registers
      a cleanup, every run's pass is the exact reverse of the registrations. */
  lemma {:induction false} CleanupReversedUnlessLate(c: Config, labels: seq<Label>, s: State)
    requires Exec(c, INIT, labels) == At(s) && NoneRegistersLate(c, labels)
    ensures !s.stack.shifted
    ensures s.stack.once.Fired? ==> s.stack.ran == Countdown(s.stack.once.total)
    decreases |labels|
  {
    if labels != [] {
      var before := labels[..|labels| - 1];
      var s0 := Exec(c, INIT, before).state;
      CleanupReversedUnlessLate(c, before, s0);
      assert Reachable(c, s0);
      ReachableInv(c, s0);
      StaysUnshifted(c, s0, labels[|labels| - 1]);
    }
    if s.stack.once.Fired? {
      assert Reachable(c, s);
      CleanupRunsAsRegistered(c, s);
    }
  }

  /** Across Start's deferred doCleanup and the waiter's, the finished pass called
      each cleanup registered before it exactly once in reverse order, exactly when no
      registration landed while calls were left; the errors are those calls' in order. */
  lemma {:induction false} CleanupRunsAsRegistered(c: Config, s: State)
    requires Reachable(c, s) && s.stack.once.Fired?
    ensures s.stack.ran == Countdown(s.stack.once.total) <==> !s.stack.shifted
    ensures s.stack.shifted ==> 0 < s.stack.once.total && 0 !in s.stack.ran
    ensures |s.stack.answers| == |s.stack.ran| && s.stack.errs == NonNil(s.stack.ran, s.stack.answers)
  {
    ReachableInv(c, s);
    PassIsCountdown(s.stack);
  }
}
