/** The concurrent lifecycle of a Machine: the goroutine running Start, the
    goroutines startVMM spawns, the process, and any number of StopVMM and Wait
    callers, as one labelled transition system. A label names the goroutine that
    moves and every choice that is not its own (a failure, a timeout, a message),
    so a step is a function and all nondeterminism is in which label comes next. */
module Lifecycle {
  import opened CleanupStack

  /** Go's error values as far as this protocol can tell them apart. */
  datatype GoError = Nil | Single(failure: Failure) | Wrapped(cause: GoError) | Multi(failures: seq<Failure>)

  /** multierror.ErrorOrNil: an empty collection is nil. */
  function ErrorOrNil(failures: seq<Failure>): GoError {
    if failures == [] then Nil else Multi(failures)
  }

  // ---------- program counters ----------

  /** The goroutine that called Start. */
  datatype Starter =
    | NotCalled
    | EarlyHandlers
    | Launching
    | StoreLaunchError(launch: Failure)
    | CloseAfterLaunchError
    | RegisterSocket
    | SpawnWaiter
    | SetupSignals
    | AwaitSocket
    | StoreSocketError(socket: GoError)
    | CloseAfterSocketError
    | SpawnWatcher
    | SpawnPublisher
    | LateHandlers
    | Unwind                    // before cleanupOnce.Do in the deferred call
    | Unwinding                 // inside it
    | Returned(failed: bool)

  /** The goroutine that waits for the process; `exit` is the result of cmd.Wait. */
  datatype Waiter =
    | WaiterUnborn
    | WaitProcess
    | CheckDaemonize(exit: seq<Failure>)
    | AwaitShutdown(exit: seq<Failure>)
    | EnterCleanup(exit: seq<Failure>)
    | InCleanup(exit: seq<Failure>)
    | SendResult(result: GoError)
    | CloseErrCh
    | CloseCleanupCh
    | WaiterDone

  /** The goroutine that publishes fatalErr and closes exitCh. */
  datatype Publisher = PublisherUnborn | Receive | StoreFatal(value: GoError) | CloseExitCh | PublisherDone

  /** The goroutine that stops the VM when the context ends. */
  datatype Watcher = WatcherUnborn | SelectDone | StopSignal | StopAwait | WatcherDone

  /** The goroutine that forwards signals. */
  datatype Forwarder = ForwarderUnborn | Forwarding | ForwarderStop | ForwarderDone

  /** A caller of StopVMM; `started` records what it saw in m.cmd.Process. */
  datatype Stopper = StopCheck | Signalling | AwaitCleanup | Stopped(started: bool, ok: bool)

  /** A caller of Wait. */
  datatype Caller = Selecting | Woken | Cancelled | Got(value: GoError)

  datatype Process =
    | NotStarted
    | Refused(failure: Failure)
    | Running
    | Exited(exit: seq<Failure>)
    | Reaped(exit: seq<Failure>)

  /** How startVMM ended, if it has. */
  datatype Outcome = Unfinished | LaunchError | SocketError | Succeeded

  /** daemonized: a jailer configuration with Daemonize; forwards: some signal is forwarded. */
  datatype Config = Config(daemonized: bool, forwards: bool)

  datatype State = State(
    starter: Starter,
    waiter: Waiter,
    publisher: Publisher,
    watcher: Watcher,
    forwarder: Forwarder,
    stoppers: seq<Stopper>,
    callers: seq<Caller>,
    process: Process,
    exitClosed: bool,
    errClosed: bool,
    cleanupClosed: bool,
    shutdownClosed: bool,
    fatalErr: GoError,
    stack: Stack,
    panicked: bool,               // a close of, or a send on, a closed channel
    // history, read by no step
    shutdowns: nat,
    vmm: Outcome,
    timedOut: bool,
    sent: seq<GoError>)           // the values handed over errCh

  const INIT: State := State(
    NotCalled, WaiterUnborn, PublisherUnborn, WatcherUnborn, ForwarderUnborn, [], [], NotStarted,
    false, false, false, false, Nil, EMPTY, false, 0, Unfinished, false, [])

  predicate ProcessSet(s: State) { !s.process.NotStarted? && !s.process.Refused? }

  // Closing a closed channel panics.
  function CloseExit(s: State): State { s.(exitClosed := true, panicked := s.exitClosed) }
  function CloseErr(s: State): State { s.(errClosed := true, panicked := s.errClosed) }
  function CloseCleanup(s: State): State { s.(cleanupClosed := true, panicked := s.cleanupClosed) }
  function CloseShutdown(s: State): State { s.(shutdownClosed := true, panicked := s.shutdownClosed) }

  // ---------- Start and startVMM ----------

  datatype StartMove =
    | CallStart
    | Handler(adds: nat)          // a handler other than StartVMM succeeds, registering cleanups
    | HandlerFails
    | ReachStartVMM
    | LaunchOk
    | LaunchFails(code: nat)
    | Proceed                     // the next statement, where there is no choice
    | SocketReady
    | SocketTimeout
    | SocketReadsClosed
    | StartSucceeds

  predicate CanProceed(p: Starter) {
    || p.StoreLaunchError? || p.CloseAfterLaunchError?
    || p.RegisterSocket? || p.SpawnWaiter? || p.SetupSignals?
    || p.StoreSocketError? || p.CloseAfterSocketError?
    || p.SpawnWatcher? || p.SpawnPublisher?
  }

  predicate CanStart(s: State, m: StartMove) {
    match m
    case CallStart => s.starter.NotCalled?
    case Handler(_) => s.starter.EarlyHandlers? || s.starter.LateHandlers?
    case HandlerFails => s.starter.EarlyHandlers? || s.starter.LateHandlers?
    case ReachStartVMM => s.starter.EarlyHandlers?
    case LaunchOk => s.starter.Launching?
    case LaunchFails(_) => s.starter.Launching?
    case Proceed => CanProceed(s.starter)
    case SocketReady => s.starter.AwaitSocket?
    case SocketTimeout => s.starter.AwaitSocket?
    case SocketReadsClosed => s.starter.AwaitSocket? && s.errClosed
    case StartSucceeds => s.starter.LateHandlers?
  }

  function DoProceed(c: Config, s: State): State
    requires CanProceed(s.starter)
  {
    match s.starter
    case StoreLaunchError(e) => s.(starter := CloseAfterLaunchError, fatalErr := Single(e))
    case CloseAfterLaunchError => CloseExit(s).(starter := Unwind, vmm := LaunchError)
    case RegisterSocket => s.(starter := SpawnWaiter, stack := Register(s.stack, 1))
    case SpawnWaiter => s.(starter := SetupSignals, waiter := WaitProcess)
    case SetupSignals => s.(starter := AwaitSocket, forwarder := if c.forwards then Forwarding else ForwarderUnborn)
    case StoreSocketError(e) => s.(starter := CloseAfterSocketError, fatalErr := Wrapped(e))
    case CloseAfterSocketError => CloseExit(s).(starter := Unwind, vmm := SocketError)
    case SpawnWatcher => s.(starter := SpawnPublisher, watcher := SelectDone)
    case SpawnPublisher => s.(starter := LateHandlers, publisher := Receive, vmm := Succeeded)
  }

  /** waitForSocket returns what it received: nil makes startVMM carry on. */
  function AfterReceive(value: GoError): Starter {
    if value.Nil? then SpawnWatcher else StoreSocketError(value)
  }

  function DoStart(c: Config, s: State, m: StartMove): State
    requires CanStart(s, m)
  {
    match m
    case CallStart => s.(starter := EarlyHandlers)
    case Handler(adds) => s.(stack := Register(s.stack, adds))
    case HandlerFails => s.(starter := Unwind)
    case ReachStartVMM => s.(starter := Launching)
    case LaunchOk => s.(starter := RegisterSocket, process := Running)
    case LaunchFails(code) => s.(starter := StoreLaunchError(LaunchFailed(code)), process := Refused(LaunchFailed(code)))
    case Proceed => DoProceed(c, s)
    case SocketReady => s.(starter := SpawnWatcher)
    case SocketTimeout => s.(starter := StoreSocketError(Single(InitTimeout)), timedOut := true)
    case SocketReadsClosed => s.(starter := AfterReceive(Nil))
    case StartSucceeds => s.(starter := Returned(false))
  }

  // ---------- doCleanup ----------

  datatype CleanupMove = EnterOnce | CallOne(answer: Answer) | LeaveOnce

  predicate AtOnce(s: State, owner: Owner) {
    match owner
    case ByStarter => s.starter.Unwind?
    case ByWaiter => s.waiter.EnterCleanup?
  }

  predicate Inside(s: State, owner: Owner) {
    && s.stack.once.Firing?
    && s.stack.once.owner == owner
    && match owner
       case ByStarter => s.starter.Unwinding?
       case ByWaiter => s.waiter.InCleanup?
  }

  predicate CanClean(s: State, owner: Owner, m: CleanupMove) {
    match m
    case EnterOnce => AtOnce(s, owner) && !s.stack.once.Firing?
    case CallOne(_) => Inside(s, owner) && MoreToCall(s.stack)
    case LeaveOnce => Inside(s, owner) && !MoreToCall(s.stack)
  }

  /** doCleanup returns `errs` to its caller. */
  function AfterCleanup(s: State, owner: Owner, errs: seq<Failure>): State
    requires AtOnce(s, owner) || Inside(s, owner)
  {
    match owner
    case ByStarter => s.(starter := Returned(true))
    case ByWaiter => s.(waiter := SendResult(ErrorOrNil(s.waiter.exit + errs)))
  }

  function DoClean(s: State, owner: Owner, m: CleanupMove): State
    requires CanClean(s, owner, m)
  {
    match m
    case EnterOnce =>
      if s.stack.once.Fired? then AfterCleanup(s, owner, [])
      else if owner.ByStarter? then s.(starter := Unwinding, stack := Enter(s.stack, owner))
      else s.(waiter := InCleanup(s.waiter.exit), stack := Enter(s.stack, owner))
    case CallOne(answer) =>
      if NextIndex(s.stack) < 0 then s.(panicked := true)
      else s.(stack := Call(s.stack, answer))
    case LeaveOnce => AfterCleanup(s, owner, s.stack.errs).(stack := Leave(s.stack))
  }

  // ---------- waiter and publisher ----------

  datatype WaitMove = Reap | CheckIt | SeeShutdown | HandToStarter | HandToPublisher | SendOnClosed | CloseNext

  predicate CanWait(s: State, m: WaitMove) {
    match m
    case Reap => s.waiter.WaitProcess? && s.process.Exited?
    case CheckIt => s.waiter.CheckDaemonize?
    case SeeShutdown => s.waiter.AwaitShutdown? && s.shutdownClosed
    case HandToStarter => s.waiter.SendResult? && !s.errClosed && s.starter.AwaitSocket?
    case HandToPublisher => s.waiter.SendResult? && !s.errClosed && s.publisher.Receive?
    case SendOnClosed => s.waiter.SendResult? && s.errClosed
    case CloseNext => s.waiter.CloseErrCh? || s.waiter.CloseCleanupCh?
  }

  function DoWait(c: Config, s: State, m: WaitMove): State
    requires CanWait(s, m)
  {
    match m
    case Reap => s.(waiter := CheckDaemonize(s.process.exit), process := Reaped(s.process.exit))
    case CheckIt =>
      s.(waiter := if c.daemonized && s.waiter.exit == [] then AwaitShutdown([]) else EnterCleanup(s.waiter.exit))
    case SeeShutdown => s.(waiter := EnterCleanup(s.waiter.exit))
    case HandToStarter =>
      s.(starter := AfterReceive(s.waiter.result), waiter := CloseErrCh, sent := s.sent + [s.waiter.result])
    case HandToPublisher =>
      s.(publisher := StoreFatal(s.waiter.result), waiter := CloseErrCh, sent := s.sent + [s.waiter.result])
    case SendOnClosed => s.(panicked := true)
    case CloseNext =>
      if s.waiter.CloseErrCh? then CloseErr(s).(waiter := CloseCleanupCh)
      else CloseCleanup(s).(waiter := WaiterDone)
  }

  datatype PublishMove = ReceiveClosed | StoreIt | CloseIt

  predicate CanPublish(s: State, m: PublishMove) {
    match m
    case ReceiveClosed => s.publisher.Receive? && s.errClosed
    case StoreIt => s.publisher.StoreFatal?
    case CloseIt => s.publisher.CloseExitCh?
  }

  function DoPublish(s: State, m: PublishMove): State
    requires CanPublish(s, m)
  {
    match m
    case ReceiveClosed => s.(publisher := StoreFatal(Nil))
    case StoreIt => s.(publisher := CloseExitCh, fatalErr := s.publisher.value)
    case CloseIt => CloseExit(s).(publisher := PublisherDone)
  }

  // ---------- context watcher, signal forwarder, callers, process, clients ----------

  datatype SideMove =
    | SeeContextDone
    | WatcherSeesExit
    | WatcherSignals(ok: bool)
    | WatcherSeesCleanup
    | ForwardSignal
    | ForwarderSeesExit
    | ForwarderStops
    | NewStopper
    | StopperChecks(i: nat)
    | StopperSignals(i: nat, ok: bool)
    | StopperSeesCleanup(i: nat)
    | NewCaller
    | CallerCancelled(i: nat)
    | CallerWakes(i: nat)
    | CallerReads(i: nat)
    | ProcessExits(clean: bool, status: nat)
    | Shutdown
    | Stutter

  predicate CanSide(s: State, m: SideMove) {
    match m
    case SeeContextDone => s.watcher.SelectDone?
    case WatcherSeesExit => s.watcher.SelectDone? && s.exitClosed
    case WatcherSignals(_) => s.watcher.StopSignal?
    case WatcherSeesCleanup => s.watcher.StopAwait? && s.cleanupClosed
    case ForwardSignal => s.forwarder.Forwarding?
    case ForwarderSeesExit => s.forwarder.Forwarding? && s.exitClosed
    case ForwarderStops => s.forwarder.ForwarderStop?
    case NewStopper => true
    case StopperChecks(i) => i < |s.stoppers| && s.stoppers[i].StopCheck?
    case StopperSignals(i, _) => i < |s.stoppers| && s.stoppers[i].Signalling?
    case StopperSeesCleanup(i) => i < |s.stoppers| && s.stoppers[i].AwaitCleanup? && s.cleanupClosed
    case NewCaller => true
    case CallerCancelled(i) => i < |s.callers| && s.callers[i].Selecting?
    case CallerWakes(i) => i < |s.callers| && s.callers[i].Selecting? && s.exitClosed
    case CallerReads(i) => i < |s.callers| && s.callers[i].Woken?
    case ProcessExits(_, _) => s.process.Running?
    case Shutdown => true
    case Stutter => true
  }

  function DoSide(s: State, m: SideMove): State
    requires CanSide(s, m)
  {
    match m
    case SeeContextDone => s.(watcher := StopSignal)
    case WatcherSeesExit => s.(watcher := WatcherDone)
    case WatcherSignals(ok) => s.(watcher := if ok then StopAwait else WatcherDone)
    case WatcherSeesCleanup => s.(watcher := WatcherDone)
    case ForwardSignal => s
    case ForwarderSeesExit => s.(forwarder := ForwarderStop)
    case ForwarderStops => s.(forwarder := ForwarderDone)
    case NewStopper => s.(stoppers := s.stoppers + [StopCheck])
    case StopperChecks(i) => s.(stoppers := s.stoppers[i := if ProcessSet(s) then Signalling else Stopped(false, true)])
    case StopperSignals(i, ok) => s.(stoppers := s.stoppers[i := if ok then AwaitCleanup else Stopped(true, false)])
    case StopperSeesCleanup(i) => s.(stoppers := s.stoppers[i := Stopped(true, true)])
    case NewCaller => s.(callers := s.callers + [Selecting])
    case CallerCancelled(i) => s.(callers := s.callers[i := Cancelled])
    case CallerWakes(i) => s.(callers := s.callers[i := Woken])
    case CallerReads(i) => s.(callers := s.callers[i := Got(s.fatalErr)])
    case ProcessExits(clean, status) => s.(process := Exited(if clean then [] else [BadExit(status)]))
    case Shutdown => CloseShutdown(s).(shutdowns := s.shutdowns + 1)
    case Stutter => s
  }

  // ---------- steps and runs ----------

  datatype Label =
    | Start(start: StartMove)
    | Clean(owner: Owner, clean: CleanupMove)
    | Wait(wait: WaitMove)
    | Publish(publish: PublishMove)
    | Side(side: SideMove)

  predicate Enabled(s: State, l: Label) {
    && !s.panicked
    && match l
       case Start(m) => CanStart(s, m)
       case Clean(owner, m) => CanClean(s, owner, m)
       case Wait(m) => CanWait(s, m)
       case Publish(m) => CanPublish(s, m)
       case Side(m) => CanSide(s, m)
  }

  function Do(c: Config, s: State, l: Label): State
    requires Enabled(s, l)
  {
    match l
    case Start(m) => DoStart(c, s, m)
    case Clean(owner, m) => DoClean(s, owner, m)
    case Wait(m) => DoWait(c, s, m)
    case Publish(m) => DoPublish(s, m)
    case Side(m) => DoSide(s, m)
  }

  datatype Run = Broken | At(state: State)

  /** The state after taking the labels in order, if each was enabled in its turn. */
  function Exec(c: Config, from: State, labels: seq<Label>): Run {
    if labels == [] then At(from)
    else
      match Exec(c, from, labels[..|labels| - 1])
      case Broken => Broken
      case At(s) => if Enabled(s, labels[|labels| - 1]) then At(Do(c, s, labels[|labels| - 1])) else Broken
  }

  ghost predicate Leads(c: Config, from: State, to: State) {
    exists labels: seq<Label> :: Exec(c, from, labels) == At(to)
  }

  ghost predicate Reachable(c: Config, s: State) {
    Leads(c, INIT, s)
  }

  lemma {:induction false} LeadsStep(c: Config, from: State, s: State, l: Label)
    requires Leads(c, from, s) && Enabled(s, l)
    ensures Leads(c, from, Do(c, s, l))
  {
    var labels :| Exec(c, from, labels) == At(s);
    var more := labels + [l];
    assert more[..|more| - 1] == labels;
    assert Exec(c, from, more) == At(Do(c, s, l));
  }

  lemma {:induction false} LeadsRefl(c: Config, s: State)
    ensures Leads(c, s, s)
  {
    assert Exec(c, s, []) == At(s);
  }

  lemma {:induction false} LeadsTrans(c: Config, a: State, b: State, d: State)
    requires Leads(c, a, b) && Leads(c, b, d)
    ensures Leads(c, a, d)
  {
    var labels :| Exec(c, b, labels) == At(d);
    LeadsTransFrom(c, a, b, d, labels);
  }

  lemma {:induction false} LeadsTransFrom(c: Config, a: State, b: State, d: State, labels: seq<Label>)
    requires Leads(c, a, b) && Exec(c, b, labels) == At(d)
    ensures Leads(c, a, d)
    decreases |labels|
  {
    if labels != [] {
      var init := labels[..|labels| - 1];
      var s := Exec(c, b, init).state;
      LeadsTransFrom(c, a, b, s, init);
      LeadsStep(c, a, s, labels[|labels| - 1]);
    }
  }
}
