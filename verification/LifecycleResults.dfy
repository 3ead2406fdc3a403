/** What the callers of Wait and StopVMM get, said of the process, the cleanups and the
    labels of the run alone. */
module LifecycleResults {
  import opened CleanupStack
  import opened Lifecycle
  import opened LifecycleInvariant
  import opened LifecycleProgress

  // ---------- Wait ----------

  /** v combines how the process exited with what the cleanups of one pass returned: nil
      exactly when both are clean, and otherwise every error of either, in order. */
  ghost predicate Combines(v: GoError, exit: seq<Failure>, ran: seq<nat>, answers: seq<Answer>) {
    && |ran| == |answers|
    && (v.Nil? <==> exit == [] && forall k :: 0 <= k < |answers| ==> answers[k].Fine?)
    && (!v.Nil? ==>
          var at := Failing(answers);
          && v.Multi?
          && |v.failures| == |exit| + |at|
          && (forall k :: 0 <= k < |exit| ==> v.failures[k] == exit[k])
          && (forall k :: 0 <= k < |at| ==> v.failures[|exit| + k] == CleanupFailed(ran[at[k]], answers[at[k]].code)))
  }

  predicate WaitersPass(t: Stack) { t.once.Fired? && t.once.owner == ByWaiter }

  /** What Wait returns if the process was waited on: its exit, and the cleanups' errors if
      the waiter's doCleanup was the one that ran them. */
  ghost predicate IsExitOf(v: GoError, s: State) {
    && s.process.Reaped?
    && if WaitersPass(s.stack) then Combines(v, s.process.exit, s.stack.ran, s.stack.answers)
       else Combines(v, s.process.exit, [], [])
  }

  /** What any Wait has returned: the error of the launch, the time-out of the wait for the
      socket, or how the process and its cleanups ended, wrapped if that cut the wait short. */
  lemma {:induction false} WaitReturns(c: Config, s: State, i: nat)
    requires Reachable(c, s) && i < |s.callers| && s.callers[i].Got?
    ensures var v := s.callers[i].value;
            && (s.vmm.LaunchError? ==> s.process.Refused? && v == Single(s.process.failure))
            && (s.vmm.SocketError? ==>
                  if s.timedOut then v == Wrapped(Single(InitTimeout))
                  else v.Wrapped? && !v.cause.Nil? && IsExitOf(v.cause, s))
            && (s.vmm.Succeeded? ==> IsExitOf(v, s))
            && !s.vmm.Unfinished?
  {
    ReachableInv(c, s);
    WaitNeverEarly(c, s, i);
    if s.process.Reaped? {
      var passed := WaitersPass(s.stack);
      var ran, answers := if passed then s.stack.ran else [], if passed then s.stack.answers else [];
      SentCombines(s.process.exit, ran, answers);
      assert WaiterCleanupErrs(s) == NonNil(ran, answers);
    }
  }

  lemma {:induction false} SentCombines(exit: seq<Failure>, ran: seq<nat>, answers: seq<Answer>)
    requires |ran| == |answers|
    ensures Combines(ErrorOrNil(exit + NonNil(ran, answers)), exit, ran, answers)
  {
    var errs, at := NonNil(ran, answers), Failing(answers);
    NonNilListed(ran, answers);
    if at == [] {
      forall k | 0 <= k < |answers|
        ensures answers[k].Fine?
      {
        assert answers[k].Failed? ==> k in at;
      }
    } else {
      assert answers[at[0]].Failed?;
    }
    assert forall k :: 0 <= k < |errs| ==> (exit + errs)[|exit| + k] == errs[k];
  }

  /** A run that is not empty has a last step, from a reachable state. */
  lemma {:induction false} LastStep(c: Config, labels: seq<Label>, s: State) returns (before: seq<Label>, l: Label, s0: State)
    requires labels != [] && Exec(c, INIT, labels) == At(s)
    ensures labels == before + [l] && |before| < |labels|
    ensures Exec(c, INIT, before) == At(s0) && Inv(s0)
    ensures Enabled(s0, l) && Do(c, s0, l) == s
  {
    before, l := labels[..|labels| - 1], labels[|labels| - 1];
    s0 := Exec(c, INIT, before).state;
    assert Reachable(c, s0);
    ReachableInv(c, s0);
  }

  /** The labels show how the process was refused, or how it exited. */
  ghost predicate Shown(p: Process, labels: seq<Label>) {
    match p
    case Refused(failure) => exists code :: Start(LaunchFails(code)) in labels && failure == LaunchFailed(code)
    case Exited(exit) => ExitShown(exit, labels)
    case Reaped(exit) => ExitShown(exit, labels)
    case _ => true
  }

  ghost predicate ExitShown(exit: seq<Failure>, labels: seq<Label>) {
    || (exit == [] && exists n :: Side(ProcessExits(true, n)) in labels)
    || exists n :: Side(ProcessExits(false, n)) in labels && exit == [BadExit(n)]
  }

  /** Where the process's own part of a result comes from. */
  lemma {:induction false} ProcessShown(c: Config, labels: seq<Label>, s: State)
    requires Exec(c, INIT, labels) == At(s)
    ensures Shown(s.process, labels)
    decreases |labels|
  {
    if labels != [] {
      var before, l, s0 := LastStep(c, labels, s);
      ProcessShown(c, before, s0);
      ShownKept(c, s0, l, before);
    }
  }

  lemma {:induction false} ShownKept(c: Config, s: State, l: Label, labels: seq<Label>)
    requires Inv(s) && Enabled(s, l) && Shown(s.process, labels)
    ensures Shown(Do(c, s, l).process, labels + [l])
  {
    ProcessMoves(c, s, l);
    ShownMore(s.process, Do(c, s, l).process, labels, l);
  }

  lemma {:induction false} ShownMore(p: Process, q: Process, labels: seq<Label>, l: Label)
    requires Shown(p, labels)
    requires match l
             case Start(LaunchOk) => q == Running
             case Start(LaunchFails(code)) => q == Refused(LaunchFailed(code))
             case Wait(Reap) => p.Exited? && q == Reaped(p.exit)
             case Side(ProcessExits(clean, n)) => q == Exited(if clean then [] else [BadExit(n)])
             case _ => q == p
    ensures Shown(q, labels + [l])
  {
    assert l in labels + [l];
    if p.Exited? || p.Reaped? {
      assert ExitShown(p.exit, labels + [l]);
    }
  }

  /** The steps that change what the process is. */
  lemma {:induction false} ProcessMoves(c: Config, s: State, l: Label)
    requires Inv(s) && Enabled(s, l)
    ensures var t := Do(c, s, l);
            match l
            case Start(LaunchOk) => t.process == Running
            case Start(LaunchFails(code)) => t.process == Refused(LaunchFailed(code))
            case Wait(Reap) => s.process.Exited? && t.process == Reaped(s.process.exit)
            case Side(ProcessExits(clean, n)) => t.process == Exited(if clean then [] else [BadExit(n)])
            case _ => t.process == s.process
  {
    match l
    case Start(m) =>
      if m.Proceed? {
        ProceedMoves(c, s);
      }
    case Clean(owner, m) => assert DoClean(s, owner, m).process == s.process;
    case Wait(m) => WaitMoves(c, s, m);
    case Publish(m) => assert DoPublish(s, m).process == s.process;
    case Side(m) => SideMoves(s, m);
  }

  lemma {:induction false} WaitMoves(c: Config, s: State, m: WaitMove)
    requires CanWait(s, m)
    ensures DoWait(c, s, m).process == if m.Reap? then Reaped(s.process.exit) else s.process
  {
  }

  // ---------- callers, one by one ----------

  /** What the labels must show for a caller, a stopper or the watcher to be where it is. */
  predicate Accounted(s: State, labels: seq<Label>, i: nat) {
    && (i < |s.callers| && s.callers[i].Cancelled? ==> Side(CallerCancelled(i)) in labels)
    && (i < |s.stoppers| && s.stoppers[i].AwaitCleanup? ==> Side(StopperSignals(i, true)) in labels)
    && (i < |s.stoppers| && s.stoppers[i].Stopped? ==>
          if !s.stoppers[i].started then s.stoppers[i].ok
          else Side(StopperSignals(i, s.stoppers[i].ok)) in labels)
  }

  /** StopVMM gives up only if its signal fails, waits for the cleanup only once it has
      signalled, and answers nil without either only if it saw no process. Wait gives up
      only if its own context ends. */
  lemma {:induction false} CallersAccounted(c: Config, labels: seq<Label>, s: State, i: nat)
    requires Exec(c, INIT, labels) == At(s)
    ensures Accounted(s, labels, i)
    decreases |labels|
  {
    if labels != [] {
      var before, l, s0 := LastStep(c, labels, s);
      CallersAccounted(c, before, s0, i);
      AccountedKept(c, s0, l, i, before);
    }
  }

  lemma {:induction false} AccountedKept(c: Config, s: State, l: Label, i: nat, labels: seq<Label>)
    requires Inv(s) && Enabled(s, l) && Accounted(s, labels, i)
    ensures Accounted(Do(c, s, l), labels + [l], i)
  {
    if l.Side? {
      CallerMoves(s, l.side, i, labels);
    } else {
      StepKeepsCore(c, s, l);
    }
  }

  lemma {:induction false} CallerMoves(s: State, m: SideMove, i: nat, labels: seq<Label>)
    requires CanSide(s, m) && Accounted(s, labels, i)
    ensures Accounted(DoSide(s, m), labels + [Side(m)], i)
  {
    assert Side(m) in labels + [Side(m)];
  }

  /** StopVMM called once there is a process: it does not miss it, and it does not return
      nil before the cleanups are over. */
  lemma {:induction false} StopWaits(c: Config, s: State, t: State, i: nat)
    requires Reachable(c, s) && Leads(c, s, t)
    requires s.process.Running? || s.process.Exited? || s.process.Reaped?
    requires i < |s.stoppers| ==> s.stoppers[i].StopCheck?
    requires i < |t.stoppers| && t.stoppers[i].Stopped?
    ensures t.stoppers[i].started
    ensures t.stoppers[i].ok ==> t.cleanupClosed && t.process.Reaped? && t.stack.once.Fired?
  {
    var labels :| Exec(c, s, labels) == At(t);
    ReachableInv(c, s);
    NoneMissed(c, s, labels, t, i);
    LeadsTrans(c, INIT, s, t);
    if t.stoppers[i].ok {
      StopMeansCleaned(c, t, i);
    }
  }

  predicate Missed(s: State, i: nat) { i < |s.stoppers| && s.stoppers[i].Stopped? && !s.stoppers[i].started }

  lemma {:induction false} NoneMissed(c: Config, s: State, labels: seq<Label>, t: State, i: nat)
    requires Inv(s) && ProcessSet(s) && !Missed(s, i) && Exec(c, s, labels) == At(t)
    ensures Inv(t) && ProcessSet(t) && !Missed(t, i)
    decreases |labels|
  {
    if labels != [] {
      var l := labels[|labels| - 1];
      var s0 := Exec(c, s, labels[..|labels| - 1]).state;
      NoneMissed(c, s, labels[..|labels| - 1], s0, i);
      StepKeeps(c, s0, l);
      if l.Side? {
        MissedMoves(s0, l.side, i);
      } else {
        StepKeepsCore(c, s0, l);
      }
    }
  }

  lemma {:induction false} MissedMoves(s: State, m: SideMove, i: nat)
    requires CanSide(s, m) && ProcessSet(s) && !Missed(s, i)
    ensures !Missed(DoSide(s, m), i)
  {
  }

  /** Both are served. Once exitCh is closed every Wait can return fatalErr; */
  lemma {:induction false} WaitServed(c: Config, s: State, i: nat)
    requires !s.panicked && s.exitClosed && i < |s.callers| && s.callers[i].Selecting?
    ensures exists t :: Leads(c, s, t) && t.callers == s.callers[i := Got(s.fatalErr)]
  {
    LeadsRefl(c, s);
    LeadsStep(c, s, s, Side(CallerWakes(i)));
    var s1 := s.(callers := s.callers[i := Woken]);
    LeadsStep(c, s, s1, Side(CallerReads(i)));
    assert Do(c, s1, Side(CallerReads(i))) == s1.(callers := s.callers[i := Got(s.fatalErr)]);
  }

  /** a StopVMM that finds a process can signal it and wait; */
  lemma {:induction false} StopSignals(c: Config, s: State, i: nat)
    requires !s.panicked && i < |s.stoppers| && s.stoppers[i].StopCheck?
    requires s.process.Running? || s.process.Exited? || s.process.Reaped?
    ensures exists t :: Leads(c, s, t) && t.stoppers == s.stoppers[i := AwaitCleanup]
  {
    LeadsRefl(c, s);
    LeadsStep(c, s, s, Side(StopperChecks(i)));
    var s1 := s.(stoppers := s.stoppers[i := Signalling]);
    LeadsStep(c, s, s1, Side(StopperSignals(i, true)));
    assert Do(c, s1, Side(StopperSignals(i, true))) == s1.(stoppers := s.stoppers[i := AwaitCleanup]);
  }

  /** and once cleanupCh is closed it can return nil. */
  lemma {:induction false} StopServed(c: Config, s: State, i: nat)
    requires !s.panicked && s.cleanupClosed && i < |s.stoppers| && s.stoppers[i].AwaitCleanup?
    ensures exists t :: Leads(c, s, t) && t.stoppers == s.stoppers[i := Stopped(true, true)]
  {
    LeadsRefl(c, s);
    LeadsStep(c, s, s, Side(StopperSeesCleanup(i)));
    assert Do(c, s, Side(StopperSeesCleanup(i))) == s.(stoppers := s.stoppers[i := Stopped(true, true)]);
  }

  // ---------- the watcher of Start's context ----------

  predicate WatcherShown(s: State, labels: seq<Label>) {
    && (s.watcher.StopSignal? ==> Side(SeeContextDone) in labels)
    && (s.watcher.StopAwait? ==> Side(WatcherSignals(true)) in labels)
    && (s.watcher.WatcherDone? ==> s.exitClosed || s.cleanupClosed || Side(WatcherSignals(false)) in labels)
  }

  /** It stops the VM only if the context ended, and it is done only when the VM exited, or
      the cleanups are over, or its signal failed. */
  lemma {:induction false} WatcherAccounted(c: Config, labels: seq<Label>, s: State)
    requires Exec(c, INIT, labels) == At(s)
    ensures WatcherShown(s, labels)
    decreases |labels|
  {
    if labels != [] {
      var before, l, s0 := LastStep(c, labels, s);
      WatcherAccounted(c, before, s0);
      WatcherShownKept(c, s0, l, before);
    }
  }

  lemma {:induction false} WatcherShownKept(c: Config, s: State, l: Label, labels: seq<Label>)
    requires Inv(s) && Enabled(s, l) && WatcherShown(s, labels)
    ensures WatcherShown(Do(c, s, l), labels + [l])
  {
    StepKeeps(c, s, l);
    WatcherMoves(c, s, l);
    WatcherShownMore(s, Do(c, s, l), labels, l);
  }

  /** What a step makes of the watcher. */
  predicate WatcherAfter(s: State, l: Label, w: Watcher) {
    match l
    case Side(SeeContextDone) => w == StopSignal
    case Side(WatcherSignals(ok)) => w == if ok then StopAwait else WatcherDone
    case Side(WatcherSeesExit) => w == WatcherDone && s.exitClosed
    case Side(WatcherSeesCleanup) => w == WatcherDone && s.cleanupClosed
    case _ => w == s.watcher || w == SelectDone
  }

  lemma {:induction false} WatcherShownMore(s: State, t: State, labels: seq<Label>, l: Label)
    requires WatcherShown(s, labels) && WatcherAfter(s, l, t.watcher)
    requires (s.exitClosed ==> t.exitClosed) && (s.cleanupClosed ==> t.cleanupClosed)
    ensures WatcherShown(t, labels + [l])
  {
    assert l in labels + [l];
  }

  lemma {:induction false} WatcherMoves(c: Config, s: State, l: Label)
    requires Inv(s) && Enabled(s, l)
    ensures WatcherAfter(s, l, Do(c, s, l).watcher)
  {
    match l
    case Start(m) => StartWatch(c, s, m);
    case Clean(owner, m) => assert DoClean(s, owner, m).watcher == s.watcher;
    case Wait(m) => assert DoWait(c, s, m).watcher == s.watcher;
    case Publish(m) => PublishMoves(s, m);
    case Side(m) => SideWatch(s, m);
  }

  lemma {:induction false} StartWatch(c: Config, s: State, m: StartMove)
    requires CanStart(s, m)
    ensures var t := DoStart(c, s, m).watcher; t == s.watcher || t == SelectDone
  {
    if m.Proceed? {
      match s.starter
      case SpawnWatcher =>
      case _ => ProceedMoves(c, s);
    }
  }

  lemma {:induction false} SideWatch(s: State, m: SideMove)
    requires CanSide(s, m)
    ensures DoSide(s, m).watcher == match m
                                    case SeeContextDone => StopSignal
                                    case WatcherSignals(ok) => if ok then StopAwait else WatcherDone
                                    case WatcherSeesExit => WatcherDone
                                    case WatcherSeesCleanup => WatcherDone
                                    case _ => s.watcher
  {
  }

  // ---------- the daemonized jailer ----------

  /** The waiter has not gone past waiting for Shutdown. */
  predicate HeldBack(s: State) {
    && (s.waiter == CheckDaemonize([]) || s.waiter == AwaitShutdown([]))
    && !s.errClosed && !s.cleanupClosed && s.sent == []
  }

  /** A daemonized jailer parent that exits cleanly holds everything back until Shutdown is
      called: no cleanup by the waiter, no result, no closed channel. Nothing else is ever
      held back for it. */
  lemma {:induction false} DaemonWaits(c: Config, labels: seq<Label>, s: State)
    requires Exec(c, INIT, labels) == At(s)
    ensures c.daemonized && s.process == Reaped([]) && s.shutdowns == 0 ==> HeldBack(s) && !WaitersPass(s.stack)
    ensures s.waiter.AwaitShutdown? ==> c.daemonized && s.process == Reaped([])
    decreases |labels|
  {
    if labels != [] {
      var before, l, s0 := LastStep(c, labels, s);
      DaemonWaits(c, before, s0);
      assert Reachable(c, s);
      ReachableInv(c, s);
      ProcessMoves(c, s0, l);
      HeldBackKept(c, s0, l);
      AwaitShutdownKept(c, s0, l);
    }
  }

  lemma {:induction false} HeldBackKept(c: Config, s: State, l: Label)
    requires Inv(s) && Enabled(s, l)
    ensures var t := Do(c, s, l);
            && s.shutdowns <= t.shutdowns
            && (s.process.Exited? && t.process.Reaped? ==> t.waiter == CheckDaemonize(s.process.exit))
            && (c.daemonized && t.shutdowns == 0 && (s.waiter == CheckDaemonize([]) || s.waiter == AwaitShutdown([])) ==>
                  t.waiter == CheckDaemonize([]) || t.waiter == AwaitShutdown([]))
  {
    match l
    case Start(m) =>
      StartLeavesRest(c, s, m);
      StartCounts(c, s, m);
    case Clean(owner, m) => assert DoClean(s, owner, m).shutdowns == s.shutdowns;
    case Wait(m) => WaitCounts(c, s, m);
    case Publish(m) =>
      PublishRanks(s, m);
      assert DoPublish(s, m).shutdowns == s.shutdowns;
    case Side(m) =>
      SideRanks(s, m);
      SideCounts(s, m);
  }

  lemma {:induction false} StartCounts(c: Config, s: State, m: StartMove)
    requires CanStart(s, m)
    ensures DoStart(c, s, m).shutdowns == s.shutdowns
  {
    if m.Proceed? {
      ProceedCounts(c, s);
    }
  }

  lemma {:induction false} ProceedCounts(c: Config, s: State)
    requires CanProceed(s.starter)
    ensures DoProceed(c, s).shutdowns == s.shutdowns
  {
    match s.starter
    case CloseAfterLaunchError => assert CloseExit(s).shutdowns == s.shutdowns;
    case CloseAfterSocketError => assert CloseExit(s).shutdowns == s.shutdowns;
    case _ =>
  }

  lemma {:induction false} SideCounts(s: State, m: SideMove)
    requires CanSide(s, m)
    ensures DoSide(s, m).shutdowns == s.shutdowns + if m.Shutdown? then 1 else 0
  {
    match m
    case Shutdown => assert DoSide(s, m) == CloseShutdown(s).(shutdowns := s.shutdowns + 1);
    case ProcessExits(clean, n) => assert DoSide(s, m) == s.(process := DoSide(s, m).process);
    case _ => SideIsQuiet(s, m);
  }

  lemma {:induction false} WaitCounts(c: Config, s: State, m: WaitMove)
    requires CanWait(s, m)
    ensures var t := DoWait(c, s, m);
            && t.shutdowns == s.shutdowns
            && (m.Reap? ==> t.waiter == CheckDaemonize(s.process.exit))
            && (m.CheckIt? && c.daemonized && s.waiter.exit == [] ==> t.waiter == AwaitShutdown([]))
  {
    match m
    case CloseNext => assert CloseErr(s).shutdowns == s.shutdowns && CloseCleanup(s).shutdowns == s.shutdowns;
    case _ =>
  }
}
