/** When the lifecycle comes to rest: which states can still close cleanupCh, and
    that fair runs close every channel once the process is gone. */
module LifecycleProgress {
  import opened CleanupStack
  import opened Lifecycle
  import opened LifecycleInvariant

  // ---------- a lexicographic rank ----------

  datatype Rank = Rank(a: nat, b: nat, c: nat, d: nat, e: nat)

  predicate Less(x: Rank, y: Rank) {
    || x.a < y.a
    || (x.a == y.a && x.b < y.b)
    || (x.a == y.a && x.b == y.b && x.c < y.c)
    || (x.a == y.a && x.b == y.b && x.c == y.c && x.d < y.d)
    || (x.a == y.a && x.b == y.b && x.c == y.c && x.d == y.d && x.e < y.e)
  }

  function WaiterPhase(w: Waiter): nat {
    match w
    case WaiterUnborn => 9
    case WaitProcess => 8
    case CheckDaemonize(_) => 7
    case AwaitShutdown(_) => 6
    case EnterCleanup(_) => 5
    case InCleanup(_) => 4
    case SendResult(_) => 3
    case CloseErrCh => 2
    case CloseCleanupCh => 1
    case WaiterDone => 0
  }

  function StarterPhase(p: Starter): nat {
    match p
    case RegisterSocket => 6
    case SpawnWaiter => 5
    case SetupSignals => 4
    case AwaitSocket => 3
    case SpawnWatcher => 2
    case SpawnPublisher => 1
    case _ => 0
  }

  function OncePhase(o: Once): nat {
    match o
    case Unfired => 2
    case Firing(_, _, _) => 1
    case Fired(_, _) => 0
  }

  function Remaining(o: Once): nat {
    if o.Firing? && o.next < o.total then o.total - o.next else 0
  }

  function PublisherPhase(p: Publisher): nat {
    match p
    case PublisherUnborn => 4
    case Receive => 3
    case StoreFatal(_) => 2
    case CloseExitCh => 1
    case PublisherDone => 0
  }

  // ---------- what can still close cleanupCh ----------

  /** The process was started, waitForSocket has not timed out, cleanupCh is open. */
  ghost predicate Closable(s: State) {
    && Inv(s)
    && !s.panicked
    && ProcessSet(s)
    && !s.timedOut
    && !s.cleanupClosed
  }

  function OneMoreCleanup(s: State, owner: Owner): Label {
    if MoreToCall(s.stack) then Clean(owner, CallOne(Fine)) else Clean(owner, LeaveOnce)
  }

  /** A step towards closing cleanupCh. */
  function Push(s: State): Label {
    match s.waiter
    case WaiterUnborn => Start(Proceed)
    case WaitProcess => if s.process.Running? then Side(ProcessExits(true, 0)) else Wait(Reap)
    case CheckDaemonize(_) => Wait(CheckIt)
    case AwaitShutdown(_) => if s.shutdownClosed then Wait(SeeShutdown) else Side(Shutdown)
    case EnterCleanup(_) =>
      if s.stack.once.Firing? then OneMoreCleanup(s, ByStarter) else Clean(ByWaiter, EnterOnce)
    case InCleanup(_) => OneMoreCleanup(s, ByWaiter)
    case SendResult(_) =>
      if s.starter.AwaitSocket? then Wait(HandToStarter)
      else if s.publisher.Receive? then Wait(HandToPublisher)
      else Start(Proceed)
    case _ => Wait(CloseNext)
  }

  function CloseRank(s: State): Rank {
    Rank(WaiterPhase(s.waiter), StarterPhase(s.starter),
         (if s.process.Running? then 1 else 0) + (if s.shutdownClosed then 0 else 1),
         OncePhase(s.stack.once), Remaining(s.stack.once))
  }

  lemma {:induction false} PushEnabled(s: State)
    requires Closable(s)
    ensures Enabled(s, Push(s))
    ensures Push(s) == Side(Shutdown) ==> s.shutdowns == 0
  {
  }

  lemma {:induction false} PushDescends(c: Config, s: State)
    requires Closable(s) && Enabled(s, Push(s)) && (Push(s) == Side(Shutdown) ==> s.shutdowns == 0)
    ensures var t := Do(c, s, Push(s));
            !t.timedOut && t.shutdowns <= (if s.shutdownClosed then s.shutdowns else 1) && Less(CloseRank(t), CloseRank(s))
  {
    match Push(s)
    case Start(m) => PushStart(c, s);
    case Clean(owner, m) =>
      if m.CallOne? {
        CallDescends(s, owner, m.answer);
      } else if owner.ByStarter? {
        StarterEdge(s, m);
      } else {
        WaiterEdge(s, m);
      }
    case Wait(m) => PushWait(c, s, m);
    case Publish(m) =>
    case Side(m) =>
  }

  lemma {:induction false} PushStart(c: Config, s: State)
    requires Closable(s) && Push(s) == Start(Proceed) && CanProceed(s.starter)
    ensures var t := DoProceed(c, s);
            SameHistory(s, t) && Less(CloseRank(t), CloseRank(s))
  {
  }

  predicate SameHistory(s: State, t: State) { t.timedOut == s.timedOut && t.shutdowns == s.shutdowns }

  lemma {:induction false} CallDescends(s: State, owner: Owner, answer: Answer)
    requires LogInv(s.stack) && CanClean(s, owner, CallOne(answer))
    ensures var t := DoClean(s, owner, CallOne(answer));
            && SameHistory(s, t)
            && t.waiter == s.waiter && t.starter == s.starter && t.publisher == s.publisher
            && OncePhase(t.stack.once) == OncePhase(s.stack.once)
            && Remaining(t.stack.once) < Remaining(s.stack.once)
  {
    CallKeeps(s.stack, answer);
    assert DoClean(s, owner, CallOne(answer)) == s.(stack := Call(s.stack, answer));
  }

  /** Start enters or leaves the once: only the once and Start's own counter move. */
  lemma {:induction false} StarterEdge(s: State, m: CleanupMove)
    requires CanClean(s, ByStarter, m) && !m.CallOne?
    ensures var t := DoClean(s, ByStarter, m);
            && SameHistory(s, t)
            && t.waiter == s.waiter && t.publisher == s.publisher
            && StarterPhase(t.starter) == StarterPhase(s.starter)
            && (if m.EnterOnce? && s.stack.once.Fired? then t.stack == s.stack
                else OncePhase(t.stack.once) < OncePhase(s.stack.once))
  {
    match m
    case EnterOnce =>
      if s.stack.once.Fired? {
        assert DoClean(s, ByStarter, m) == s.(starter := Returned(true));
      } else {
        assert DoClean(s, ByStarter, m) == s.(starter := Unwinding, stack := Enter(s.stack, ByStarter));
      }
    case LeaveOnce =>
      assert DoClean(s, ByStarter, m) == s.(starter := Returned(true), stack := Leave(s.stack));
  }

  lemma {:induction false} WaiterEdge(s: State, m: CleanupMove)
    requires CanClean(s, ByWaiter, m) && !m.CallOne?
    ensures var t := DoClean(s, ByWaiter, m);
            && SameHistory(s, t)
            && WaiterPhase(t.waiter) < WaiterPhase(s.waiter)
            && !t.waiter.AwaitShutdown?
  {
  }

  lemma {:induction false} PushWait(c: Config, s: State, m: WaitMove)
    requires CanWait(s, m) && !m.SendOnClosed?
    ensures var t := DoWait(c, s, m);
            SameHistory(s, t) && WaiterPhase(t.waiter) < WaiterPhase(s.waiter)
  {
    match m
    case Reap => assert DoWait(c, s, m).waiter == CheckDaemonize(s.process.exit);
    case CheckIt =>
      if c.daemonized && s.waiter.exit == [] {
        assert DoWait(c, s, m).waiter == AwaitShutdown([]);
      } else {
        assert DoWait(c, s, m).waiter == EnterCleanup(s.waiter.exit);
      }
    case SeeShutdown => assert DoWait(c, s, m).waiter == EnterCleanup(s.waiter.exit);
    case HandToStarter => assert DoWait(c, s, m).waiter == CloseErrCh;
    case HandToPublisher => assert DoWait(c, s, m).waiter == CloseErrCh;
    case CloseNext =>
  }

  /** From every closable state some continuation closes cleanupCh. */
  lemma {:induction false} CanClose(c: Config, s: State)
    requires Closable(s) && s.shutdowns <= 1
    ensures exists t :: Leads(c, s, t) && t.cleanupClosed
    decreases CloseRank(s).a, CloseRank(s).b, CloseRank(s).c, CloseRank(s).d, CloseRank(s).e
  {
    var l := Push(s);
    PushEnabled(s);
    PushDescends(c, s);
    var u := Do(c, s, l);
    StepKeeps(c, s, l);
    LeadsRefl(c, s);
    LeadsStep(c, s, s, l);
    if !u.cleanupClosed {
      CanClose(c, u);
      var t :| Leads(c, u, t) && t.cleanupClosed;
      LeadsTrans(c, s, u, t);
    }
  }

  /** Once waitForSocket has timed out, no continuation closes cleanupCh: the waiter
      has nobody left to take its result, and every StopVMM waits for ever. */
  lemma {:induction false} TimedOutNeverCloses(c: Config, s: State, t: State)
    requires Reachable(c, s) && s.timedOut && Leads(c, s, t)
    ensures t.timedOut && !t.errClosed && !t.cleanupClosed
  {
    ReachableInv(c, s);
    var labels :| Exec(c, s, labels) == At(t);
    ExecKeeps(c, s, labels);
  }

  /** Among runs whose process started, the states from which cleanupCh can still be
      closed are exactly those in which waitForSocket has not timed out. */
  lemma {:induction false} CleanupClosableIffNotTimedOut(c: Config, s: State)
    requires Reachable(c, s) && ProcessSet(s) && !s.panicked
    ensures (exists t :: Leads(c, s, t) && t.cleanupClosed) <==> !s.timedOut
  {
    ReachableInv(c, s);
    if s.timedOut {
      forall t | Leads(c, s, t)
        ensures !t.cleanupClosed
      {
        TimedOutNeverCloses(c, s, t);
      }
    } else if s.cleanupClosed {
      LeadsRefl(c, s);
    } else {
      CanClose(c, s);
    }
  }

  // ---------- fair runs come to rest ----------

  /** An infinite run: a state and a label for every instant. */
  ghost predicate Behavior(c: Config, states: nat -> State, labels: nat -> Label) {
    && states(0) == INIT
    && forall i: nat :: StepAt(c, states, labels, i)
  }

  ghost predicate StepAt(c: Config, states: nat -> State, labels: nat -> Label, i: nat) {
    Enabled(states(i), labels(i)) && states(i + 1) == Do(c, states(i), labels(i))
  }

  datatype Goroutine = StarterG | WaiterG | PublisherG

  /** A hand-over on errCh is a step of both ends. */
  predicate Acts(g: Goroutine, l: Label) {
    match g
    case StarterG => l.Start? || (l.Clean? && l.owner.ByStarter?) || l == Wait(HandToStarter)
    case WaiterG => l.Wait? || (l.Clean? && l.owner.ByWaiter?)
    case PublisherG => l.Publish? || l == Wait(HandToPublisher)
  }

  ghost predicate CanAct(g: Goroutine, s: State) {
    exists l :: Acts(g, l) && Enabled(s, l)
  }

  /** Weak fairness: a goroutine that stays able to move eventually moves. */
  ghost predicate Fair(g: Goroutine, states: nat -> State, labels: nat -> Label) {
    forall i: nat :: ServedFrom(g, states, labels, i)
  }

  /** At some instant from i on, g moves or is unable to. */
  ghost predicate ServedFrom(g: Goroutine, states: nat -> State, labels: nat -> Label, i: nat) {
    exists j: nat :: i <= j && Served(g, states(j), labels(j))
  }

  ghost predicate Served(g: Goroutine, s: State, l: Label) {
    Acts(g, l) || !CanAct(g, s)
  }

  ghost predicate AllFair(states: nat -> State, labels: nat -> Label) {
    Fair(StarterG, states, labels) && Fair(WaiterG, states, labels) && Fair(PublisherG, states, labels)
  }

  /** A daemonized jailer parent that exits cleanly is not the VM exiting; the waiter
      then stays until Shutdown is called. */
  predicate MayFinish(c: Config, s: State)
    requires ProcessGone(s)
  {
    c.daemonized && s.process.exit == [] ==> s.shutdownClosed
  }

  /** startVMM has returned nil and the process is gone for good. */
  ghost predicate Finishing(c: Config, s: State) {
    && Inv(s)
    && s.vmm.Succeeded?
    && ProcessGone(s)
    && MayFinish(c, s)
    && (s.waiter.AwaitShutdown? ==> s.shutdownClosed)
  }

  predicate AllClosed(s: State) { s.errClosed && s.cleanupClosed && s.exitClosed }

  function RestRank(s: State): Rank {
    Rank(WaiterPhase(s.waiter), OncePhase(s.stack.once), Remaining(s.stack.once), PublisherPhase(s.publisher), 0)
  }

  /** The goroutine whose move everything else waits for. */
  function Helpful(s: State): Goroutine {
    if s.waiter.WaiterDone? then PublisherG
    else if s.waiter.EnterCleanup? && s.stack.once.Firing? then StarterG
    else WaiterG
  }

  function HelpfulLabel(s: State): Label {
    if s.waiter.WaiterDone? then
      Publish(if s.publisher.Receive? then ReceiveClosed else if s.publisher.StoreFatal? then StoreIt else CloseIt)
    else Push(s)
  }

  lemma {:induction false} HelpfulCanAct(c: Config, s: State)
    requires Finishing(c, s) && !s.panicked && !AllClosed(s)
    ensures CanAct(Helpful(s), s)
  {
    assert Acts(Helpful(s), HelpfulLabel(s)) && Enabled(s, HelpfulLabel(s));
  }

  lemma {:induction false} FinishingKept(c: Config, s: State, l: Label)
    requires Finishing(c, s) && Enabled(s, l)
    ensures Finishing(c, Do(c, s, l))
  {
    StepKeeps(c, s, l);
    AwaitShutdownKept(c, s, l);
  }

  /** A waiter that awaits Shutdown is a daemonized one whose process exited cleanly. */
  predicate DaemonInv(c: Config, s: State) {
    s.waiter.AwaitShutdown? ==> c.daemonized && s.waiter.exit == []
  }

  lemma {:induction false} AwaitShutdownKept(c: Config, s: State, l: Label)
    requires LogInv(s.stack) && Enabled(s, l)
    ensures var t := Do(c, s, l);
            t.waiter.AwaitShutdown? ==> t.waiter == s.waiter || (c.daemonized && t.waiter.exit == [])
  {
    match l
    case Start(m) => StartLeavesRest(c, s, m);
    case Clean(owner, m) =>
      if m.CallOne? {
        CallDescends(s, owner, m.answer);
      } else if owner.ByStarter? {
        StarterEdge(s, m);
      } else {
        WaiterEdge(s, m);
      }
    case Wait(m) =>
      if !m.CheckIt? {
        PushAway(c, s, m);
      }
    case Publish(m) => PublishRanks(s, m);
    case Side(m) => SideRanks(s, m);
  }

  lemma {:induction false} PushAway(c: Config, s: State, m: WaitMove)
    requires CanWait(s, m) && !m.CheckIt?
    ensures DoWait(c, s, m).waiter.AwaitShutdown? ==> DoWait(c, s, m).waiter == s.waiter
  {
  }

  /** What Start's own steps can do to the rest. */
  predicate StartLeaves(s: State, t: State) {
    && (t.waiter == s.waiter || (s.starter.SpawnWaiter? && t.waiter == WaitProcess))
    && (t.publisher == s.publisher || s.starter.SpawnPublisher?)
    && t.stack.once == s.stack.once
  }

  lemma {:induction false} ProceedLeaves(c: Config, s: State)
    requires CanProceed(s.starter)
    ensures StartLeaves(s, DoProceed(c, s))
  {
    match s.starter
    case RegisterSocket =>
    case SpawnWaiter =>
    case SpawnPublisher =>
    case _ =>
  }

  lemma {:induction false} StartLeavesRest(c: Config, s: State, m: StartMove)
    requires CanStart(s, m)
    ensures StartLeaves(s, DoStart(c, s, m))
  {
    match m
    case Proceed => ProceedLeaves(c, s);
    case Handler(adds) => assert DoStart(c, s, m) == s.(stack := Register(s.stack, adds));
    case _ => assert DoStart(c, s, m).waiter == s.waiter && DoStart(c, s, m).stack == s.stack;
  }

  /** While finishing, every step either brings rest nearer or leaves both the rank
      and the helpful goroutine alone; the helpful goroutine's own steps bring it nearer. */
  lemma {:induction false} StepRanks(c: Config, s: State, l: Label)
    requires Finishing(c, s) && Enabled(s, l)
    ensures var t := Do(c, s, l);
            || Less(RestRank(t), RestRank(s))
            || (RestRank(t) == RestRank(s) && Helpful(t) == Helpful(s) && (!AllClosed(s) ==> !Acts(Helpful(s), l)))
  {
    match l
    case Start(m) =>
      StartLeavesRest(c, s, m);
    case Clean(owner, m) =>
      if m.CallOne? {
        CallDescends(s, owner, m.answer);
      } else if owner.ByStarter? {
        StarterEdge(s, m);
      } else {
        WaiterEdge(s, m);
      }
    case Wait(m) => PushWait(c, s, m);
    case Publish(m) => PublishRanks(s, m);
    case Side(m) => SideRanks(s, m);
  }

  lemma {:induction false} PublishRanks(s: State, m: PublishMove)
    requires CanPublish(s, m)
    ensures var t := DoPublish(s, m);
            t.waiter == s.waiter && t.stack == s.stack && PublisherPhase(t.publisher) < PublisherPhase(s.publisher)
  {
    match m
    case ReceiveClosed => assert DoPublish(s, m) == s.(publisher := StoreFatal(Nil));
    case StoreIt => assert DoPublish(s, m).publisher == CloseExitCh;
    case CloseIt => assert DoPublish(s, m).publisher == PublisherDone;
  }

  lemma {:induction false} SideRanks(s: State, m: SideMove)
    requires CanSide(s, m)
    ensures var t := DoSide(s, m);
            t.waiter == s.waiter && t.stack == s.stack && t.publisher == s.publisher
  {
    if Environment(m) {
      EnvironmentLeaves(s, m);
    } else {
      SideIsQuiet(s, m);
    }
  }

  lemma {:induction false} EnvironmentLeaves(s: State, m: SideMove)
    requires CanSide(s, m) && Environment(m)
    ensures var t := DoSide(s, m);
            t.waiter == s.waiter && t.stack == s.stack && t.publisher == s.publisher
  {
  }

  /** If the helpful goroutine acts at instant j, or cannot, the rank has fallen by then. */
  lemma {:induction false} RankFalls(c: Config, states: nat -> State, labels: nat -> Label, i: nat, j: nat)
    requires Behavior(c, states, labels) && i <= j
    requires Finishing(c, states(i)) && !AllClosed(states(i))
    requires Served(Helpful(states(i)), states(j), labels(j))
    ensures exists k: nat :: i < k && Finishing(c, states(k)) && Less(RestRank(states(k)), RestRank(states(i)))
    decreases j - i
  {
    assert StepAt(c, states, labels, i);
    FinishingKept(c, states(i), labels(i));
    StepRanks(c, states(i), labels(i));
    if !Less(RestRank(states(i + 1)), RestRank(states(i))) {
      HelpfulCanAct(c, states(i));
      RestIsRank(c, states(i), states(i + 1));
      RankFalls(c, states, labels, i + 1, j);
    }
  }

  /** Whether everything is closed can be read off the rank. */
  lemma {:induction false} RestIsRank(c: Config, s: State, t: State)
    requires Finishing(c, s) && Finishing(c, t) && RestRank(s) == RestRank(t)
    ensures AllClosed(s) <==> AllClosed(t)
  {
  }

  lemma {:induction false} FinishingRests(c: Config, states: nat -> State, labels: nat -> Label, i: nat)
    requires Behavior(c, states, labels) && AllFair(states, labels)
    requires Finishing(c, states(i))
    ensures exists k: nat :: i <= k && AllClosed(states(k))
    decreases RestRank(states(i)).a, RestRank(states(i)).b, RestRank(states(i)).c, RestRank(states(i)).d
  {
    if !AllClosed(states(i)) {
      var g := Helpful(states(i));
      assert Fair(g, states, labels) && ServedFrom(g, states, labels, i);
      var j: nat :| i <= j && Served(g, states(j), labels(j));
      RankFalls(c, states, labels, i, j);
      var k: nat :| i < k && Finishing(c, states(k)) && Less(RestRank(states(k)), RestRank(states(i)));
      FinishingRests(c, states, labels, k);
    }
  }

  lemma {:induction false} BehaviorReaches(c: Config, states: nat -> State, labels: nat -> Label, i: nat)
    requires Behavior(c, states, labels)
    ensures Reachable(c, states(i)) && DaemonInv(c, states(i))
    decreases i
  {
    if i == 0 {
      LeadsRefl(c, INIT);
    } else {
      BehaviorReaches(c, states, labels, i - 1);
      assert StepAt(c, states, labels, i - 1);
      LeadsStep(c, INIT, states(i - 1), labels(i - 1));
      ReachableInv(c, states(i - 1));
      AwaitShutdownKept(c, states(i - 1), labels(i - 1));
    }
  }

  /** Bounded shutdown: in every fair run in which startVMM has returned nil and the
      process has exited (and Shutdown was called, if the exit was a daemonized
      jailer's clean one), errCh, cleanupCh and exitCh are all closed in the end. */
  lemma {:induction false} ShutdownCompletes(c: Config, states: nat -> State, labels: nat -> Label, i: nat)
    requires Behavior(c, states, labels) && AllFair(states, labels)
    requires states(i).vmm.Succeeded? && ProcessGone(states(i)) && MayFinish(c, states(i))
    ensures exists k: nat :: i <= k && AllClosed(states(k))
  {
    BehaviorReaches(c, states, labels, i);
    ReachableInv(c, states(i));
    FinishingRests(c, states, labels, i);
  }
}
