/** Start's pipeline: the handlers run in order up to the first failure, then the start
    action, as a trace of handler runs and API calls. */
module Pipeline {
  import opened Text
  import opened HandlerLists

  datatype ApiCall =
    | GetMachineConfig | PutLogger | PutMetrics | PutMachineConfig | PutBootSource | PutDrive(drive: nat)
    | PutNetworkInterface(iface: nat) | PutVsock(vsock: nat) | PutMmdsConfig | PutMmds | PutBalloon
    | PutSnapshotLoad | InstanceStart | Other(text: string)

  datatype Event = Ran(handler: Handler, ok: bool) | Call(api: ApiCall)

  /** What one run of a handler does: the calls it makes and whether it succeeds. */
  datatype Effect = Effect(calls: seq<ApiCall>, ok: bool)

  datatype Config = Config(
    disableValidation: bool, memFile: string, memBackend: Option<string>, snapshotFile: string,
    logging: bool, metrics: bool, drives: nat, ifaces: nat, vsocks: nat, mmds: bool)
  {
    /** GetMemBackendPath: a memory backend's path, even an empty one, overrides the memory file. */
    function MemBackendPath(): string { if memBackend.Some? then memBackend.value else memFile }

    /** Whether a snapshot is configured, judged by its paths and not by the handler list. */
    predicate HasSnapshot() { MemBackendPath() != "" || snapshotFile != "" }
  }

  /** One Start: the effect of the i-th handler run, and whether the start action is accepted. */
  datatype Script = Script(effects: nat -> Effect, accepted: bool)

  // ---------- what the handlers of this package do ----------

  function Numbered(n: nat, f: nat -> ApiCall): seq<ApiCall> { seq(n, f) }

  /** The calls a handler makes when nothing fails; None for the handlers that poll or are the user's. */
  function FullCalls(name: Name, c: Config): Option<seq<ApiCall>> {
    match name
    case StartVMM => None
    case Custom(_) => None
    case BootstrapLogging =>
      Some((if c.logging then [PutLogger] else []) + (if c.metrics then [PutMetrics] else []))
    case CreateMachine => Some([PutMachineConfig, GetMachineConfig])
    case CreateBootSource => Some([PutBootSource])
    case AttachDrives => Some(Numbered(c.drives, (i: nat) => PutDrive(i)))
    case CreateNetworkInterfaces => Some(Numbered(c.ifaces, (i: nat) => PutNetworkInterface(i)))
    case AddVsocks => Some(Numbered(c.vsocks, (i: nat) => PutVsock(i)))
    case ConfigMmds => Some(if c.mmds then [PutMmdsConfig] else [])
    case SetMetadata => Some([PutMmds])
    case CreateBalloon => Some([PutBalloon])
    case LoadSnapshot => Some([PutSnapshotLoad])
    case _ => Some([])
  }

  /** The effects a handler can have: it stops at its first failing call. StartVMM polls
      the machine configuration until the socket answers; a user's handler may do
      anything but issue the start action itself. */
  ghost predicate Plausible(h: Handler, c: Config, e: Effect) {
    match FullCalls(h.name, c)
    case Some(full) => e.calls <= full && (e.ok ==> e.calls == full)
    case None =>
      if h.name == StartVMM then forall i :: 0 <= i < |e.calls| ==> e.calls[i] == GetMachineConfig
      else InstanceStart !in e.calls
  }

  // ---------- HandlerList.Run ----------

  function Calls(apis: seq<ApiCall>): (r: seq<Event>)
    ensures |r| == |apis| && forall i :: 0 <= i < |r| ==> r[i] == Call(apis[i])
  {
    seq(|apis|, i requires 0 <= i < |apis| => Call(apis[i]))
  }

  function EventsOf(h: Handler, e: Effect): seq<Event> { Calls(e.calls) + [Ran(h, e.ok)] }

  /** How many of the handlers run: all up to and including the first that fails. */
  function RunCount(l: seq<Handler>, effects: nat -> Effect, from: nat): (n: nat)
    requires from <= |l|
    ensures from <= n <= |l|
    decreases |l| - from
  {
    if from == |l| then from else if !effects(from).ok then from + 1 else RunCount(l, effects, from + 1)
  }

  lemma {:induction false} RunCountStops(l: seq<Handler>, effects: nat -> Effect, from: nat)
    requires from <= |l|
    ensures var n := RunCount(l, effects, from);
            && (forall i: nat :: from <= i < n - 1 ==> effects(i).ok)
            && (n < |l| ==> n > from && !effects(n - 1).ok)
    decreases |l| - from
  {
    if from < |l| && effects(from).ok {
      RunCountStops(l, effects, from + 1);
    }
  }

  function TraceOf(l: seq<Handler>, effects: nat -> Effect, n: nat): seq<Event>
    requires n <= |l|
  {
    if n == 0 then [] else TraceOf(l, effects, n - 1) + EventsOf(l[n - 1], effects(n - 1))
  }

  lemma {:induction false} TraceStep(t: seq<Event>, l: seq<Handler>, effects: nat -> Effect, n: nat)
    requires n < |l|
    ensures (t + TraceOf(l, effects, n)) + EventsOf(l[n], effects(n)) == t + TraceOf(l, effects, n + 1)
  {
  }

  predicate AllOk(effects: nat -> Effect, n: nat) {
    forall i: nat :: i < n ==> effects(i).ok
  }

  /** The handlers Start runs: the validations first, unless they are disabled. */
  function Flattened(c: Config, validation: seq<Handler>, fcInit: seq<Handler>): seq<Handler> {
    (if c.disableValidation then [] else validation) + fcInit
  }

  /** The whole trace of a first Start. */
  function StartTrace(c: Config, l: seq<Handler>, s: Script): seq<Event> {
    var n := RunCount(l, s.effects, 0);
    TraceOf(l, s.effects, n) + if AllOk(s.effects, n) && !c.HasSnapshot() then [Call(InstanceStart)] else []
  }

  /** The handlers that ran are those asked for, in order, up to the first failure: the
      validations and then FcInit, or FcInit alone if validation is disabled. After a failed
      validation no FcInit handler has run. */
  ghost predicate AsAsked(ran: seq<Handler>, disabled: bool, validation: seq<Handler>, fcInit: seq<Handler>,
                          effects: nat -> Effect) {
    && (if disabled then ran <= fcInit else ran <= validation + fcInit)
    && (forall i: nat :: i + 1 < |ran| ==> effects(i).ok)
    && (ran == (if disabled then fcInit else validation + fcInit) || (ran != [] && !effects(|ran| - 1).ok))
    && (!disabled ==> forall i: nat :: i < |validation| && !effects(i).ok && AllOk(effects, i) ==> ran == validation[..i + 1])
  }

  lemma {:induction false} StartAsAsked(c: Config, validation: seq<Handler>, fcInit: seq<Handler>, s: Script)
    ensures var ran := HandlersIn(StartTrace(c, Flattened(c, validation, fcInit), s));
            && AsAsked(ran, c.disableValidation, validation, fcInit, s.effects)
            && (AllOk(s.effects, |Flattened(c, validation, fcInit)|) ==>
                  ran == if c.disableValidation then fcInit else validation + fcInit)
  {
    var l := Flattened(c, validation, fcInit);
    var n := RunCount(l, s.effects, 0);
    assert l == if c.disableValidation then fcInit else validation + fcInit;
    HandlersOfStart(c, l, s);
    RunCountStops(l, s.effects, 0);
    assert n == |l| ==> l[..n] == l;
    if !c.disableValidation {
      forall i: nat | i < |validation| && !s.effects(i).ok && AllOk(s.effects, i)
        ensures l[..n] == validation[..i + 1]
      {
        assert n == i + 1;
        assert l[..i + 1] == validation[..i + 1];
      }
    }
  }

  datatype StartResult = AlreadyStarted | HandlerFailed(index: nat) | StartRefused | Started

  class Machine {
    const config: Config
    const validation: seq<Handler>
    const fcInit: seq<Handler>
    var started: bool
    var trace: seq<Event>

    constructor (config: Config, validation: seq<Handler>, fcInit: seq<Handler>)
      ensures this.config == config && this.validation == validation && this.fcInit == fcInit
      ensures !started && trace == []
    {
      this.config, this.validation, this.fcInit := config, validation, fcInit;
      started, trace := false, [];
    }

    /** HandlerList.Run. */
    method Run(l: seq<Handler>, effects: nat -> Effect) returns (failed: Option<nat>)
      modifies this`trace
      ensures trace == old(trace) + TraceOf(l, effects, RunCount(l, effects, 0))
      ensures failed.None? <==> AllOk(effects, RunCount(l, effects, 0))
      ensures failed.Some? ==> failed.value + 1 == RunCount(l, effects, 0)
      ensures failed.None? ==> RunCount(l, effects, 0) == |l|
    {
      for i := 0 to |l|
        invariant AllOk(effects, i)
        invariant RunCount(l, effects, 0) == RunCount(l, effects, i)
        invariant trace == old(trace) + TraceOf(l, effects, i)
      {
        trace := trace + EventsOf(l[i], effects(i));
        TraceStep(old(trace), l, effects, i);
        if !effects(i).ok {
          return Some(i);
        }
      }
      failed := None;
    }

    /** Start. */
    method Start(s: Script) returns (r: StartResult)
      modifies this`started, this`trace
      ensures started
      ensures old(started) ==> r == AlreadyStarted && trace == old(trace)
      ensures !old(started) ==>
                && trace == old(trace) + StartTrace(config, Flattened(config, validation, fcInit), s)
                && !r.AlreadyStarted?
                && (r == Started <==> AllOk(s.effects, |Flattened(config, validation, fcInit)|) && (config.HasSnapshot() || s.accepted))
      // in its own words: the handlers asked for ran, and all of them if Start reports success
      ensures !old(started) ==>
                var ran := HandlersIn(trace[|old(trace)|..]);
                && AsAsked(ran, config.disableValidation, validation, fcInit, s.effects)
                && (r == Started ==> ran == if config.disableValidation then fcInit else validation + fcInit)
    {
      if started {
        return AlreadyStarted;
      }
      started := true;
      r := FirstStart(s);
      StartAsAsked(config, validation, fcInit, s);
      assert trace[|old(trace)|..] == StartTrace(config, Flattened(config, validation, fcInit), s);
    }

    /** Start past its once. */
    method FirstStart(s: Script) returns (r: StartResult)
      modifies this`trace
      ensures trace == old(trace) + StartTrace(config, Flattened(config, validation, fcInit), s)
      ensures !r.AlreadyStarted?
      ensures r == Started <==> AllOk(s.effects, |Flattened(config, validation, fcInit)|) && (config.HasSnapshot() || s.accepted)
    {
      var l: seq<Handler> := [];
      if !config.disableValidation {
        l := l + validation;
      }
      l := l + fcInit;
      assert l == Flattened(config, validation, fcInit);
      var failed := Run(l, s.effects);
      if failed.Some? {
        return HandlerFailed(failed.value);
      }
      if config.HasSnapshot() {
        return Started;
      }
      trace := trace + [Call(InstanceStart)];
      r := if s.accepted then Started else StartRefused;
    }
  }

  // ---------- any sequence of Starts ----------

  /** The trace left by Start called with each script in turn on a fresh machine. */
  function AllStarts(c: Config, l: seq<Handler>, scripts: seq<Script>): seq<Event> {
    if scripts == [] then []
    else if |scripts| == 1 then StartTrace(c, l, scripts[0])
    else AllStarts(c, l, scripts[..|scripts| - 1])      // startOnce has fired
  }

  method StartRepeatedly(m: Machine, scripts: seq<Script>)
    requires !m.started && m.trace == []
    modifies m
    ensures m.trace == AllStarts(m.config, Flattened(m.config, m.validation, m.fcInit), scripts)
    ensures scripts != [] ==>
              AsAsked(HandlersIn(m.trace), m.config.disableValidation, m.validation, m.fcInit, scripts[0].effects)
  {
    ghost var l := Flattened(m.config, m.validation, m.fcInit);
    for i := 0 to |scripts|
      invariant m.started <==> i > 0
      invariant m.trace == AllStarts(m.config, l, scripts[..i])
    {
      var r := m.Start(scripts[i]);
      assert scripts[..i + 1][..i] == scripts[..i];
    }
    assert scripts[..|scripts|] == scripts;
    if scripts != [] {
      OnlyFirstStart(m.config, l, scripts);
      StartAsAsked(m.config, m.validation, m.fcInit, scripts[0]);
    }
  }

  /** Only the first Start leaves a trace. */
  lemma {:induction false} OnlyFirstStart(c: Config, l: seq<Handler>, scripts: seq<Script>)
    requires scripts != []
    ensures AllStarts(c, l, scripts) == StartTrace(c, l, scripts[0])
  {
    if |scripts| > 1 {
      OnlyFirstStart(c, l, scripts[..|scripts| - 1]);
    }
  }

  // ---------- what every trace shows ----------

  /** The handlers that ran, in order. */
  function HandlersIn(t: seq<Event>): seq<Handler> {
    if t == [] then []
    else HandlersIn(t[..|t| - 1]) + if t[|t| - 1].Ran? then [t[|t| - 1].handler] else []
  }

  lemma {:induction false} HandlersConcat(a: seq<Event>, b: seq<Event>)
    ensures HandlersIn(a + b) == HandlersIn(a) + HandlersIn(b)
    decreases |b|
  {
    if b == [] {
      assert a + b == a;
    } else {
      var n := |b| - 1;
      HandlersConcat(a, b[..n]);
      assert (a + b)[..|a| + n] == a + b[..n];
    }
  }

  lemma {:induction false} HandlersOfCalls(apis: seq<ApiCall>)
    ensures HandlersIn(Calls(apis)) == []
  {
    if apis != [] {
      var n := |apis| - 1;
      HandlersOfCalls(apis[..n]);
      assert Calls(apis)[..n] == Calls(apis[..n]);
    }
  }

  lemma {:induction false} HandlersOfOne(h: Handler, e: Effect)
    ensures HandlersIn(EventsOf(h, e)) == [h]
  {
    HandlersConcat(Calls(e.calls), [Ran(h, e.ok)]);
    HandlersOfCalls(e.calls);
    assert [Ran(h, e.ok)][..0] == [];
  }

  lemma {:induction false} HandlersOfTrace(l: seq<Handler>, effects: nat -> Effect, n: nat)
    requires n <= |l|
    ensures HandlersIn(TraceOf(l, effects, n)) == l[..n]
  {
    if n > 0 {
      HandlersOfTrace(l, effects, n - 1);
      HandlersConcat(TraceOf(l, effects, n - 1), EventsOf(l[n - 1], effects(n - 1)));
      HandlersOfOne(l[n - 1], effects(n - 1));
    }
  }

  /** A first Start's trace names the handlers it ran. */
  lemma {:induction false} HandlersOfStart(c: Config, l: seq<Handler>, s: Script)
    ensures HandlersIn(StartTrace(c, l, s)) == l[..RunCount(l, s.effects, 0)]
  {
    var n := RunCount(l, s.effects, 0);
    var last: seq<Event> := if AllOk(s.effects, n) && !c.HasSnapshot() then [Call(InstanceStart)] else [];
    HandlersOfTrace(l, s.effects, n);
    HandlersConcat(TraceOf(l, s.effects, n), last);
    assert last != [] ==> last[..0] == [];
  }

  /** Over any number of Starts the handlers run once in all, as the prefix up to the
      first failure; after a failed validation no FcInit handler runs. */
  lemma {:induction false} HandlersRunAsPrefix(c: Config, validation: seq<Handler>, fcInit: seq<Handler>,
                                               scripts: seq<Script>)
    requires scripts != []
    ensures var l := Flattened(c, validation, fcInit);
            var n := RunCount(l, scripts[0].effects, 0);
            && HandlersIn(AllStarts(c, l, scripts)) == l[..n]
            && (forall i: nat :: i + 1 < n ==> scripts[0].effects(i).ok)
            && (n < |l| ==> !scripts[0].effects(n - 1).ok)
            && (!c.disableValidation && !AllOk(scripts[0].effects, |validation|) ==> n <= |validation|)
  {
    var l := Flattened(c, validation, fcInit);
    OnlyFirstStart(c, l, scripts);
    HandlersOfStart(c, l, scripts[0]);
    RunCountStops(l, scripts[0].effects, 0);
  }

  ghost predicate AllPlausible(c: Config, l: seq<Handler>, effects: nat -> Effect) {
    forall i :: 0 <= i < |l| ==> Plausible(l[i], c, effects(i))
  }

  lemma {:induction false} PlausibleNoStart(h: Handler, c: Config, e: Effect)
    requires Plausible(h, c, e)
    ensures InstanceStart !in e.calls
  {
    if FullCalls(h.name, c).Some? {
      var full := FullCalls(h.name, c).value;
      forall i | 0 <= i < |e.calls|
        ensures e.calls[i] != InstanceStart
      {
        assert e.calls[i] == full[i];
      }
    }
  }

  lemma {:induction false} TraceNoStart(c: Config, l: seq<Handler>, effects: nat -> Effect, n: nat)
    requires n <= |l| && AllPlausible(c, l, effects)
    ensures Call(InstanceStart) !in TraceOf(l, effects, n)
  {
    if n > 0 {
      TraceNoStart(c, l, effects, n - 1);
      PlausibleNoStart(l[n - 1], c, effects(n - 1));
    }
  }

  /** The start action is issued at most once over any number of Starts: as the very last
      event, exactly when every handler succeeded and no snapshot is loaded. */
  lemma {:induction false} StartActionLast(c: Config, l: seq<Handler>, scripts: seq<Script>)
    requires scripts != [] && AllPlausible(c, l, scripts[0].effects)
    ensures var t := AllStarts(c, l, scripts);
            && (Call(InstanceStart) in t <==> AllOk(scripts[0].effects, |l|) && !c.HasSnapshot())
            && (forall i :: 0 <= i < |t| && t[i] == Call(InstanceStart) ==> i == |t| - 1)
            && (Call(InstanceStart) in t ==> HandlersIn(t) == l)
  {
    OnlyFirstStart(c, l, scripts);
    HandlersOfStart(c, l, scripts[0]);
    RunCountStops(l, scripts[0].effects, 0);
    TraceNoStart(c, l, scripts[0].effects, RunCount(l, scripts[0].effects, 0));
  }

  // ---------- snapshot mode ----------

  /** The calls LoadSnapshot may be preceded by: it needs a fresh process on which nothing
      but the logger and the metrics was configured. */
  predicate Quiet(api: ApiCall) { api == GetMachineConfig || api == PutLogger || api == PutMetrics }

  predicate QuietName(n: Name, c: Config) {
    || n == SetupNetwork || n == StartVMM || n == CreateLogFiles || n == LinkFiles || n == BootstrapLogging
    || (n == AddVsocks && c.vsocks == 0)
    || n == ValidateNetworkCfg || n == ValidateCfg || n == ValidateJailerCfg || n == ValidateLoadSnapshotCfg
  }

  predicate QuietList(l: seq<Handler>, c: Config) {
    forall i :: 0 <= i < |l| ==> QuietName(l[i].name, c) || l[i].name == LoadSnapshot
  }

  lemma {:induction false} QuietEffect(h: Handler, c: Config, e: Effect)
    requires QuietName(h.name, c) && Plausible(h, c, e)
    ensures forall i :: 0 <= i < |e.calls| ==> Quiet(e.calls[i])
  {
    if FullCalls(h.name, c).Some? {
      var full := FullCalls(h.name, c).value;
      assert forall i :: 0 <= i < |full| ==> Quiet(full[i]);
      assert forall i :: 0 <= i < |e.calls| ==> e.calls[i] == full[i];
    }
  }

  lemma {:induction false} QuietTrace(c: Config, l: seq<Handler>, effects: nat -> Effect, n: nat)
    requires n <= |l| && AllPlausible(c, l, effects) && QuietList(l, c)
    ensures forall i :: 0 <= i < |TraceOf(l, effects, n)| && TraceOf(l, effects, n)[i].Call? ==>
              Quiet(TraceOf(l, effects, n)[i].api) || TraceOf(l, effects, n)[i].api == PutSnapshotLoad
  {
    if n > 0 {
      QuietTrace(c, l, effects, n - 1);
      var h, e := l[n - 1], effects(n - 1);
      if QuietName(h.name, c) {
        QuietEffect(h, c, e);
      } else {
        assert e.calls <= [PutSnapshotLoad];
      }
    }
  }

  // ---------- which lists are quiet ----------

  /** Every handler is quiet, loads the snapshot, or is one the snapshot option removes. */
  predicate Tame(l: seq<Handler>, c: Config) {
    forall h :: h in l ==> QuietName(h.name, c) || h.name == LoadSnapshot || h.name in REMOVED
  }

  lemma {:induction false} DefaultTame(c: Config)
    requires c.vsocks == 0
    ensures Tame(DEFAULT_FC_INIT, c)
  {
  }

  /** A rewriting that includes the snapshot option leaves only quiet handlers and LoadSnapshot. */
  lemma {:induction false} RewritesTame(l: seq<Handler>, rs: seq<Rewrite>, c: Config)
    requires Tame(l, c) && RewrittenAll(l, rs).Some?
    ensures Tame(RewrittenAll(l, rs).value, c)
    ensures (exists i :: 0 <= i < |rs| && rs[i].Snapshot?) ==> QuietList(RewrittenAll(l, rs).value, c)
  {
    if rs != [] {
      var n := |rs| - 1;
      RewritesTame(l, rs[..n], c);
      var m := RewrittenAll(l, rs[..n]).value;
      match rs[n]
      case Snapshot =>
        SnapshotMembers(m);
      case Chroot(link) =>
        AfterMembers(m, CreateLogFiles, Link(link));
        if i :| 0 <= i < |rs| && rs[i].Snapshot? {
          assert rs[..n][i].Snapshot?;
          QuietAfter(m, c, link);
        }
    }
  }

  lemma {:induction false} QuietAfter(m: seq<Handler>, c: Config, link: nat)
    requires QuietList(m, c)
    ensures QuietList(After(m, CreateLogFiles, Link(link)), c)
  {
    AfterMembers(m, CreateLogFiles, Link(link));
    var l := After(m, CreateLogFiles, Link(link));
    forall i | 0 <= i < |l|
      ensures QuietName(l[i].name, c) || l[i].name == LoadSnapshot
    {
      assert l[i] in l;
    }
  }

  lemma {:induction false} SnapshotMembers(m: seq<Handler>)
    ensures forall h :: h in Snapshotted(m) ==> (h in m && h.name !in REMOVED) || h == Std(LoadSnapshot)
  {
    forall h | h in Snapshotted(m)
      ensures (h in m && h.name !in REMOVED) || h == Std(LoadSnapshot)
    {
      WithoutHas(m, REMOVED, h);
    }
  }

  lemma {:induction false} AfterMembers(l: seq<Handler>, name: Name, x: Handler)
    ensures forall h :: h in After(l, name, x) ==> h in l || h == x
  {
    if l != [] {
      AfterMembers(l[1..], name, x);
    }
  }

  predicate ValidationNames(l: seq<Handler>) {
    forall i :: 0 <= i < |l| ==>
      l[i].name in {ValidateNetworkCfg, ValidateCfg, ValidateJailerCfg, ValidateLoadSnapshotCfg}
  }

  /** In snapshot mode, jailed or not, with no vsock devices, every API call before the
      snapshot is loaded reads the machine configuration or configures the logger or
      the metrics, however the Start goes. */
  lemma {:induction false} SnapshotLoadedFresh(c: Config, validation: seq<Handler>, rs: seq<Rewrite>,
                                               scripts: seq<Script>)
    requires RewrittenAll(DEFAULT_FC_INIT, rs).Some? && (exists i :: 0 <= i < |rs| && rs[i].Snapshot?)
    requires c.vsocks == 0 && c.HasSnapshot() && ValidationNames(validation) && scripts != []
    requires AllPlausible(c, Flattened(c, validation, RewrittenAll(DEFAULT_FC_INIT, rs).value), scripts[0].effects)
    ensures var t := AllStarts(c, Flattened(c, validation, RewrittenAll(DEFAULT_FC_INIT, rs).value), scripts);
            forall i :: 0 <= i < |t| && t[i].Call? ==> Quiet(t[i].api) || t[i].api == PutSnapshotLoad
  {
    var fcInit := RewrittenAll(DEFAULT_FC_INIT, rs).value;
    var l := Flattened(c, validation, fcInit);
    DefaultTame(c);
    RewritesTame(DEFAULT_FC_INIT, rs, c);
    assert QuietList(l, c);
    OnlyFirstStart(c, l, scripts);
    QuietTrace(c, l, scripts[0].effects, RunCount(l, scripts[0].effects, 0));
  }

  /** The effects of a run in which nothing fails and the socket answers at once. */
  function Smooth(l: seq<Handler>, c: Config): nat -> Effect {
    (i: nat) => Effect(if i < |l| && FullCalls(l[i].name, c).Some? then FullCalls(l[i].name, c).value else [], true)
  }

  lemma {:induction false} TraceHas(l: seq<Handler>, effects: nat -> Effect, n: nat, k: nat, api: ApiCall)
    requires k < n <= |l| && api in effects(k).calls
    ensures Call(api) in TraceOf(l, effects, n)
  {
    if k == n - 1 {
      var i :| 0 <= i < |effects(k).calls| && effects(k).calls[i] == api;
      assert EventsOf(l[k], effects(k))[i] == Call(api);
    } else {
      TraceHas(l, effects, n - 1, k, api);
    }
  }

  /** With a vsock device it is otherwise: AddVsocks is not among the removed handlers, so
      a run in which nothing fails configures a device and loads the snapshot after it. */
  lemma {:induction false} VsocksBreakFreshness(c: Config, validation: seq<Handler>, fcInit: seq<Handler>)
    requires c.vsocks > 0 && c.HasSnapshot() && Std(AddVsocks) in fcInit
    ensures var l := Flattened(c, validation, Snapshotted(fcInit));
            var t := StartTrace(c, l, Script(Smooth(l, c), true));
            && AllPlausible(c, l, Smooth(l, c))
            && exists i, j :: 0 <= i < j < |t| && t[i] == Call(PutVsock(0)) && t[j] == Call(PutSnapshotLoad)
  {
    var l := Flattened(c, validation, Snapshotted(fcInit));
    WithoutHas(fcInit, REMOVED, Std(AddVsocks));
    var kept := Without(fcInit, REMOVED);
    var k :| 0 <= k < |kept| && kept[k] == Std(AddVsocks);
    VsocksThenLoad(c, l, |l| - |kept| - 1 + k);
  }

  lemma {:induction false} VsocksThenLoad(c: Config, l: seq<Handler>, at: nat)
    requires c.vsocks > 0 && c.HasSnapshot()
    requires at < |l| - 1 && l[at] == Std(AddVsocks) && l[|l| - 1] == Std(LoadSnapshot)
    ensures var t := StartTrace(c, l, Script(Smooth(l, c), true));
            exists i, j :: 0 <= i < j < |t| && t[i] == Call(PutVsock(0)) && t[j] == Call(PutSnapshotLoad)
  {
    var effects, n := Smooth(l, c), |l| - 1;
    SmoothVsock(l, c, at);
    TraceHas(l, effects, n, at, PutVsock(0));
    SmoothLoad(l, c);
    InOrder(TraceOf(l, effects, n), EventsOf(l[n], effects(n)), Call(PutVsock(0)), Call(PutSnapshotLoad));
    SmoothTrace(l, c);
  }

  lemma {:induction false} SmoothVsock(l: seq<Handler>, c: Config, at: nat)
    requires at < |l| && l[at] == Std(AddVsocks) && c.vsocks > 0
    ensures PutVsock(0) in Smooth(l, c)(at).calls
  {
    assert Smooth(l, c)(at).calls[0] == PutVsock(0);
  }

  lemma {:induction false} SmoothLoad(l: seq<Handler>, c: Config)
    requires l != [] && l[|l| - 1] == Std(LoadSnapshot)
    ensures var effects, n := Smooth(l, c), |l| - 1;
            && effects(n).calls == [PutSnapshotLoad]
            && Call(PutSnapshotLoad) in EventsOf(l[n], effects(n))
            && TraceOf(l, effects, |l|) == TraceOf(l, effects, n) + EventsOf(l[n], effects(n))
  {
    assert EventsOf(l[|l| - 1], Smooth(l, c)(|l| - 1))[0] == Call(PutSnapshotLoad);
  }

  lemma {:induction false} InOrder(a: seq<Event>, b: seq<Event>, x: Event, y: Event)
    requires x in a && y in b
    ensures exists i, j :: 0 <= i < j < |a + b| && (a + b)[i] == x && (a + b)[j] == y
  {
    var i :| 0 <= i < |a| && a[i] == x;
    var j :| 0 <= j < |b| && b[j] == y;
    assert (a + b)[i] == x && (a + b)[|a| + j] == y;
  }

  lemma {:induction false} SmoothTrace(l: seq<Handler>, c: Config)
    ensures var effects := Smooth(l, c);
            StartTrace(c, l, Script(effects, true)) ==
            if c.HasSnapshot() then TraceOf(l, effects, |l|) else TraceOf(l, effects, |l|) + [Call(InstanceStart)]
  {
    RunsThrough(l, c, 0);
  }

  lemma {:induction false} RunsThrough(l: seq<Handler>, c: Config, from: nat)
    requires from <= |l|
    ensures RunCount(l, Smooth(l, c), from) == |l|
    decreases |l| - from
  {
    if from < |l| {
      RunsThrough(l, c, from + 1);
    }
  }

  /** WithSnapshot rewrites the handlers whatever paths it is given, and the start action
      looks at the paths: in a run in which nothing fails the load is followed by
      InstanceStart exactly when the snapshot path is empty and so is the memory's: the
      backend's if one is set, whatever the memory file is then, else the memory file. */
  lemma {:induction false} StartAfterLoadIff(c: Config, validation: seq<Handler>, fcInit: seq<Handler>)
    ensures var l := Flattened(c, validation, Snapshotted(fcInit));
            var t := StartTrace(c, l, Script(Smooth(l, c), true));
            && AllPlausible(c, l, Smooth(l, c))
            && Call(PutSnapshotLoad) in t
            && (Call(InstanceStart) in t <==>
                  c.snapshotFile == "" && (c.memBackend == Some("") || (c.memBackend.None? && c.memFile == "")))
  {
    var l := Flattened(c, validation, Snapshotted(fcInit));
    var effects := Smooth(l, c);
    SmoothLoad(l, c);
    SmoothTrace(l, c);
    TraceHas(l, effects, |l|, |l| - 1, PutSnapshotLoad);
    TraceNoStart(c, l, effects, |l|);
  }
}
