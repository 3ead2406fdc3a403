/** The state handlers share: the kernel arguments, the network interfaces and the
    cleanups of one Machine, from a default Start to doCleanup. */
module Machine {
  import opened Text
  import opened Undo
  import opened HostSetup
  import opened Network
  import opened CniUtil
  import KernelArgs
  import VmConf

  // ---------- kernel arguments ----------

  /** ipBootParam of an IPv4 configuration. */
  function IpValue(ip: IPConfiguration): string
    requires ip.address.V4? && ip.gateway.V4?
  {
    VmConf.IPBootParam(AsConf(ip))
  }

  function AsConf(ip: IPConfiguration): VmConf.StaticNetworkConf
    requires ip.address.V4? && ip.gateway.V4?
  {
    VmConf.StaticNetworkConf("", "", ip.ifName, "", 0, IPConfig(ip.address.ip, ip.mask, ip.gateway.ip),
                             [], ip.nameservers, "", [], [])
  }

  /** IPv6 addresses have no "ip=" form here. */
  predicate AllV4(ifs: seq<NetworkInterface>) {
    forall i :: 0 <= i < |ifs| && HasIP(ifs[i]) ==>
      ifs[i].staticConf.value.ipConf.value.address.V4? && ifs[i].staticConf.value.ipConf.value.gateway.V4?
  }

  /** The IP configuration the "ip=" parameter is made from. */
  function ChosenIP(ifs: seq<NetworkInterface>): Option<IPConfiguration> {
    match StaticIPIndex(ifs)
    case None => None
    case Some(i) => ifs[i].staticConf.value.ipConf
  }

  /** The arguments the kernel is to see. */
  function BootArgs(args: KernelArgs.Args, ifs: seq<NetworkInterface>): KernelArgs.Args
    requires AllV4(ifs)
  {
    match ChosenIP(ifs)
    case None => args
    case Some(ip) => args["ip" := Some(IpValue(ip))]
  }

  /** Nothing the user or CNI supplied for "ip=" holds white space. */
  predicate PlainIP(ip: IPConfiguration) {
    && KernelArgs.NoSpace(ip.ifName)
    && forall i :: 0 <= i < 2 && i < |ip.nameservers| ==> KernelArgs.NoSpace(ip.nameservers[i])
  }

  /** The stored string is read back as exactly the arguments meant, in whatever order
      the map was iterated, when and only when the IP configuration is plain. */
  lemma {:induction false} StoredStringReads(raw: string, ifs: seq<NetworkInterface>, order: seq<string>)
    requires AllV4(ifs) && KernelArgs.Order(BootArgs(KernelArgs.Parsed(raw), ifs), order)
    ensures var args := BootArgs(KernelArgs.Parsed(raw), ifs);
            KernelArgs.Parsed(KernelArgs.Printed(args, order)) == args
            <==> (ChosenIP(ifs).Some? ==> PlainIP(ChosenIP(ifs).value))
  {
    var args := BootArgs(KernelArgs.Parsed(raw), ifs);
    KernelArgs.RoundTripIff(args, order);
    KernelArgs.ParsedWellFormed(raw);
    if ChosenIP(ifs).Some? {
      VmConf.BootParamIsWord(AsConf(ChosenIP(ifs).value));
      IpFits(KernelArgs.Parsed(raw), IpValue(ChosenIP(ifs).value));
    }
  }

  /** Interface i is the first with an IP configuration, and has this one. */
  predicate FirstIP(ifs: seq<NetworkInterface>, i: nat, ip: IPConfiguration) {
    && i < |ifs| && ifs[i].staticConf.Some? && ifs[i].staticConf.value.ipConf == Some(ip)
    && forall j :: 0 <= j < i ==> ifs[j].staticConf.None? || ifs[j].staticConf.value.ipConf.None?
  }

  /** The "ip" value says of the VM what the IP configuration says, field by field. */
  predicate SaysIP(value: string, ip: IPConfiguration)
    requires ip.address.V4? && ip.gateway.V4?
  {
    var ns := ip.nameservers;
    VmConf.ReadBootParam(value) == Some(VmConf.BootParam(
      ip.address.ip, "", ip.gateway.ip, ip.mask, "", ip.ifName, "off",
      if |ns| > 0 then ns[0] else "", if |ns| > 1 then ns[1] else "", ""))
  }

  /** No colon in what the user or CNI supplied for "ip=". */
  predicate NoColonIP(ip: IPConfiguration) {
    ':' !in ip.ifName && forall i :: 0 <= i < 2 && i < |ip.nameservers| ==> ':' !in ip.nameservers[i]
  }

  /** Reading the stored string, the kernel finds what the user wrote; and, if an interface
      has an IP configuration, the first one's under "ip", where it understands it if and
      only if there is no colon in it. */
  ghost predicate KernelTold(raw: string, stored: string, ifs: seq<NetworkInterface>) {
    var user, told := KernelArgs.Parsed(raw), KernelArgs.Parsed(stored);
    && ((forall i :: 0 <= i < |ifs| ==> ifs[i].staticConf.None? || ifs[i].staticConf.value.ipConf.None?) ==> told == user)
    && forall i: nat, ip ::
         FirstIP(ifs, i, ip) && PlainIP(ip) && ip.address.V4? && ip.gateway.V4? ==>
           && "ip" in told && told["ip"].Some?
           && (SaysIP(told["ip"].value, ip) <==> NoColonIP(ip))
           && forall k :: k != "ip" ==> (k in told <==> k in user) && (k in user ==> told[k] == user[k])
  }

  lemma {:induction false} ArgsTell(raw: string, stored: string, ifs: seq<NetworkInterface>)
    requires AllV4(ifs)
    requires (ChosenIP(ifs).Some? ==> PlainIP(ChosenIP(ifs).value)) ==>
               KernelArgs.Parsed(stored) == BootArgs(KernelArgs.Parsed(raw), ifs)
    ensures KernelTold(raw, stored, ifs)
  {
    forall i: nat, ip | FirstIP(ifs, i, ip)
      ensures ChosenIP(ifs) == Some(ip) && (SaysIP(IpValue(ip), ip) <==> NoColonIP(ip))
    {
      FirstIsChosen(ifs, i, ip);
      VmConf.BootParamDecodes(AsConf(ip));
    }
    var at := StaticIPIndex(ifs);
    if at.Some? {
      assert HasIP(ifs[at.value]);
    }
  }

  lemma {:induction false} FirstIsChosen(ifs: seq<NetworkInterface>, i: nat, ip: IPConfiguration)
    requires FirstIP(ifs, i, ip)
    ensures StaticIPIndex(ifs) == Some(i)
  {
    var at := StaticIPIndex(ifs);
    assert HasIP(ifs[i]);
    if at.Some? {
      assert HasIP(ifs[at.value]);
    }
  }

  lemma {:induction false} IpFits(args: KernelArgs.Args, value: string)
    requires KernelArgs.WellFormed(args)
    ensures KernelArgs.WellFormed(args["ip" := Some(value)]) <==> KernelArgs.NoSpace(value)
  {
    assert args["ip" := Some(value)]["ip"] == Some(value);
  }

  /** For an accepted configuration no user argument is lost or overwritten. */
  lemma {:induction false} UserArgsKept(raw: string, before: seq<NetworkInterface>, after: seq<NetworkInterface>)
    requires Acceptable(before, KernelArgs.Parsed(raw)) && AllV4(after)
    requires |before| == |after| && forall i :: 0 <= i < |before| && HasIP(after[i]) ==> NeedsIP(before[i])
    ensures var args := BootArgs(KernelArgs.Parsed(raw), after);
            && (forall k :: k in KernelArgs.Parsed(raw) ==> k in args && args[k] == KernelArgs.Parsed(raw)[k])
            && (forall k :: k in args ==> k in KernelArgs.Parsed(raw) || (k == "ip" && ChosenIP(after).Some?))
            && (ChosenIP(after).Some? ==> |after| == 1 && "ip" !in KernelArgs.Parsed(raw))
  {
  }

  /** Go's map iteration: every key once, in an order of the runtime's choosing. */
  method AnyOrder(args: KernelArgs.Args) returns (order: seq<string>)
    ensures KernelArgs.Order(args, order)
  {
    order := [];
    var rest := args.Keys;
    while rest != {}
      invariant rest <= args.Keys
      invariant forall i, j :: 0 <= i < j < |order| ==> order[i] != order[j]
      invariant forall i :: 0 <= i < |order| ==> order[i] in args && order[i] !in rest
      invariant forall k :: k in args ==> k in rest || k in order
      decreases rest
    {
      var k :| k in rest;
      rest := rest - {k};
      order := order + [k];
    }
  }

  // ---------- the machine ----------

  datatype Files = Files(
    vmID: string, netNS: Path, socket: Path,
    metricsFifo: Option<Path>, metricsPath: Option<Path>, logFifo: Option<Path>, logPath: Option<Path>)

  /** How waitForSocket ends: with nil, since the socket answers or the process has exited
      cleanly; with the time-out; or with the error the process exited with. */
  datatype SocketWait = Succeeds | TimesOut | SeesExit

  /** Everything the outside contributes to one Start. The process makes its socket before
      Start's cleanups run (socketAppears), or only after them (socketLate), or not at all;
      `exits`: it ends by itself before Start returns. `configFails`: a file the configuration
      names cannot be found, or a size is missing. */
  datatype StartLuck = StartLuck(
    configFails: bool, net: Luck, launchFails: bool, socketAppears: bool, socketLate: bool, exits: bool, wait: SocketWait,
    metricsFails: bool, logFails: bool, apiFails: bool, refused: Option<nat>, instanceFails: bool)

  /** Refused by the network's validation, or by the rest of it, which wants the socket path free. */
  datatype Invalidity = BadNetwork(reason: Reason) | BadConfig

  /** Which of the two log files failed. */
  datatype LogError = MetricsFile(metrics: FileError) | LogFile(log: FileError)

  datatype StartError =
    | Invalid(why: Invalidity) | NetworkError(network: SetupError) | LaunchError | SocketError
    | FilesError(file: LogError) | ApiError | AttachFailed(attach: AttachError) | InstanceError

  /** The loop in doCleanup. */
  method RunReversed(host: Host, cs: seq<Cleanup>) returns (failed: seq<Cleanup>)
    modifies host
    ensures host.world == UndoAll(old(host.world), cs)
    ensures failed == Failures(old(host.world), cs)
  {
    failed := [];
    assert cs[..|cs|] == cs;
    for i := 0 to |cs|
      invariant UndoAll(host.world, cs[..|cs| - i]) == UndoAll(old(host.world), cs)
      invariant failed + Failures(host.world, cs[..|cs| - i]) == Failures(old(host.world), cs)
    {
      UndoTurn(host.world, cs, |cs| - i);
      var cleanup := cs[|cs| - 1 - i];
      ghost var later := Failures(Exec(host.world, cleanup), cs[..|cs| - i - 1]);
      assert failed + ([cleanup] + later) == (failed + [cleanup]) + later;
      if !Ready(host.world, cleanup) {
        failed := failed + [cleanup];
      }
      host.world := Exec(host.world, cleanup);
    }
  }

  class Machine {
    var kernelArgs: string
    const ifs: array<NetworkInterface>
    const files: Files
    var cleanupFuncs: seq<Cleanup>
    var cleanupFired: bool

    constructor (kernelArgs: string, ifs: array<NetworkInterface>, files: Files)
      ensures this.kernelArgs == kernelArgs && this.ifs == ifs && this.files == files
      ensures cleanupFuncs == [] && !cleanupFired
    {
      this.kernelArgs, this.ifs, this.files := kernelArgs, ifs, files;
      cleanupFuncs, cleanupFired := [], false;
    }

    /** doCleanup: the first call runs every registered cleanup once, last registered
        first, and reports the failures in that order; later calls do nothing. */
    method DoCleanup(host: Host) returns (failed: seq<Cleanup>)
      modifies host, this`cleanupFired
      ensures cleanupFired
      ensures old(cleanupFired) ==> host.world == old(host.world) && failed == []
      ensures !old(cleanupFired) ==>
                host.world == UndoAll(old(host.world), cleanupFuncs) && failed == Failures(old(host.world), cleanupFuncs)
    {
      failed := [];
      if cleanupFired {
        return;
      }
      failed := RunReversed(host, cleanupFuncs);
      cleanupFired := true;
    }

    /** setupKernelArgs. */
    method SetupKernelArgs()
      requires AllV4(ifs[..])
      modifies this`kernelArgs
      ensures KernelArgs.Parsed(kernelArgs) == BootArgs(KernelArgs.Parsed(old(kernelArgs)), ifs[..])
              <==> (ChosenIP(ifs[..]).Some? ==> PlainIP(ChosenIP(ifs[..]).value))
      ensures KernelTold(old(kernelArgs), kernelArgs, ifs[..])
    {
      ghost var raw := kernelArgs;
      var args := KernelArgs.ParseKernelArgs(kernelArgs);
      var at := StaticIPInterface(ifs);
      if at.Some? {
        args := args["ip" := Some(IpValue(ifs[at.value].staticConf.value.ipConf.value))];
      }
      var order := AnyOrder(args);
      StoredStringReads(kernelArgs, ifs[..], order);
      kernelArgs := KernelArgs.KernelArgsString(args, order);
      ArgsTell(raw, kernelArgs, ifs[..]);
    }

    /** Validation and the handlers before StartVMM: SetupNetwork and SetupKernelArgs. */
    method Prepare(host: Host, luck: StartLuck) returns (err: Option<StartError>)
      requires WellFormed(host.world) && IndicesInRange(luck.net.result) && cleanupFuncs == []
      modifies this`kernelArgs, this`cleanupFuncs, ifs, host
      ensures WellFormed(host.world) && GrownTowards(old(host.world), host.world, files.netNS)
      ensures err.Some? ==> err.value.Invalid? || err.value.NetworkError?
      ensures err.Some? ==> Blamed(err.value, old(kernelArgs), old(ifs[..]), old(host.world), files, luck)
      ensures NamesWithin(old(host.world), files.netNS, cleanupFuncs)
      ensures Unwinds(Floor(old(host.world), old(ifs[..]), files, err, luck), host.world, cleanupFuncs)
      ensures err.None? ==> !luck.configFails && files.socket !in old(host.world.fs)
      ensures err.None? ==> Acceptable(old(ifs[..]), KernelArgs.Parsed(old(kernelArgs))) && Ready4Boot(ifs[..])
      ensures err.None? ==> BootString(old(kernelArgs), kernelArgs, ifs[..])
    {
      ghost var w0, before := host.world, ifs[..];
      var args := KernelArgs.ParseKernelArgs(kernelArgs);
      var invalid := Validate(ifs, args);
      assert Unwinds(w0, w0, []) && GrownTowards(w0, w0, files.netNS);
      if invalid.Some? {
        return Some(Invalid(BadNetwork(invalid.value.1)));
      }
      if luck.configFails || files.socket in host.world.fs {
        return Some(Invalid(BadConfig));
      }
      var netErr, netCleanups := Network.SetupNetwork(ifs, host, files.vmID, files.netNS, luck.net);
      cleanupFuncs := cleanupFuncs + netCleanups;
      assert cleanupFuncs == netCleanups;
      if netErr.Some? {
        return Some(NetworkError(netErr.value));
      }
      SetUpIsReady(before, args, ifs[..], files.vmID, files.netNS, luck.net.result);
      SetupKernelArgs();
      UserArgsKept(old(kernelArgs), before, ifs[..]);
      err := None;
    }

    /** The handlers of the default list, in order, up to the first that fails. */
    method RunHandlers(host: Host, luck: StartLuck) returns (err: Option<StartError>)
      requires WellFormed(host.world) && IndicesInRange(luck.net.result) && cleanupFuncs == [] && !host.world.vmm
      modifies this`kernelArgs, this`cleanupFuncs, ifs, host
      ensures WellFormed(host.world)
      // set-up makes "invalid nil state" unreachable; every other error has its cause
      ensures err.Some? ==> Blamed(err.value, old(kernelArgs), old(ifs[..]), old(host.world), files, luck)
      ensures err.None? ==> Blameless(luck, ifs.Length) && files.socket !in old(host.world.fs)
      // the process runs from the launch on, whatever fails later
      ensures host.world.vmm <==> if err.None? then !Exited(luck) else Outlived(err.value, luck)
      // what is registered at any failure, and at the end, takes the host back
      ensures Apart(files, old(host.world)) ==>
                TakesBack(Base(old(host.world), old(ifs[..]), files, err, luck), host.world, cleanupFuncs)
      // the kernel is told the user's arguments and the sole interface's IP
      ensures err.None? ==> Acceptable(old(ifs[..]), KernelArgs.Parsed(old(kernelArgs))) && Ready4Boot(ifs[..])
      ensures err.None? ==> BootString(old(kernelArgs), kernelArgs, ifs[..])
    {
      ghost var w0, before := host.world, ifs[..];
      err := Prepare(host, luck);
      if err.Some? {
        return;
      }
      err := BootProcess(host, luck, w0, old(kernelArgs), before);
      if err.Some? {
        return;
      }
      var attachErr := CreateNetworkInterfaces(ifs, luck.refused);
      if attachErr.Some? {
        return Some(AttachFailed(attachErr.value));
      }
    }

    /** StartVMM, CreateLogFiles and the handlers that only talk to the API. */
    method BootProcess(host: Host, luck: StartLuck, ghost w0: World, ghost raw: string, ghost before: seq<NetworkInterface>)
      returns (err: Option<StartError>)
      requires WellFormed(host.world) && !host.world.vmm && WellFormed(w0) && GrownTowards(w0, host.world, files.netNS)
      requires files.socket !in w0.fs && NamesWithin(w0, files.netNS, cleanupFuncs)
      requires Unwinds(Floor(w0, before, files, None, luck), host.world, cleanupFuncs)
      modifies this`cleanupFuncs, host
      ensures WellFormed(host.world)
      ensures err.Some? ==> !err.value.Invalid? && !err.value.NetworkError? && !err.value.AttachFailed?
      ensures err.Some? ==> Blamed(err.value, raw, before, w0, files, luck)
      ensures err.None? ==> !luck.launchFails && luck.wait.Succeeds? && !luck.apiFails
      ensures host.world.vmm <==> if err.None? then !Exited(luck) else Outlived(err.value, luck)
      ensures Apart(files, w0) ==> TakesBack(Base(w0, before, files, err, luck), host.world, cleanupFuncs)
    {
      ghost var floor := Floor(w0, before, files, None, luck);
      FloorKeeps(w0, before, files, None, luck);
      err := StartVMM(host, luck, w0, floor);
      if err.None? {
        err := ConfigureProcess(host, luck, w0, floor);
      }
    }

    /** startVMM, from the launch to the end of the wait for the socket. */
    method StartVMM(host: Host, luck: StartLuck, ghost w0: World, ghost floor: World) returns (err: Option<StartError>)
      requires WellFormed(host.world) && !host.world.vmm && GrownTowards(w0, host.world, files.netNS)
      requires files.socket !in w0.fs && NamesWithin(w0, files.netNS, cleanupFuncs)
      requires Unwinds(floor, host.world, cleanupFuncs)
      modifies this`cleanupFuncs, host
      ensures WellFormed(host.world) && ReadyForFiles(w0, host.world, files) && Owned(files, w0, cleanupFuncs)
      ensures host.world.vmm <==> !luck.launchFails && !Exited(luck)
      ensures err == if luck.launchFails then Some(LaunchError) else if luck.wait.Succeeds? then None else Some(SocketError)
      ensures Apart(files, w0) ==> TakesBack(floor, host.world, cleanupFuncs)
    {
      if luck.launchFails {
        return Some(LaunchError);
      }
      ghost var w1, first := host.world, cleanupFuncs;
      LaunchProcess(host, luck.socketAppears, Exited(luck));
      if Apart(files, w0) {
        TakesBackMore(floor, w1, host.world, first, [RemoveIfPresent(files.socket)]);
      }
      err := if luck.wait.Succeeds? then None else Some(SocketError);
    }

    /** The handlers after StartVMM, but for the network interfaces. */
    method ConfigureProcess(host: Host, luck: StartLuck, ghost w0: World, ghost floor: World)
      returns (err: Option<StartError>)
      requires WellFormed(host.world) && ReadyForFiles(w0, host.world, files) && Owned(files, w0, cleanupFuncs)
      requires forall q :: q in w0.fs ==> q in floor.fs
      requires Apart(files, w0) ==> TakesBack(floor, host.world, cleanupFuncs)
      modifies this`cleanupFuncs, host
      ensures WellFormed(host.world) && host.world.vmm == old(host.world.vmm)
      ensures err.Some? ==> err.value.FilesError? || (err.value.ApiError? && luck.apiFails)
      ensures err.Some? && err.value.FilesError? ==> FailsAt(err.value.file, files, old(host.world), luck)
      ensures err.None? ==> !luck.apiFails
      ensures Apart(files, w0) ==> TakesBack(WithLogs(floor, files, Stage(err)), host.world, cleanupFuncs)
    {
      ghost var w2, first := host.world, cleanupFuncs;
      var fileErr, fileCleanups := CreateLogFiles(host, luck.metricsFails, luck.logFails);
      cleanupFuncs := cleanupFuncs + fileCleanups;
      err := if fileErr.Some? then Some(FilesError(fileErr.value)) else if luck.apiFails then Some(ApiError) else None;
      if Apart(files, w0) {
        LogsBeside(w0, floor.(vmm := w2.vmm), w2, files, first, Stage(err));
        UnwindsCompose(WithLogs(floor.(vmm := w2.vmm), files, Stage(err)), WithLogs(w2, files, Stage(err)), host.world,
                       first, fileCleanups);
      }
    }

    /** startVMM as the host sees it: the socket's cleanup is registered, the process is
        running and may make its socket; it may exit by itself. */
    method LaunchProcess(host: Host, socketAppears: bool, exits: bool)
      requires WellFormed(host.world)
      modifies this`cleanupFuncs, host
      ensures WellFormed(host.world) && host.world.vmm == !exits
      ensures cleanupFuncs == old(cleanupFuncs) + [RemoveIfPresent(files.socket)]
      ensures GrownTowards(old(host.world), host.world.(vmm := old(host.world.vmm)), files.socket)
      ensures forall q :: q in host.world.fs ==> q in old(host.world.fs) || q == files.socket
      ensures files.socket !in old(host.world.fs) ==>
                Unwinds(old(host.world).(vmm := host.world.vmm), host.world, [RemoveIfPresent(files.socket)])
    {
      cleanupFuncs := cleanupFuncs + [RemoveIfPresent(files.socket)];
      host.world := host.world.(vmm := !exits);
      if files.socket !in host.world.fs {
        assert Without(host.world, files.socket).fs == host.world.fs;
        UnwindsOne(host.world, host.world, RemoveIfPresent(files.socket));
      }
      if socketAppears {
        MakeSocket(host);
      }
    }

    /** The process binds its socket, if it can. */
    method MakeSocket(host: Host)
      requires WellFormed(host.world)
      modifies host
      ensures WellFormed(host.world) && host.world == SocketMade(old(host.world), files.socket)
      ensures files.socket !in old(host.world.fs) ==>
                Unwinds(old(host.world), host.world, [RemoveIfPresent(files.socket)])
    {
      if files.socket !in host.world.fs {
        assert Without(host.world, files.socket).fs == host.world.fs;
        UnwindsOne(host.world, host.world, RemoveIfPresent(files.socket));
      }
      if Creatable(host.world, files.socket) {
        FileWellFormed(host.world, files.socket);
        FileUnwinds(host.world, files.socket, RemoveIfPresent(files.socket));
        host.world := host.world.(fs := host.world.fs[files.socket := File]);
      }
    }

    /** CreateLogFilesHandler: the metrics file first, then the log. */
    method CreateLogFiles(host: Host, metricsFails: bool, logFails: bool) returns (err: Option<LogError>, cleanups: seq<Cleanup>)
      requires WellFormed(host.world)
      modifies host
      ensures WellFormed(host.world) && host.world.vmm == old(host.world.vmm)
      ensures err.None? <==> FilesGo(files, old(host.world), metricsFails, logFails)
      ensures err.Some? ==>
                (err.value.MetricsFile? <==> !FileGoes(old(host.world), files.metricsFifo, files.metricsPath, metricsFails))
      ensures FilesUndone(files, old(host.world)) ==> Unwinds(old(host.world), host.world, cleanups)
      ensures err.None? && !FilesUndone(files, old(host.world)) ==> !Unwinds(old(host.world), host.world, cleanups)
      // the new log files, as far as they were made, are all the cleanups leave
      ensures LogIsNoFifo(files) ==> Unwinds(WithLogs(old(host.world), files, LogStage(err)), host.world, cleanups)
    {
      ghost var w0 := host.world;
      var fileErr;
      fileErr, cleanups := CreateFifoOrFile(host, files.metricsFifo, files.metricsPath, metricsFails);
      if fileErr.Some? {
        return Some(MetricsFile(fileErr.value)), cleanups;
      }
      ghost var w1, first := host.world, cleanups;
      var logCleanups;
      fileErr, logCleanups := CreateFifoOrFile(host, files.logFifo, files.logPath, logFails);
      cleanups := cleanups + logCleanups;
      err := if fileErr.Some? then Some(LogFile(fileErr.value)) else None;
      if FilesUndone(files, w0) {
        UnwindsCompose(w0, w1, host.world, first, logCleanups);
      } else if err.None? {
        NewFilesStay(files, w0, cleanups);
      }
      if LogIsNoFifo(files) {
        ghost var kept := WithLogs(w0, files, 1);
        if err.None? {
          LogBesideFifo(files, w0, w1, first);
          UnwindsCompose(WithLogs(w0, files, 2), WithLog(w1, PlainLog(files.logFifo, files.logPath)), host.world, first, logCleanups);
        } else {
          UnwindsCompose(kept, w1, host.world, first, logCleanups);
        }
      }
    }

    /** Start's deferred doCleanup after an error. The last statement is not Start's: it is
        what a process that Start left running may still do. */
    method CleanUpAfter(host: Host, e: StartError, luck: StartLuck, ghost base: World) returns (failed: seq<Cleanup>)
      requires WellFormed(host.world) && !cleanupFired && !base.vmm
      requires host.world.vmm <==> Outlived(e, luck)
      modifies host, this`cleanupFired
      ensures cleanupFired && (host.world.vmm <==> Outlived(e, luck))
      ensures TakesBack(base, old(host.world), cleanupFuncs) ==>
                failed == [] && host.world == LeftBehind(base, e, files, luck)
    {
      NoFailuresIff(host.world, cleanupFuncs);
      UndoKeepsWellFormed(host.world, cleanupFuncs);
      failed := DoCleanup(host);
      if host.world.vmm && luck.socketLate {
        MakeSocket(host);
      }
    }

    /** Start on a machine not started before: the handlers, then the start action, and
        doCleanup if anything failed. */
    method Start(host: Host, luck: StartLuck) returns (err: Option<StartError>, failed: seq<Cleanup>)
      requires WellFormed(host.world) && IndicesInRange(luck.net.result) && !host.world.vmm
      requires cleanupFuncs == [] && !cleanupFired
      modifies this`kernelArgs, this`cleanupFuncs, this`cleanupFired, ifs, host
      ensures err.Some? ==> Blamed(err.value, old(kernelArgs), old(ifs[..]), old(host.world), files, luck)
      ensures err.None? ==> Blameless(luck, ifs.Length) && !luck.instanceFails && files.socket !in old(host.world.fs)
      // a failed Start ends no process: one it launched runs on, unless it exited by itself
      ensures host.world.vmm <==> if err.None? then !Exited(luck) else Outlived(err.value, luck)
      // and its cleanups, none of which fails, take away all but that process and its late
      // socket, levels above the namespace path, and new log files
      ensures err.Some? && Apart(files, old(host.world)) ==>
                && failed == []
                && host.world == LeftBehind(Base(old(host.world), old(ifs[..]), files, err, luck), err.value, files, luck)
      // so the host is as it was exactly when there is no such process, level, file or lost network
      ensures err.Some? && Apart(files, old(host.world)) ==>
                (host.world == old(host.world) <==>
                   && !Outlived(err.value, luck)
                   && Untouched(old(host.world), old(ifs[..]), files, err, luck)
                   && NoNewLog(old(host.world), files, Stage(err)))
      ensures cleanupFired <==> err.Some?
      // a successful one leaves everything to the one later doCleanup
      ensures err.None? && Apart(files, old(host.world)) ==>
                TakesBack(Base(old(host.world), old(ifs[..]), files, None, luck), host.world, cleanupFuncs)
      ensures err.None? ==> Acceptable(old(ifs[..]), KernelArgs.Parsed(old(kernelArgs))) && Ready4Boot(ifs[..])
      ensures err.None? ==> BootString(old(kernelArgs), kernelArgs, ifs[..])
    {
      ghost var w0, before := host.world, ifs[..];
      failed := [];
      err := RunHandlers(host, luck);
      if err.None? && luck.instanceFails {
        err := Some(InstanceError);
      }
      if err.Some? {
        ghost var base := Base(w0, before, files, err, luck);
        FloorKeeps(w0, before, files, err, luck);
        failed := CleanUpAfter(host, err.value, luck, base);
        RestoredIff(w0, before, files, err.value, luck);
      }
    }
  }

  // ---------- what Start relies on and promises ----------

  predicate Exited(luck: StartLuck) { luck.exits || luck.wait.SeesExit? }

  /** The process was launched before this error, and is still running after it. */
  predicate Outlived(e: StartError, luck: StartLuck) {
    !e.Invalid? && !e.NetworkError? && !e.LaunchError? && !Exited(luck)
  }

  /** Which errors those are, and that its exit is one it made by itself or the wait saw. */
  lemma {:induction false} OutlivedIff(e: StartError, luck: StartLuck)
    ensures Outlived(e, luck) <==>
            && (e.SocketError? || e.FilesError? || e.ApiError? || e.AttachFailed? || e.InstanceError?)
            && !luck.exits && !luck.wait.SeesExit?
  {
  }

  function SocketMade(w: World, socket: Path): World {
    if Creatable(w, socket) then w.(fs := w.fs[socket := File]) else w
  }

  /** What a failed Start leaves of `base`: nothing else, or the running process, which may
      make its socket once nothing is going to remove it. */
  function LeftBehind(base: World, e: StartError, f: Files, luck: StartLuck): World {
    if !Outlived(e, luck) then base
    else if luck.socketLate then SocketMade(base.(vmm := true), f.socket)
    else base.(vmm := true)
  }

  /** The process is left exactly if it outlives Start, and with it the socket exactly if it
      can be made late. */
  lemma {:induction false} LeftBehindIff(base: World, e: StartError, f: Files, luck: StartLuck)
    requires !base.vmm
    ensures var left := LeftBehind(base, e, f, luck);
            && (left == base <==> !Outlived(e, luck))
            && (left.fs == base.fs <==> !(Outlived(e, luck) && luck.socketLate && Creatable(base, f.socket)))
            && left.mounts == base.mounts && left.nets == base.nets
  {
    if Outlived(e, luck) && luck.socketLate && Creatable(base, f.socket) {
      assert f.socket in LeftBehind(base, e, f, luck).fs;
    }
  }

  /** The host at the start, and what set-up leaves of the levels above the namespace,
      without the network of an earlier run that set-up takes away. */
  function Floor(w: World, ifs: seq<NetworkInterface>, f: Files, e: Option<StartError>, luck: StartLuck): World {
    if CniIndex(ifs).None? || (e.Some? && e.value.Invalid?) then w
    else SetupBase(w, ConfOf(ifs[CniIndex(ifs).value], f.vmID, f.netNS), SetupErr(e), luck.net)
  }

  function SetupErr(e: Option<StartError>): Option<SetupError> {
    if e.Some? && e.value.NetworkError? then Some(e.value.network) else None
  }

  /** The floor and the new log files: what the cleanups lead back to. */
  function Base(w: World, ifs: seq<NetworkInterface>, f: Files, e: Option<StartError>, luck: StartLuck): World {
    WithLogs(Floor(w, ifs, f, e, luck), f, Stage(e))
  }

  /** Set-up left no level and took no network away. */
  predicate Untouched(w: World, ifs: seq<NetworkInterface>, f: Files, e: Option<StartError>, luck: StartLuck) {
    CniIndex(ifs).Some? && !(e.Some? && e.value.Invalid?) ==>
      var conf := ConfOf(ifs[CniIndex(ifs).value], f.vmID, f.netNS);
      var netnsErr := NetNSErr(SetupErr(e));
      && (|| f.netNS in w.fs || OneLevelMissing(w, f.netNS)
          || (netnsErr.Some? && MadeNoLevel(netnsErr.value, luck.net.netns.mkdirLevels)))
      && (Registers(w, conf, luck.net) ==> AttachmentOf(conf) !in w.nets)
  }

  /** The floor is the host at the start exactly then. */
  lemma {:induction false} FloorIff(w: World, ifs: seq<NetworkInterface>, f: Files, e: Option<StartError>, luck: StartLuck)
    requires WellFormed(w)
    ensures Floor(w, ifs, f, e, luck) == w <==> Untouched(w, ifs, f, e, luck)
  {
    if CniIndex(ifs).Some? && !(e.Some? && e.value.Invalid?) {
      var conf := ConfOf(ifs[CniIndex(ifs).value], f.vmID, f.netNS);
      var r := Remains(w, f.netNS, NetNSErr(SetupErr(e)), luck.net.netns.mkdirLevels);
      RemainsIff(w, f.netNS, NetNSErr(SetupErr(e)), luck.net.netns.mkdirLevels);
      assert r == w.(fs := r.fs);
      assert AttachmentOf(conf) !in w.nets <==> Detached(r, AttachmentOf(conf)).nets == w.nets;
    }
  }

  lemma {:induction false} FloorKeeps(w: World, ifs: seq<NetworkInterface>, f: Files, e: Option<StartError>, luck: StartLuck)
    requires WellFormed(w)
    ensures var floor := Floor(w, ifs, f, e, luck);
            floor.vmm == w.vmm && forall q :: q in w.fs ==> q in floor.fs
  {
    RemainsGrows(w, f.netNS, NetNSErr(SetupErr(e)), luck.net.netns.mkdirLevels);
  }

  /** A failed Start leaves the host as it found it exactly when no process outlives it,
      set-up left no level and took no network, and no log file is new. */
  lemma {:induction false} RestoredIff(w: World, ifs: seq<NetworkInterface>, f: Files, e: StartError, luck: StartLuck)
    requires WellFormed(w) && !w.vmm
    ensures LeftBehind(Base(w, ifs, f, Some(e), luck), e, f, luck) == w <==>
            && !Outlived(e, luck)
            && Untouched(w, ifs, f, Some(e), luck)
            && NoNewLog(w, f, Stage(Some(e)))
  {
    var floor := Floor(w, ifs, f, Some(e), luck);
    FloorIff(w, ifs, f, Some(e), luck);
    FloorKeeps(w, ifs, f, Some(e), luck);
    LogsOnly(floor, f, Stage(Some(e)));
    LogsOnly(w, f, Stage(Some(e)));
    LeftBehindIff(Base(w, ifs, f, Some(e), luck), e, f, luck);
    if Base(w, ifs, f, Some(e), luck) == w {
      assert floor.fs == w.fs;
      assert floor == w;
    }
  }

  /** How many of the metrics and log files were dealt with when Start ended. */
  function Stage(e: Option<StartError>): nat {
    match e
    case None => 2
    case Some(FilesError(file)) => LogStage(Some(file))
    case Some(ApiError) => 2
    case Some(AttachFailed(_)) => 2
    case Some(InstanceError) => 2
    case _ => 0
  }

  function LogStage(e: Option<LogError>): nat {
    if e.None? then 2 else if e.value.MetricsFile? then 0 else 1
  }

  /** w with the plain log files made up to a stage. */
  function WithLogs(w: World, f: Files, stage: nat): World {
    var m := if stage >= 1 then WithLog(w, PlainLog(f.metricsFifo, f.metricsPath)) else w;
    if stage >= 2 then WithLog(m, PlainLog(f.logFifo, f.logPath)) else m
  }

  predicate NoNewLog(w: World, f: Files, stage: nat) {
    && (stage >= 1 ==> FileUndone(w, f.metricsFifo, f.metricsPath))
    && (stage >= 2 ==> FileUndone(w, f.logFifo, f.logPath))
  }

  lemma {:induction false} LogsOnly(w: World, f: Files, stage: nat)
    ensures var after := WithLogs(w, f, stage);
            && after.mounts == w.mounts && after.nets == w.nets && after.vmm == w.vmm
            && (forall q :: q in w.fs ==> q in after.fs && after.fs[q] == w.fs[q])
            && (after == w <==> NoNewLog(w, f, stage))
  {
  }

  /** The log is not written to the metrics fifo. */
  predicate LogIsNoFifo(f: Files) {
    f.metricsFifo.Some? ==> PlainLog(f.logFifo, f.logPath) != f.metricsFifo
  }

  /** A log file is old, or new in an old directory and neither the socket nor above the namespace. */
  predicate LogApart(f: Files, w: World, log: Option<Path>) {
    log.Some? && log.value !in w.fs ==>
      && log.value != [] && Parent(log.value) in w.fs
      && log.value != f.socket && !(log.value <= f.netNS)
  }

  /** The paths Start is given do not get in each other's way. */
  predicate Apart(f: Files, w: World) {
    && !(f.socket <= f.netNS)
    && LogIsNoFifo(f)
    && LogApart(f, w, PlainLog(f.metricsFifo, f.metricsPath))
    && LogApart(f, w, PlainLog(f.logFifo, f.logPath))
  }

  /** The cleanups remove no more than what set-up and the process have made. */
  predicate Owned(f: Files, w: World, cs: seq<Cleanup>) {
    forall i :: 0 <= i < |cs| ==>
      match cs[i]
      case Remove(p) => p !in w.fs && (p <= f.netNS || p == f.socket)
      case RemoveIfPresent(p) => p !in w.fs && (p <= f.netNS || p == f.socket)
      case _ => true
  }

  /** A log file made after them does not disturb cleanups registered before. */
  lemma {:induction false} LogBeside(w0: World, base: World, now: World, f: Files, cs: seq<Cleanup>, log: Option<Path>)
    requires Unwinds(base, now, cs) && Owned(f, w0, cs) && LogApart(f, w0, log)
    requires forall q :: q in w0.fs ==> q in now.fs
    requires log.Some? && log.value in now.fs ==> log.value in base.fs
    ensures Unwinds(WithLog(base, log), WithLog(now, log), cs)
  {
    UndoShrinks(now, cs);
    if log.Some? && log.value !in now.fs {
      UnwindsAround(base, now, cs, log.value);
    }
  }

  lemma {:induction false} LogsBeside(w0: World, base: World, now: World, f: Files, cs: seq<Cleanup>, stage: nat)
    requires Unwinds(base, now, cs) && Owned(f, w0, cs) && Apart(f, w0) && ReadyForFiles(w0, now, f)
    requires forall q :: q in w0.fs ==> q in base.fs
    ensures Unwinds(WithLogs(base, f, stage), WithLogs(now, f, stage), cs)
  {
    var metrics, log := PlainLog(f.metricsFifo, f.metricsPath), PlainLog(f.logFifo, f.logPath);
    if stage >= 1 {
      LogBeside(w0, base, now, f, cs, metrics);
      if stage >= 2 {
        LogBeside(w0, WithLog(base, metrics), WithLog(now, metrics), f, cs, log);
      }
    }
  }

  /** The log file does not disturb the cleanup of the metrics fifo. */
  lemma {:induction false} LogBesideFifo(f: Files, w: World, w1: World, cs: seq<Cleanup>)
    requires LogIsNoFifo(f) && w1 == FileMade(w, f.metricsFifo, f.metricsPath)
    requires FileGoes(w, f.metricsFifo, f.metricsPath, false) && FileGoes(w1, f.logFifo, f.logPath, false)
    requires cs == if f.metricsFifo.Some? then [RemoveIfPresent(f.metricsFifo.value)] else []
    requires Unwinds(WithLogs(w, f, 1), w1, cs)
    ensures Unwinds(WithLogs(w, f, 2), WithLog(w1, PlainLog(f.logFifo, f.logPath)), cs)
  {
    var log := PlainLog(f.logFifo, f.logPath);
    if log.Some? && log.value !in w1.fs {
      UnwindsAround(WithLogs(w, f, 1), w1, cs, log.value);
    }
  }

  predicate FilesGo(f: Files, w: World, metricsFails: bool, logFails: bool) {
    && FileGoes(w, f.metricsFifo, f.metricsPath, metricsFails)
    && FileGoes(FileMade(w, f.metricsFifo, f.metricsPath), f.logFifo, f.logPath, logFails)
  }

  /** No log file is new. */
  predicate FilesUndone(f: Files, w: World) {
    && FileUndone(w, f.metricsFifo, f.metricsPath)
    && FileUndone(FileMade(w, f.metricsFifo, f.metricsPath), f.logFifo, f.logPath)
  }

  /** A new log file is not taken back. */
  lemma {:induction false} NewFilesStay(f: Files, w: World, cs: seq<Cleanup>)
    requires var w1 := FileMade(w, f.metricsFifo, f.metricsPath);
             && FileGoes(w, f.metricsFifo, f.metricsPath, false) && FileGoes(w1, f.logFifo, f.logPath, false)
             && !FilesUndone(f, w)
             && cs == (if f.metricsFifo.Some? then [RemoveIfPresent(f.metricsFifo.value)] else [])
                      + (if f.logFifo.Some? then [RemoveIfPresent(f.logFifo.value)] else [])
    ensures !Unwinds(w, FileMade(FileMade(w, f.metricsFifo, f.metricsPath), f.logFifo, f.logPath), cs)
  {
    var w1 := FileMade(w, f.metricsFifo, f.metricsPath);
    var w2 := FileMade(w1, f.logFifo, f.logPath);
    var p := if FileUndone(w, f.metricsFifo, f.metricsPath) then f.logPath.value else f.metricsPath.value;
    assert p !in w.fs && p in w2.fs;
    UndoKeepsFile(w2, cs, p);
  }

  /** w1 is w with no more than the namespace and the socket added. */
  ghost predicate ReadyForFiles(w: World, w1: World, f: Files) {
    && (forall q :: q in w.fs ==> q in w1.fs && w1.fs[q] == w.fs[q])
    && (forall q :: q in w1.fs ==> q in w.fs || q <= f.netNS || q == f.socket)
  }

  predicate FailsAt(e: LogError, f: Files, w: World, luck: StartLuck) {
    match e
    case MetricsFile(_) => !FileGoes(w, f.metricsFifo, f.metricsPath, luck.metricsFails)
    case LogFile(_) => !FileGoes(FileMade(w, f.metricsFifo, f.metricsPath), f.logFifo, f.logPath, luck.logFails)
  }

  /** What each error of Start means about the configuration and the outside. */
  ghost predicate Blamed(e: StartError, raw: string, ifs: seq<NetworkInterface>, w: World, f: Files, luck: StartLuck) {
    match e
    case Invalid(BadNetwork(_)) => !Acceptable(ifs, KernelArgs.Parsed(raw))
    case Invalid(BadConfig) => luck.configFails || f.socket in w.fs
    case NetworkError(_) =>
      CniIndex(ifs).Some? && !SetupGoes(ifs[CniIndex(ifs).value], w, f.vmID, f.netNS, luck.net)
    case LaunchError => luck.launchFails
    case SocketError => !luck.wait.Succeeds?
    case FilesError(file) => exists w1 :: ReadyForFiles(w, w1, f) && FailsAt(file, f, w1, luck)
    case ApiError => luck.apiFails
    case AttachFailed(attach) => attach.Api? && luck.refused == Some(attach.iface)
    case InstanceError => luck.instanceFails
  }

  predicate Blameless(luck: StartLuck, n: nat) {
    && !luck.configFails && !luck.launchFails && luck.wait.Succeeds? && !luck.apiFails
    && (luck.refused.Some? ==> luck.refused.value >= n)
  }

  /** The cleanups lead back to base, beside the process as it is now. */
  ghost predicate TakesBack(base: World, now: World, cs: seq<Cleanup>) {
    Unwinds(base.(vmm := now.vmm), now, cs)
  }

  lemma {:induction false} TakesBackMore(base: World, mid: World, now: World, first: seq<Cleanup>, second: seq<Cleanup>)
    requires TakesBack(base, mid, first) && Unwinds(mid.(vmm := now.vmm), now, second)
    ensures TakesBack(base, now, first + second)
  {
    UnwindsBeside(base.(vmm := mid.vmm), mid, first, now.vmm);
    UnwindsCompose(base.(vmm := now.vmm), mid.(vmm := now.vmm), now, first, second);
  }

  /** The kernel is told what it should be: every user argument unchanged and, if the sole
      interface has an IP configuration, a fresh "ip" bound to its printed form. */
  ghost predicate BootString(raw: string, stored: string, ifs: seq<NetworkInterface>) {
    var user := KernelArgs.Parsed(raw);
    && AllV4(ifs) && KernelTold(raw, stored, ifs)
    && (KernelArgs.Parsed(stored) == BootArgs(user, ifs) <==> (ChosenIP(ifs).Some? ==> PlainIP(ChosenIP(ifs).value)))
    && (ChosenIP(ifs).Some? ==> |ifs| == 1 && "ip" !in user)
    && (forall k :: k in user ==> k in BootArgs(user, ifs) && BootArgs(user, ifs)[k] == user[k])
  }

  /** Validation followed by a successful set-up leaves every interface ready. */
  lemma {:induction false} SetUpIsReady(before: seq<NetworkInterface>, args: KernelArgs.Args,
                                        after: seq<NetworkInterface>,
                     vmID: string, netNS: Path, result: CniResult)
    requires Acceptable(before, args) && |before| == |after|
    requires forall j :: 0 <= j < |before| && CniIndex(before) != Some(j) ==> after[j] == before[j]
    requires CniIndex(before).Some? ==> Filled(before[CniIndex(before).value], after[CniIndex(before).value], vmID, netNS, result)
    ensures Ready4Boot(after) && AllV4(after)
    ensures forall i :: 0 <= i < |before| && HasIP(after[i]) ==> NeedsIP(before[i])
  {
    if CniIndex(before).Some? {
      SelectionUnambiguous(before, args, CniIndex(before).value, 0);
    }
  }
}
