/** The network interfaces of a machine: their validation, the selections that rely
    on it, and the set-up that fills them in. */
module Network {
  import opened Text
  import opened CniUtil
  import opened Undo
  import opened HostSetup
  import VmConf
  import KernelArgs

  /** A net.IP; only IPv4 addresses have a To4 form. */
  datatype Address = V4(ip: IPv4) | NotV4

  datatype IPConfiguration = IPConfiguration(
    address: Address, mask: IPv4, gateway: Address, nameservers: seq<string>, ifName: string)

  datatype StaticConf = StaticConf(macAddress: string, hostDevName: string, ipConf: Option<IPConfiguration>)

  /** networkConfig: the name of a network configuration supplied in parsed form. */
  datatype CNIConf = CNIConf(
    networkName: string, networkConfig: Option<string>, ifName: string, vmIfName: string,
    binPath: seq<string>, confDir: string, cacheDir: Path,
    containerID: string, netNSPath: Path, force: bool)

  datatype NetworkInterface = NetworkInterface(staticConf: Option<StaticConf>, cni: Option<CNIConf>)

  // ---------- validation ----------

  datatype Reason =
    | NeitherGiven | BothGiven | NotAlone | IpArgTaken
    | NoNetwork | TwoNetworks
    | NoDevice | NotIPv4 | TooManyNameservers

  predicate HasIP(i: NetworkInterface) { i.staticConf.Some? && i.staticConf.value.ipConf.Some? }

  /** The interface will need the kernel's "ip=" parameter. */
  predicate NeedsIP(i: NetworkInterface) { i.cni.Some? || HasIP(i) }

  predicate GoodIP(ip: IPConfiguration) { ip.address.V4? && ip.gateway.V4? && |ip.nameservers| <= 2 }

  predicate GoodStatic(s: StaticConf) { s.hostDevName != "" && (s.ipConf.Some? ==> GoodIP(s.ipConf.value)) }

  predicate GoodCNI(c: CNIConf) { (c.networkName == "") != c.networkConfig.None? }

  /** CNIConfiguration.validate. */
  function CheckCNI(c: CNIConf): (r: Option<Reason>)
    ensures r.None? <==> ((c.networkName == "") != c.networkConfig.None?)
  {
    if c.networkName == "" && c.networkConfig.None? then Some(NoNetwork)
    else if c.networkName != "" && c.networkConfig.Some? then Some(TwoNetworks)
    else None
  }

  /** StaticNetworkConfiguration.validate. */
  function CheckStatic(s: StaticConf): (r: Option<Reason>)
    ensures r.None? <==>
            && s.hostDevName != ""
            && (s.ipConf.Some? ==>
                  var ip := s.ipConf.value; ip.address.V4? && ip.gateway.V4? && |ip.nameservers| <= 2)
  {
    if s.hostDevName == "" then Some(NoDevice)
    else
      match s.ipConf
      case None => None
      case Some(ip) =>
        if !ip.address.V4? || !ip.gateway.V4? then Some(NotIPv4)
        else if |ip.nameservers| > 2 then Some(TooManyNameservers)
        else None
  }

  /** Every interface is configured exactly one way and well, and an interface that
      needs "ip=" is alone with the parameter free. */
  ghost predicate Acceptable(ifs: seq<NetworkInterface>, args: KernelArgs.Args) {
    && (forall i :: 0 <= i < |ifs| ==>
          && ifs[i].cni.Some? != ifs[i].staticConf.Some?
          && (ifs[i].cni.Some? ==> GoodCNI(ifs[i].cni.value))
          && (ifs[i].staticConf.Some? ==> GoodStatic(ifs[i].staticConf.value)))
    && ((exists i :: 0 <= i < |ifs| && NeedsIP(ifs[i])) ==> |ifs| == 1 && "ip" !in args)
  }

  /** NetworkInterfaces.validate: the index and reason of the first interface refused. */
  method Validate(ifs: array<NetworkInterface>, args: KernelArgs.Args) returns (err: Option<(nat, Reason)>)
    ensures err.None? <==> Acceptable(ifs[..], args)
    ensures err.Some? ==> err.value.0 < ifs.Length
  {
    for i := 0 to ifs.Length
      invariant forall j :: 0 <= j < i ==>
                  && ifs[j].cni.Some? != ifs[j].staticConf.Some?
                  && (ifs[j].cni.Some? ==> GoodCNI(ifs[j].cni.value))
                  && (ifs[j].staticConf.Some? ==> GoodStatic(ifs[j].staticConf.value))
                  && (NeedsIP(ifs[j]) ==> ifs.Length == 1 && "ip" !in args)
    {
      var iface := ifs[i];
      assert ifs[..][i] == iface;
      if iface.cni.None? && iface.staticConf.None? {
        return Some((i, NeitherGiven));
      }
      if iface.cni.Some? && iface.staticConf.Some? {
        return Some((i, BothGiven));
      }
      if iface.cni.Some? || HasIP(iface) {
        if ifs.Length > 1 {
          return Some((i, NotAlone));
        }
        if "ip" in args {
          return Some((i, IpArgTaken));
        }
      }
      if iface.cni.Some? {
        var reason := CheckCNI(iface.cni.value);
        if reason.Some? {
          return Some((i, reason.value));
        }
      }
      if iface.staticConf.Some? {
        var reason := CheckStatic(iface.staticConf.value);
        if reason.Some? {
          return Some((i, reason.value));
        }
      }
    }
    err := None;
  }

  // ---------- first-match selection ----------

  function FirstFrom(ifs: seq<NetworkInterface>, p: NetworkInterface -> bool, k: nat): (r: Option<nat>)
    requires k <= |ifs|
    ensures r.Some? ==> k <= r.value < |ifs| && p(ifs[r.value]) && forall j :: k <= j < r.value ==> !p(ifs[j])
    ensures r.None? ==> forall j :: k <= j < |ifs| ==> !p(ifs[j])
    decreases |ifs| - k
  {
    if k == |ifs| then None else if p(ifs[k]) then Some(k) else FirstFrom(ifs, p, k + 1)
  }

  /** The first interface with CNI configuration. */
  function CniIndex(ifs: seq<NetworkInterface>): Option<nat> { FirstFrom(ifs, (n: NetworkInterface) => n.cni.Some?, 0) }

  /** The first interface with an IP configuration. */
  function StaticIPIndex(ifs: seq<NetworkInterface>): Option<nat> { FirstFrom(ifs, (n: NetworkInterface) => HasIP(n), 0) }

  method CniInterface(ifs: array<NetworkInterface>) returns (i: Option<nat>)
    ensures i == CniIndex(ifs[..])
    ensures i.Some? ==> i.value < ifs.Length && ifs[i.value].cni.Some?
    ensures forall j :: 0 <= j < (if i.Some? then i.value else ifs.Length) ==> ifs[j].cni.None?
  {
    for k := 0 to ifs.Length
      invariant forall j :: 0 <= j < k ==> ifs[j].cni.None?
    {
      if ifs[k].cni.Some? {
        assert ifs[..][k].cni.Some?;
        return Some(k);
      }
    }
    i := None;
  }

  method StaticIPInterface(ifs: array<NetworkInterface>) returns (i: Option<nat>)
    ensures i == StaticIPIndex(ifs[..])
    ensures i.Some? ==> i.value < ifs.Length && ifs[i.value].staticConf.Some? && ifs[i.value].staticConf.value.ipConf.Some?
    ensures forall j :: 0 <= j < (if i.Some? then i.value else ifs.Length) ==>
              ifs[j].staticConf.None? || ifs[j].staticConf.value.ipConf.None?
  {
    for k := 0 to ifs.Length
      invariant forall j :: 0 <= j < k ==> !HasIP(ifs[j])
    {
      if ifs[k].staticConf.None? {
        continue;
      }
      if ifs[k].staticConf.value.ipConf.Some? {
        assert HasIP(ifs[..][k]);
        return Some(k);
      }
    }
    i := None;
  }

  /** In an accepted list an interface with CNI or an IP configuration is the only interface,
      so "the first match" is the only one, and "ip" is free. */
  lemma {:induction false} SelectionUnambiguous(ifs: seq<NetworkInterface>, args: KernelArgs.Args, i: nat, j: nat)
    requires Acceptable(ifs, args) && i < |ifs| && j < |ifs|
    requires ifs[i].cni.Some? || (ifs[i].staticConf.Some? && ifs[i].staticConf.value.ipConf.Some?)
    ensures j == i && |ifs| == 1 && "ip" !in args
  {
    assert NeedsIP(ifs[i]);
  }

  // ---------- set-up ----------

  const DEFAULT_BIN_DIR := "/opt/cni/bin"
  const DEFAULT_CONF_DIR := "/etc/cni/conf.d"
  const DEFAULT_CACHE_DIR: Path := ["var", "lib", "cni"]

  function WithDefaults(c: CNIConf): CNIConf {
    c.(binPath := if c.binPath == [] then [DEFAULT_BIN_DIR] else c.binPath,
       confDir := if c.confDir == "" then DEFAULT_CONF_DIR else c.confDir,
       cacheDir := if c.cacheDir == [] then DEFAULT_CACHE_DIR + [c.containerID] else c.cacheDir)
  }

  function AttachmentOf(c: CNIConf): Attachment {
    Attachment(if c.networkConfig.Some? then c.networkConfig.value else c.networkName, c.containerID)
  }

  datatype SetupError = NetNSFailed(netns: NetNSError) | CNIFailed(cni: CNIError) | ConfFailed(conf: VmConf.ConfError)

  /** Everything the outside contributes to one set-up. */
  datatype Luck = Luck(netns: NetNSLuck, cni: CNILuck, result: CniResult, host: VmConf.HostAnswers)

  /** The static configuration made from a parsed CNI result: at most two nameservers. */
  function FromConf(conf: VmConf.StaticNetworkConf, vmIfName: string): StaticConf {
    StaticConf(conf.vmMacAddr, conf.tapName,
               Some(IPConfiguration(
                      V4(conf.vmIPConfig.address), conf.vmIPConfig.mask, V4(conf.vmIPConfig.gateway),
                      if |conf.vmNameservers| > 2 then conf.vmNameservers[..2] else conf.vmNameservers,
                      vmIfName)))
  }

  /** When setupNetwork succeeds for the interface it picked. */
  ghost predicate SetupGoes(i: NetworkInterface, w: World, vmID: string, netNSPath: Path, luck: Luck)
    requires i.cni.Some?
  {
    && NetNSGoes(w, netNSPath, luck.netns)
    && CNIGoes(i.cni.value.networkConfig.Some?, i.cni.value.force, luck.cni)
    && (i.staticConf.None? ==> VmConf.ConfGoes(luck.result, vmID, luck.host))
  }

  function NetNSErr(e: Option<SetupError>): Option<NetNSError> {
    if e.Some? && e.value.NetNSFailed? then Some(e.value.netns) else None
  }

  /** Where the cleanups of a set-up lead back to: the start, with the levels above the
      namespace that remain, and without a network of an earlier run once the delete that
      takes it away is registered. */
  function SetupBase(w: World, conf: CNIConf, e: Option<SetupError>, luck: Luck): World {
    var r := Remains(w, conf.netNSPath, NetNSErr(e), luck.netns.mkdirLevels);
    if Registers(w, conf, luck) then Detached(r, AttachmentOf(conf)) else r
  }

  predicate Registers(w: World, conf: CNIConf, luck: Luck) {
    NetNSGoes(w, conf.netNSPath, luck.netns) && CNIRegisters(conf.networkConfig.Some?, conf.force, luck.cni)
  }

  /** The netns and CNI part of setupNetwork. */
  method SetUpHost(host: Host, conf: CNIConf, luck: Luck) returns (err: Option<SetupError>, cleanups: seq<Cleanup>)
    requires WellFormed(host.world)
    modifies host
    ensures WellFormed(host.world)
    ensures GrownTowards(old(host.world), host.world, conf.netNSPath)
    ensures err.None? <==>
            NetNSGoes(old(host.world), conf.netNSPath, luck.netns) && CNIGoes(conf.networkConfig.Some?, conf.force, luck.cni)
    ensures err.None? ==> conf.netNSPath in host.world.mounts
    ensures err.None? ==> AttachmentOf(conf) in host.world.nets && host.world.nets[AttachmentOf(conf)] == Complete
    ensures err.Some? ==> !err.value.ConfFailed?
    ensures NamesWithin(old(host.world), conf.netNSPath, cleanups)
    ensures Unwinds(SetupBase(old(host.world), conf, err, luck), host.world, cleanups)
  {
    ghost var w0 := host.world;
    ghost var net := AttachmentOf(conf);
    cleanups := [];
    var netnsErr, netnsCleanups := InitializeNetNS(host, conf.netNSPath, luck.netns);
    cleanups := netnsCleanups;
    if netnsErr.Some? {
      return Some(NetNSFailed(netnsErr.value)), cleanups;
    }
    ghost var w1, base := host.world, Remains(w0, conf.netNSPath, None, luck.netns.mkdirLevels);
    var cniErr, cniCleanups := InvokeCNI(host, AttachmentOf(conf), conf.networkConfig.Some?, conf.force, luck.cni);
    if cniCleanups == [] {
      assert cleanups + cniCleanups == cleanups;
    } else {
      UnwindsDetached(base, w1, cleanups, net);
      UnwindsCompose(Detached(base, net), Detached(w1, net), host.world, cleanups, cniCleanups);
    }
    cleanups := cleanups + cniCleanups;
    err := if cniErr.Some? then Some(CNIFailed(cniErr.value)) else None;
  }

  /** s is what the CNI result says of the VM with this container ID: its MAC and its one
      IP, the tap's name, and the first two nameservers. */
  ghost predicate Says(result: CniResult, containerID: string, vmIfName: string, s: StaticConf) {
    exists v: nat, t: nat ::
      && PairAt(result.interfaces, containerID, v, t)
      && var ips := Filter(result.ips, PointsAt(v));
         && |ips| == 1
         && s.macAddress == result.interfaces[v].mac
         && s.hostDevName == result.interfaces[t].name
         && s.ipConf.Some?
         && var ip := s.ipConf.value;
            && ip.address == V4(ips[0].config.address) && ip.mask == ips[0].config.mask && ip.gateway == V4(ips[0].config.gateway)
            && ip.ifName == vmIfName
            && |ip.nameservers| <= 2 && ip.nameservers <= result.nameservers
            && (|result.nameservers| <= 2 ==> ip.nameservers == result.nameservers)
            && (|result.nameservers| > 2 ==> |ip.nameservers| == 2)
  }

  /** The user's settings stay, and what the user left empty gets its default. */
  predicate Completed(before: CNIConf, after: CNIConf, vmID: string, netNSPath: Path) {
    && after.containerID == vmID && after.netNSPath == netNSPath
    && after.binPath == (if before.binPath != [] then before.binPath else ["/opt/cni/bin"])
    && after.confDir == (if before.confDir != "" then before.confDir else "/etc/cni/conf.d")
    && after.cacheDir == (if before.cacheDir != [] then before.cacheDir else ["var", "lib", "cni", vmID])
    && after.networkName == before.networkName && after.networkConfig == before.networkConfig
    && after.ifName == before.ifName && after.vmIfName == before.vmIfName && after.force == before.force
  }

  lemma {:induction false} DefaultsComplete(c: CNIConf, vmID: string, netNSPath: Path)
    ensures Completed(c, WithDefaults(c.(containerID := vmID, netNSPath := netNSPath)), vmID, netNSPath)
  {
    assert ["var", "lib", "cni"] + [vmID] == ["var", "lib", "cni", vmID];
  }

  /** The container is attached to the network of the parsed configuration, or else to the
      one of the name. */
  predicate Connected(w: World, conf: CNIConf, containerID: string) {
    var net := Attachment(match conf.networkConfig case Some(name) => name case None => conf.networkName, containerID);
    net in w.nets && w.nets[net] == Complete
  }

  /** What setupNetwork makes of the interface it found. */
  ghost predicate Filled(before: NetworkInterface, after: NetworkInterface, vmID: string, netNSPath: Path, result: CniResult) {
    && before.cni.Some?
    && after.cni.Some? && Completed(before.cni.value, after.cni.value, vmID, netNSPath)
    && after.staticConf.Some?
    && (if before.staticConf.Some? then after.staticConf == before.staticConf
        else Says(result, vmID, before.cni.value.vmIfName, after.staticConf.value))
  }

  /** The CNI configuration as set-up completes it. */
  function ConfOf(i: NetworkInterface, vmID: string, netNSPath: Path): CNIConf
    requires i.cni.Some?
  {
    i.cni.value.(containerID := vmID, netNSPath := netNSPath)
  }

  /** The CNI result parsed, and made a static configuration. */
  method ReadResult(result: CniResult, vmID: string, vmIfName: string, host: VmConf.HostAnswers)
    returns (err: Option<SetupError>, s: Option<StaticConf>)
    requires IndicesInRange(result)
    ensures err.None? <==> VmConf.ConfGoes(result, vmID, host)
    ensures err.None? ==> s.Some? && Says(result, vmID, vmIfName, s.value)
    ensures err.Some? ==> err.value.ConfFailed?
  {
    var r := VmConf.StaticNetworkConfFrom(result, vmID, host);
    if r.ConfFailed? {
      return Some(ConfFailed(r.error)), None;
    }
    ghost var v: nat, t: nat :| PairAt(result.interfaces, vmID, v, t) && |Filter(result.ips, PointsAt(v))| == 1;
    err, s := None, Some(FromConf(r.conf, vmIfName));
    assert Says(result, vmID, vmIfName, s.value);
  }

  /** setupNetwork. */
  method SetupNetwork(ifs: array<NetworkInterface>, host: Host, vmID: string, netNSPath: Path, luck: Luck)
    returns (err: Option<SetupError>, cleanups: seq<Cleanup>)
    requires WellFormed(host.world) && IndicesInRange(luck.result)
    modifies ifs, host
    ensures WellFormed(host.world)
    ensures GrownTowards(old(host.world), host.world, netNSPath)
    // only the first interface with CNI changes; without one there is nothing to do
    ensures var at := CniIndex(old(ifs[..]));
            forall j :: 0 <= j < ifs.Length && at != Some(j) ==> ifs[j] == old(ifs[j])
    ensures CniIndex(old(ifs[..])).None? ==> err.None? && cleanups == [] && host.world == old(host.world)
    ensures var at := CniIndex(old(ifs[..]));
            at.Some? ==> (err.None? <==> SetupGoes(old(ifs[..])[at.value], old(host.world), vmID, netNSPath, luck))
    // success fills that interface in and leaves a namespace and a complete network
    ensures var at := CniIndex(old(ifs[..]));
            at.Some? && err.None? ==>
              && Filled(old(ifs[..])[at.value], ifs[at.value], vmID, netNSPath, luck.result)
              && netNSPath in host.world.mounts
              && Connected(host.world, old(ifs[..])[at.value].cni.value, vmID)
    ensures var at := CniIndex(old(ifs[..]));
            at.Some? && err.Some? ==> ifs[at.value].staticConf == old(ifs[..])[at.value].staticConf
    // at every failure point, and after success, the cleanups unwind to where set-up began,
    // but for levels above the namespace path and a network of an earlier run
    ensures NamesWithin(old(host.world), netNSPath, cleanups)
    ensures var at := CniIndex(old(ifs[..]));
            at.Some? ==>
              Unwinds(SetupBase(old(host.world), ConfOf(old(ifs[..])[at.value], vmID, netNSPath), err, luck), host.world, cleanups)
  {
    cleanups := [];
    err := None;
    var at := CniInterface(ifs);
    if at.None? {
      return;
    }
    var i := at.value;
    ghost var before := ifs[i];
    var conf := WithDefaults(ifs[i].cni.value.(containerID := vmID, netNSPath := netNSPath));
    DefaultsComplete(before.cni.value, vmID, netNSPath);
    assert forall e :: SetupBase(host.world, conf, e, luck) == SetupBase(host.world, ConfOf(before, vmID, netNSPath), e, luck);
    ifs[i] := ifs[i].(cni := Some(conf));
    err, cleanups := SetUpHost(host, conf, luck);
    if err.Some? {
      return;
    }
    if ifs[i].staticConf.None? {
      var s;
      err, s := ReadResult(luck.result, vmID, conf.vmIfName, luck.host);
      if err.Some? {
        return;
      }
      ifs[i] := ifs[i].(staticConf := s);
    }
    assert Filled(before, ifs[i], vmID, netNSPath, luck.result);
  }

  // ---------- what the later handlers rely on ----------

  datatype AttachError = NilState(iface: nat) | Api(iface: nat)

  /** createNetworkInterfaces: `refused` is the first interface the API refuses, if any. */
  method CreateNetworkInterfaces(ifs: array<NetworkInterface>, refused: Option<nat>) returns (err: Option<AttachError>)
    ensures (forall i :: 0 <= i < ifs.Length ==> ifs[i].staticConf.Some?) ==> err.None? || err.value.Api?
    ensures err.Some? && err.value.NilState? ==>
              err.value.iface < ifs.Length && ifs[err.value.iface].staticConf.None?
    ensures err.Some? && err.value.Api? ==> refused == Some(err.value.iface) && err.value.iface < ifs.Length
    ensures err.None? ==> forall i :: 0 <= i < ifs.Length ==> ifs[i].staticConf.Some? && refused != Some(i)
  {
    for i := 0 to ifs.Length
      invariant forall j :: 0 <= j < i ==> ifs[j].staticConf.Some? && refused != Some(j)
    {
      if ifs[i].staticConf.None? {
        return Some(NilState(i));
      }
      if refused == Some(i) {
        return Some(Api(i));
      }
    }
    err := None;
  }

  /** After set-up every interface of an accepted list has a static configuration, with
      at most two nameservers where there is an IP configuration. */
  ghost predicate Ready4Boot(ifs: seq<NetworkInterface>) {
    forall i :: 0 <= i < |ifs| ==>
      ifs[i].staticConf.Some? && (HasIP(ifs[i]) ==> GoodIP(ifs[i].staticConf.value.ipConf.value))
  }
}
