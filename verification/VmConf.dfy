/** The network configuration read from a CNI result, and the kernel's "ip=" parameter it prints as. */
module VmConf {
  import opened Text
  import opened CniUtil
  import KernelArgs

  datatype StaticNetworkConf = StaticNetworkConf(
    tapName: string, netNSPath: string, vmIfName: string, vmMacAddr: string, vmMTU: int,
    vmIPConfig: IPConfig, vmRoutes: seq<Route>, vmNameservers: seq<string>, vmDomain: string,
    vmSearchDomains: seq<string>, vmResolverOptions: seq<string>)

  // ---------- printing ----------

  /** net.IP.String of an IPv4 address, and "%d.%d.%d.%d" of a mask. */
  function Dotted(ip: IPv4): string {
    Join(Octets(ip), '.')
  }

  function Octets(ip: IPv4): seq<string> {
    [Decimal(ip.a), Decimal(ip.b), Decimal(ip.c), Decimal(ip.d)]
  }

  /** Entry i of the two-slot array the nameservers are copied into. */
  function Nameserver(names: seq<string>, i: nat): string {
    if i < |names| then names[i] else ""
  }

  function BootFields(ip: IPConfig, device: string, nameservers: seq<string>): (fields: seq<string>)
    ensures |fields| == 10
  {
    [Dotted(ip.address), "", Dotted(ip.gateway), Dotted(ip.mask), "", device, "off",
     Nameserver(nameservers, 0), Nameserver(nameservers, 1), ""]
  }

  function IPBootParam(c: StaticNetworkConf): string {
    Join(BootFields(c.vmIPConfig, c.vmIfName, c.vmNameservers), ':')
  }

  // ---------- reading ----------

  /** The ten fields of "ip=", named as the kernel's nfsroot documentation names them. */
  datatype BootParam = BootParam(
    clientIP: IPv4, serverIP: string, gatewayIP: IPv4, netmask: IPv4, hostname: string,
    device: string, autoconf: string, dns0: string, dns1: string, ntp0: string)

  function ReadByte(s: string): Option<Byte> {
    match Atoi(s)
    case Some(n) => if 0 <= n < 256 then Some(n) else None
    case None => None
  }

  function ReadDotted(s: string): Option<IPv4> {
    var parts := Split(s, '.');
    if |parts| != 4 then None
    else
      match (ReadByte(parts[0]), ReadByte(parts[1]), ReadByte(parts[2]), ReadByte(parts[3]))
      case (Some(a), Some(b), Some(c), Some(d)) => Some(IPv4(a, b, c, d))
      case _ => None
  }

  /** How the kernel splits the value: on colons, by position. */
  function ReadBootParam(s: string): Option<BootParam> {
    var f := Split(s, ':');
    if |f| != 10 then None
    else
      match (ReadDotted(f[0]), ReadDotted(f[2]), ReadDotted(f[3]))
      case (Some(client), Some(gateway), Some(mask)) =>
        Some(BootParam(client, f[1], gateway, mask, f[4], f[5], f[6], f[7], f[8], f[9]))
      case _ => None
  }

  // ---------- decodability ----------

  lemma {:induction false} DigitsOnly(n: nat)
    ensures '.' !in Decimal(n) && ':' !in Decimal(n) && KernelArgs.NoSpace(Decimal(n))
  {
    forall i | 0 <= i < |Decimal(n)|
      ensures Decimal(n)[i] != '.' && Decimal(n)[i] != ':' && !KernelArgs.IsSpace(Decimal(n)[i])
    {
      assert IsDigit(Decimal(n)[i]);
    }
  }

  lemma {:induction false} ByteReads(n: Byte)
    ensures ReadByte(Decimal(n)) == Some(n)
  {
    AtoiItoa(n);
  }

  /** The four bytes stand in the text in order, in decimal between dots. */
  lemma {:induction false} DottedReads(ip: IPv4)
    ensures ReadDotted(Dotted(ip)) == Some(ip)
    ensures Split(Dotted(ip), '.') == [Decimal(ip.a), Decimal(ip.b), Decimal(ip.c), Decimal(ip.d)]
  {
    DigitsOnly(ip.a); DigitsOnly(ip.b); DigitsOnly(ip.c); DigitsOnly(ip.d);
    SplitJoin(Octets(ip), '.');
    ByteReads(ip.a); ByteReads(ip.b); ByteReads(ip.c); ByteReads(ip.d);
  }

  lemma {:induction false} JoinFour(a: string, b: string, c: string, d: string, sep: char)
    ensures Join([a, b, c, d], sep) == a + [sep] + (b + [sep] + (c + [sep] + d))
  {
    assert [c, d][1..] == [d];
    assert Join([c, d], sep) == c + [sep] + d;
    assert [b, c, d][1..] == [c, d];
    assert Join([b, c, d], sep) == b + [sep] + (c + [sep] + d);
    assert [a, b, c, d][1..] == [b, c, d];
  }

  /** A dotted address holds neither a colon nor white space. */
  lemma {:induction false} DottedIsPlain(ip: IPv4)
    ensures ':' !in Dotted(ip) && KernelArgs.NoSpace(Dotted(ip))
  {
    DigitsOnly(ip.a); DigitsOnly(ip.b); DigitsOnly(ip.c); DigitsOnly(ip.d);
    JoinFour(Decimal(ip.a), Decimal(ip.b), Decimal(ip.c), Decimal(ip.d), '.');
  }

  predicate ColonFree(c: StaticNetworkConf) {
    ':' !in c.vmIfName && forall i :: 0 <= i < 2 && i < |c.vmNameservers| ==> ':' !in c.vmNameservers[i]
  }

  function Meaning(c: StaticNetworkConf): BootParam {
    var ns := c.vmNameservers;
    BootParam(c.vmIPConfig.address, "", c.vmIPConfig.gateway, c.vmIPConfig.mask, "", c.vmIfName, "off",
              if |ns| > 0 then ns[0] else "", if |ns| > 1 then ns[1] else "", "")
  }

  /** Saying something of the two slots is saying it of the first two nameservers. */
  lemma {:induction false} TwoSlots(names: seq<string>)
    ensures (forall i :: 0 <= i < 2 && i < |names| ==> ':' !in names[i]) <==>
            ':' !in Nameserver(names, 0) && ':' !in Nameserver(names, 1)
    ensures (forall i :: 0 <= i < 2 && i < |names| ==> KernelArgs.NoSpace(names[i])) <==>
            KernelArgs.NoSpace(Nameserver(names, 0)) && KernelArgs.NoSpace(Nameserver(names, 1))
  {
  }

  lemma {:induction false} FieldsColonFree(c: StaticNetworkConf)
    ensures var f := BootFields(c.vmIPConfig, c.vmIfName, c.vmNameservers);
            ColonFree(c) <==> forall i :: 0 <= i < |f| ==> ':' !in f[i]
  {
    var f := BootFields(c.vmIPConfig, c.vmIfName, c.vmNameservers);
    TwoSlots(c.vmNameservers);
    DottedIsPlain(c.vmIPConfig.address);
    DottedIsPlain(c.vmIPConfig.gateway);
    DottedIsPlain(c.vmIPConfig.mask);
    if !ColonFree(c) {
      assert ':' in f[5] || ':' in f[7] || ':' in f[8];
    }
  }

  /** The printed value is read back field by field, addresses to the byte, and holds
      exactly the first two nameservers, when and only when the device and those
      nameservers hold no colon. */
  lemma {:induction false} BootParamDecodes(c: StaticNetworkConf)
    ensures ReadBootParam(IPBootParam(c)) == Some(Meaning(c)) <==> ColonFree(c)
    ensures |Split(IPBootParam(c), ':')| == 10 <==> ColonFree(c)
  {
    var f := BootFields(c.vmIPConfig, c.vmIfName, c.vmNameservers);
    FieldsColonFree(c);
    SplitJoinIff(f, ':');
    if ColonFree(c) {
      SplitJoin(f, ':');
      DottedReads(c.vmIPConfig.address);
      DottedReads(c.vmIPConfig.gateway);
      DottedReads(c.vmIPConfig.mask);
    }
  }

  /** Two configurations that print alike configure the VM alike. */
  lemma {:induction false} BootParamInjective(c: StaticNetworkConf, d: StaticNetworkConf)
    requires ColonFree(c) && ColonFree(d) && IPBootParam(c) == IPBootParam(d)
    ensures Meaning(c) == Meaning(d)
  {
    BootParamDecodes(c);
    BootParamDecodes(d);
  }

  lemma {:induction false} JoinPlain(parts: seq<string>, sep: char)
    requires !KernelArgs.IsSpace(sep)
    ensures KernelArgs.NoSpace(Join(parts, sep)) <==> forall i :: 0 <= i < |parts| ==> KernelArgs.NoSpace(parts[i])
  {
    if |parts| > 1 {
      JoinPlain(parts[1..], sep);
      var rest := Join(parts[1..], sep);
      var all := Join(parts, sep);
      assert all == parts[0] + [sep] + rest;
      assert forall k :: 0 <= k < |rest| ==> rest[k] == all[|parts[0]| + 1 + k];
      assert forall k :: 0 <= k < |parts[0]| ==> parts[0][k] == all[k];
      assert forall i :: 0 < i < |parts| ==> parts[i] == parts[1..][i - 1];
      assert forall i :: 0 <= i < |parts[1..]| ==> parts[1..][i] == parts[i + 1];
    }
  }

  /** The value can stand on a kernel command line exactly when the user's strings can. */
  lemma {:induction false} BootParamIsWord(c: StaticNetworkConf)
    ensures KernelArgs.NoSpace(IPBootParam(c)) <==>
            && KernelArgs.NoSpace(c.vmIfName)
            && forall i :: 0 <= i < 2 && i < |c.vmNameservers| ==> KernelArgs.NoSpace(c.vmNameservers[i])
  {
    var f := BootFields(c.vmIPConfig, c.vmIfName, c.vmNameservers);
    TwoSlots(c.vmNameservers);
    DottedIsPlain(c.vmIPConfig.address);
    DottedIsPlain(c.vmIPConfig.gateway);
    DottedIsPlain(c.vmIPConfig.mask);
    JoinPlain(f, ':');
    assert f[5] == c.vmIfName && f[7] == Nameserver(c.vmNameservers, 0) && f[8] == Nameserver(c.vmNameservers, 1);
  }

  // ---------- from a CNI result ----------

  datatype ConfError = NotConvertible | NoPair(cause: PairError) | NotOneIP(count: nat) | NoNetNS | NoMTU

  datatype ConfResult = Conf(conf: StaticNetworkConf) | ConfFailed(error: ConfError)

  /** What the host answers while the result is converted: whether it parses, whether
      the tap's sandbox is a netns, and the tap's MTU if it can be found. */
  datatype HostAnswers = HostAnswers(convertible: bool, netnsFound: bool, mtu: Option<int>)

  /** When a result can be converted: it names one VM interface, one tap and one IP of that interface. */
  ghost predicate ConfGoes(result: CniResult, containerID: string, host: HostAnswers) {
    && host.convertible && host.netnsFound && host.mtu.Some?
    && exists v: nat, t: nat :: PairAt(result.interfaces, containerID, v, t) && |Filter(result.ips, PointsAt(v))| == 1
  }

  method StaticNetworkConfFrom(result: CniResult, containerID: string, host: HostAnswers) returns (r: ConfResult)
    requires IndicesInRange(result)
    ensures r.Conf? <==> ConfGoes(result, containerID, host)
    ensures r.Conf? ==> forall v: nat, t: nat :: PairAt(result.interfaces, containerID, v, t) ==>
              && |Filter(result.ips, PointsAt(v))| == 1
              && r.conf == StaticNetworkConf(
                   result.interfaces[t].name, result.interfaces[t].sandbox, "", result.interfaces[v].mac, host.mtu.value,
                   Filter(result.ips, PointsAt(v))[0].config, result.routes, result.nameservers, result.domain,
                   result.search, result.options)
  {
    if !host.convertible {
      return ConfFailed(NotConvertible);
    }
    var pair := VMTapPair(result, containerID);
    TapPairIff(result.interfaces, containerID);
    if pair.PairFailed? {
      return ConfFailed(NoPair(pair.error));
    }
    var ips := InterfaceIPs(result, pair.vm.name, pair.vm.sandbox);
    forall v: nat, t: nat | PairAt(result.interfaces, containerID, v, t)
      ensures ips == Filter(result.ips, PointsAt(v))
    {
      VMInterfaceIPs(result, containerID, v);
    }
    if |ips| != 1 {
      return ConfFailed(NotOneIP(|ips|));
    }
    if !host.netnsFound {
      return ConfFailed(NoNetNS);
    }
    if host.mtu.None? {
      return ConfFailed(NoMTU);
    }
    r := Conf(StaticNetworkConf(
                pair.tap.name, pair.tap.sandbox, "", pair.vm.mac, host.mtu.value, ips[0].config, result.routes,
                result.nameservers, result.domain, result.search, result.options));
  }
}
