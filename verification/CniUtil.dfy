/** Finding the VM's interface, its tap device and its addresses in a CNI result. */
module CniUtil {
  import opened Text

  datatype Interface = Interface(name: string, mac: string, sandbox: string)

  type Byte = n: nat | n < 256

  /** An IPv4 address, or a mask, as its four bytes. */
  datatype IPv4 = IPv4(a: Byte, b: Byte, c: Byte, d: Byte)

  datatype IPConfig = IPConfig(address: IPv4, mask: IPv4, gateway: IPv4)

  /** An IP of a CNI result with the index of the interface it belongs to, if any. */
  datatype ResultIP = ResultIP(iface: Option<nat>, config: IPConfig)

  datatype Route = Route(destination: string, gateway: string)

  datatype CniResult = CniResult(
    interfaces: seq<Interface>, ips: seq<ResultIP>, routes: seq<Route>,
    nameservers: seq<string>, domain: string, search: seq<string>, options: seq<string>)

  // ---------- filters ----------

  /** The elements satisfying p, in order. */
  function Filter<T>(xs: seq<T>, p: T -> bool): seq<T> {
    if xs == [] then []
    else
      var n := |xs| - 1;
      Filter(xs[..n], p) + if p(xs[n]) then [xs[n]] else []
  }

  /** The positions of those elements, in order. */
  function Positions<T>(xs: seq<T>, p: T -> bool): (r: seq<nat>)
    ensures forall k :: 0 <= k < |r| ==> r[k] < |xs| && p(xs[r[k]])
    ensures forall j, k :: 0 <= j < k < |r| ==> r[j] < r[k]
    ensures forall i :: 0 <= i < |xs| && p(xs[i]) ==> i in r
  {
    if xs == [] then []
    else
      var n := |xs| - 1;
      Positions(xs[..n], p) + if p(xs[n]) then [n] else []
  }

  /** A filter keeps exactly the satisfying elements and keeps them in order. */
  lemma {:induction false} FilterStable<T>(xs: seq<T>, p: T -> bool)
    ensures |Filter(xs, p)| == |Positions(xs, p)|
    ensures forall k :: 0 <= k < |Positions(xs, p)| ==> Filter(xs, p)[k] == xs[Positions(xs, p)[k]]
  {
    if xs != [] {
      FilterStable(xs[..|xs| - 1], p);
    }
  }

  lemma {:induction false} FilterCounts<T>(xs: seq<T>, p: T -> bool, e: T)
    ensures multiset(Filter(xs, p))[e] == if p(e) then multiset(xs)[e] else 0
  {
    if xs != [] {
      var n := |xs| - 1;
      FilterCounts(xs[..n], p, e);
      assert xs == xs[..n] + [xs[n]];
    }
  }

  /** The elements kept do not depend on the order of the list. */
  lemma {:induction false} FilterPermutes<T>(xs: seq<T>, ys: seq<T>, p: T -> bool)
    requires multiset(xs) == multiset(ys)
    ensures multiset(Filter(xs, p)) == multiset(Filter(ys, p))
    ensures |Filter(xs, p)| == |Filter(ys, p)|
    ensures |Filter(xs, p)| == 1 ==> Filter(xs, p) == Filter(ys, p)
  {
    var fx, fy := Filter(xs, p), Filter(ys, p);
    forall e
      ensures multiset(fx)[e] == multiset(fy)[e]
    {
      FilterCounts(xs, p, e);
      FilterCounts(ys, p, e);
    }
    SameContents(fx, fy);
  }

  lemma {:induction false} SameContents<T>(a: seq<T>, b: seq<T>)
    requires forall e :: multiset(a)[e] == multiset(b)[e]
    ensures multiset(a) == multiset(b) && |a| == |b|
    ensures |a| == 1 ==> a == b
  {
    assert multiset(a) == multiset(b);
    assert |multiset(a)| == |a| && |multiset(b)| == |b|;
    if |a| == 1 {
      assert b[0] in multiset(a);
    }
  }

  lemma {:induction false} FilterTwice<T(!new)>(xs: seq<T>, p: T -> bool, q: T -> bool, both: T -> bool)
    requires forall x :: both(x) == (p(x) && q(x))
    ensures Filter(Filter(xs, p), q) == Filter(xs, both)
  {
    if xs != [] {
      var n := |xs| - 1;
      FilterTwice(xs[..n], p, q, both);
      if p(xs[n]) {
        assert Filter(xs, p)[..|Filter(xs, p)| - 1] == Filter(xs[..n], p);
      } else {
        assert Filter(xs, p) == Filter(xs[..n], p);
      }
    }
  }

  /** Position i is the only one satisfying p. */
  predicate Sole<T(!new)>(xs: seq<T>, p: T -> bool, i: nat) {
    i < |xs| && p(xs[i]) && forall j :: 0 <= j < |xs| && p(xs[j]) ==> j == i
  }

  lemma {:induction false} FirstTwo(at: seq<nat>)
    requires |at| >= 2 && forall j, k :: 0 <= j < k < |at| ==> at[j] < at[k]
    ensures at[0] != at[1]
  {
  }

  lemma {:induction false} OnlyOne(at: seq<nat>, i: nat)
    requires i in at && forall k :: 0 <= k < |at| ==> at[k] == i
    requires forall j, k :: 0 <= j < k < |at| ==> at[j] < at[k]
    ensures at == [i]
  {
    if |at| >= 2 {
      FirstTwo(at);
      assert false;
    }
  }

  lemma {:induction false} SoleIsOnly<T(!new)>(xs: seq<T>, p: T -> bool, i: nat)
    requires Sole(xs, p, i)
    ensures |Positions(xs, p)| == 1 && Filter(xs, p) == [xs[i]]
  {
    FilterStable(xs, p);
    var at := Positions(xs, p);
    assert i in at;
    forall k | 0 <= k < |at|
      ensures at[k] == i
    {
      assert p(xs[at[k]]);
    }
    OnlyOne(at, i);
  }

  lemma {:induction false} SingleIffSole<T(!new)>(xs: seq<T>, p: T -> bool)
    ensures |Filter(xs, p)| == 1 <==> exists i: nat :: Sole(xs, p, i)
    ensures forall i: nat :: Sole(xs, p, i) ==> Filter(xs, p) == [xs[i]]
    ensures |Filter(xs, p)| == 0 <==> forall i :: 0 <= i < |xs| ==> !p(xs[i])
  {
    FilterStable(xs, p);
    var at := Positions(xs, p);
    if |at| == 1 {
      assert Sole(xs, p, at[0]);
    }
    forall i: nat | Sole(xs, p, i)
      ensures |at| == 1 && Filter(xs, p) == [xs[i]]
    {
      SoleIsOnly(xs, p, i);
    }
    if i: nat :| Sole(xs, p, i) {
      assert |Filter(xs, p)| == 1;
    }
    if |at| == 0 {
      assert forall i :: 0 <= i < |xs| && p(xs[i]) ==> i in at;
    } else {
      assert p(xs[at[0]]);
    }
  }

  function InSandbox(sandbox: string): Interface -> bool { (i: Interface) => i.sandbox == sandbox }
  function Outside(sandbox: string): Interface -> bool { (i: Interface) => i.sandbox != sandbox }
  function Named(name: string): Interface -> bool { (i: Interface) => i.name == name }
  function TapFor(sandbox: string, name: string): Interface -> bool {
    (i: Interface) => Outside(sandbox)(i) && Named(name)(i)
  }

  /** A stable partition by sandbox. */
  method FilterBySandbox(sandbox: string, ifaces: seq<Interface>) returns (inside: seq<Interface>, outside: seq<Interface>)
    ensures inside == Filter(ifaces, InSandbox(sandbox))
    ensures outside == Filter(ifaces, Outside(sandbox))
  {
    inside, outside := [], [];
    for k := 0 to |ifaces|
      invariant inside == Filter(ifaces[..k], InSandbox(sandbox))
      invariant outside == Filter(ifaces[..k], Outside(sandbox))
    {
      assert ifaces[..k + 1][..k] == ifaces[..k];
      if ifaces[k].sandbox == sandbox {
        inside := inside + [ifaces[k]];
      } else {
        outside := outside + [ifaces[k]];
      }
    }
    assert ifaces[..|ifaces|] == ifaces;
  }

  /** The two lists hold between them exactly the interfaces given, each in its place. */
  lemma {:induction false} PartitionBySandbox(sandbox: string, ifaces: seq<Interface>)
    ensures multiset(Filter(ifaces, InSandbox(sandbox))) + multiset(Filter(ifaces, Outside(sandbox))) == multiset(ifaces)
  {
    forall e
      ensures (multiset(Filter(ifaces, InSandbox(sandbox))) + multiset(Filter(ifaces, Outside(sandbox))))[e] == multiset(ifaces)[e]
    {
      FilterCounts(ifaces, InSandbox(sandbox), e);
      FilterCounts(ifaces, Outside(sandbox), e);
    }
  }

  method IfacesWithName(name: string, ifaces: seq<Interface>) returns (found: seq<Interface>)
    ensures found == Filter(ifaces, Named(name))
  {
    found := [];
    for k := 0 to |ifaces|
      invariant found == Filter(ifaces[..k], Named(name))
    {
      assert ifaces[..k + 1][..k] == ifaces[..k];
      if ifaces[k].name == name {
        found := found + [ifaces[k]];
      }
    }
    assert ifaces[..|ifaces|] == ifaces;
  }

  // ---------- the VM's interface and its tap ----------

  datatype PairError = ManyInSandbox(count: nat) | NoPseudoDevice | ManyTaps(count: nat) | NoTap

  datatype PairResult = Pair(vm: Interface, tap: Interface) | PairFailed(error: PairError)

  /** What VMTapPair answers, read off the two filtered lists. */
  function TapPair(ifaces: seq<Interface>, vmID: string): PairResult {
    var vms := Filter(ifaces, InSandbox(vmID));
    if |vms| > 1 then PairFailed(ManyInSandbox(|vms|))
    else if |vms| == 0 then PairFailed(NoPseudoDevice)
    else
      var taps := Filter(ifaces, TapFor(vmID, vms[0].name));
      if |taps| > 1 then PairFailed(ManyTaps(|taps|))
      else if |taps| == 0 then PairFailed(NoTap)
      else Pair(vms[0], taps[0])
  }

  method VMTapPair(result: CniResult, vmID: string) returns (r: PairResult)
    ensures r == TapPair(result.interfaces, vmID)
  {
    var vms, others := FilterBySandbox(vmID, result.interfaces);
    if |vms| > 1 {
      return PairFailed(ManyInSandbox(|vms|));
    } else if |vms| == 0 {
      return PairFailed(NoPseudoDevice);
    }
    var vm := vms[0];
    var taps := IfacesWithName(vm.name, others);
    NamedOutside(result.interfaces, vmID, vm.name);
    if |taps| > 1 {
      return PairFailed(ManyTaps(|taps|));
    } else if |taps| == 0 {
      return PairFailed(NoTap);
    }
    return Pair(vm, taps[0]);
  }

  lemma {:induction false} NamedOutside(ifaces: seq<Interface>, vmID: string, name: string)
    ensures Filter(Filter(ifaces, Outside(vmID)), Named(name)) == Filter(ifaces, TapFor(vmID, name))
  {
    FilterTwice(ifaces, Outside(vmID), Named(name), TapFor(vmID, name));
  }

  lemma {:induction false} FilterSame<T(!new)>(xs: seq<T>, p: T -> bool, q: T -> bool)
    requires forall x :: p(x) == q(x)
    ensures Filter(xs, p) == Filter(xs, q)
  {
    if xs != [] {
      FilterSame(xs[..|xs| - 1], p, q);
    }
  }

  /** v is the one interface in the VM's sandbox and t the one outside it with v's name. */
  ghost predicate PairAt(ifaces: seq<Interface>, vmID: string, v: nat, t: nat) {
    && v < |ifaces| && t < |ifaces|
    && (forall j :: 0 <= j < |ifaces| ==> (ifaces[j].sandbox == vmID <==> j == v))
    && (forall j :: 0 <= j < |ifaces| ==> (ifaces[j].sandbox != vmID && ifaces[j].name == ifaces[v].name <==> j == t))
  }

  lemma {:induction false} PairIsSole(ifaces: seq<Interface>, vmID: string, v: nat, t: nat)
    ensures PairAt(ifaces, vmID, v, t) <==>
            Sole(ifaces, InSandbox(vmID), v) && Sole(ifaces, TapFor(vmID, ifaces[v].name), t)
  {
    SoleMeans(ifaces, InSandbox(vmID), v);
    assert forall i :: InSandbox(vmID)(i) <==> i.sandbox == vmID;
    if v < |ifaces| {
      SoleMeans(ifaces, TapFor(vmID, ifaces[v].name), t);
      forall i: Interface
        ensures TapFor(vmID, ifaces[v].name)(i) <==> i.sandbox != vmID && i.name == ifaces[v].name
      {
        assert Outside(vmID)(i) <==> i.sandbox != vmID;
        assert Named(ifaces[v].name)(i) <==> i.name == ifaces[v].name;
      }
    }
  }

  lemma {:induction false} SoleMeans<T(!new)>(xs: seq<T>, p: T -> bool, i: nat)
    ensures Sole(xs, p, i) <==> i < |xs| && forall j :: 0 <= j < |xs| ==> (p(xs[j]) <==> j == i)
  {
  }

  /** VMTapPair succeeds exactly when there is one such pair, and then returns it. */
  lemma {:induction false} TapPairIff(ifaces: seq<Interface>, vmID: string)
    ensures TapPair(ifaces, vmID).Pair? <==> exists v: nat, t: nat :: PairAt(ifaces, vmID, v, t)
    ensures forall v: nat, t: nat :: PairAt(ifaces, vmID, v, t) ==> TapPair(ifaces, vmID) == Pair(ifaces[v], ifaces[t])
  {
    SingleIffSole(ifaces, InSandbox(vmID));
    forall v: nat, t: nat | PairAt(ifaces, vmID, v, t)
      ensures TapPair(ifaces, vmID) == Pair(ifaces[v], ifaces[t])
    {
      PairIsSole(ifaces, vmID, v, t);
      SingleIffSole(ifaces, TapFor(vmID, ifaces[v].name));
    }
    if TapPair(ifaces, vmID).Pair? {
      var v: nat :| Sole(ifaces, InSandbox(vmID), v);
      SingleIffSole(ifaces, TapFor(vmID, ifaces[v].name));
      var t: nat :| Sole(ifaces, TapFor(vmID, ifaces[v].name), t);
      PairIsSole(ifaces, vmID, v, t);
    }
  }

  /** Success, result and error do not depend on the order of the interfaces. */
  lemma {:induction false} TapPairPermutes(xs: seq<Interface>, ys: seq<Interface>, vmID: string)
    requires multiset(xs) == multiset(ys)
    ensures TapPair(xs, vmID) == TapPair(ys, vmID)
  {
    FilterPermutes(xs, ys, InSandbox(vmID));
    var vms := Filter(xs, InSandbox(vmID));
    if |vms| == 1 {
      FilterPermutes(xs, ys, TapFor(vmID, vms[0].name));
    }
  }

  // ---------- the VM's addresses ----------

  /** Go panics on an interface index outside the list. */
  predicate IndicesInRange(result: CniResult) {
    forall k :: 0 <= k < |result.ips| && result.ips[k].iface.Some? ==> result.ips[k].iface.value < |result.interfaces|
  }

  function BelongsTo(interfaces: seq<Interface>, name: string, sandbox: string): ResultIP -> bool {
    (ip: ResultIP) =>
      && ip.iface.Some? && ip.iface.value < |interfaces|
      && interfaces[ip.iface.value].name == name && interfaces[ip.iface.value].sandbox == sandbox
  }

  function PointsAt(v: nat): ResultIP -> bool { (ip: ResultIP) => ip.iface == Some(v) }

  method InterfaceIPs(result: CniResult, name: string, sandbox: string) returns (ips: seq<ResultIP>)
    requires IndicesInRange(result)
    ensures ips == Filter(result.ips, BelongsTo(result.interfaces, name, sandbox))
  {
    ips := [];
    for k := 0 to |result.ips|
      invariant ips == Filter(result.ips[..k], BelongsTo(result.interfaces, name, sandbox))
    {
      assert result.ips[..k + 1][..k] == result.ips[..k];
      var ip := result.ips[k];
      if ip.iface.Some? {
        var iface := result.interfaces[ip.iface.value];
        if iface.name == name && iface.sandbox == sandbox {
          ips := ips + [ip];
        }
      }
    }
    assert result.ips[..|result.ips|] == result.ips;
  }

  /** For the VM interface VMTapPair found, InterfaceIPs is exactly the IPs whose
      index points at it, in order. */
  lemma {:induction false} VMInterfaceIPs(result: CniResult, vmID: string, v: nat)
    requires v < |result.interfaces|
    requires forall j :: 0 <= j < |result.interfaces| ==> (result.interfaces[j].sandbox == vmID <==> j == v)
    ensures var vm := result.interfaces[v];
            Filter(result.ips, BelongsTo(result.interfaces, vm.name, vm.sandbox)) == Filter(result.ips, PointsAt(v))
  {
    var vm := result.interfaces[v];
    forall ip: ResultIP
      ensures BelongsTo(result.interfaces, vm.name, vm.sandbox)(ip) == PointsAt(v)(ip)
    {
      if ip.iface.Some? && ip.iface.value < |result.interfaces| {
        assert result.interfaces[ip.iface.value].sandbox == vmID <==> ip.iface.value == v;
      }
    }
    FilterSame(result.ips, BelongsTo(result.interfaces, vm.name, vm.sandbox), PointsAt(v));
  }
}
