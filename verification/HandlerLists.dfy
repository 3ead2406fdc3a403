/** Handler lists as sequences: what Remove, AppendAfter and Swap make of a list, and
    what the snapshot option and the chroot strategy make of the default one. */
module HandlerLists {
  import opened Text

  /** The names of handlers.go; anything else a user may register is Custom. */
  datatype Name =
    | StartVMM | BootstrapLogging | CreateLogFiles | CreateMachine | CreateBootSource | AttachDrives
    | CreateNetworkInterfaces | AddVsocks | SetMetadata | ConfigMmds | LinkFiles | SetupNetwork
    | SetupKernelArgs | CreateBalloon | LoadSnapshot
    | ValidateCfg | ValidateJailerCfg | ValidateNetworkCfg | ValidateLoadSnapshotCfg
    | Custom(text: string)

  /** A handler: its name, and which function it runs. */
  datatype Handler = Handler(name: Name, fn: nat)

  function Std(name: Name): Handler { Handler(name, 0) }

  const DEFAULT_FC_INIT: seq<Handler> := [
    Std(SetupNetwork), Std(SetupKernelArgs), Std(StartVMM), Std(CreateLogFiles), Std(BootstrapLogging),
    Std(CreateMachine), Std(CreateBootSource), Std(AttachDrives), Std(CreateNetworkInterfaces),
    Std(AddVsocks), Std(ConfigMmds)]

  /** loadSnapshotRemoveHandlerList, in its order. */
  const SNAPSHOT_REMOVES: seq<Name> := [
    SetupKernelArgs, CreateMachine, CreateBootSource, AttachDrives, CreateNetworkInterfaces, ConfigMmds]

  const REMOVED: set<Name> := {
    SetupKernelArgs, CreateMachine, CreateBootSource, AttachDrives, CreateNetworkInterfaces, ConfigMmds}

  // ---------- the operations ----------

  /** The handlers whose names are not in `names`, in order. */
  function Without(l: seq<Handler>, names: set<Name>): seq<Handler> {
    if l == [] then []
    else (if l[0].name in names then [] else [l[0]]) + Without(l[1..], names)
  }

  /** `h` put after every handler called `name`. */
  function After(l: seq<Handler>, name: Name, h: Handler): seq<Handler> {
    if l == [] then []
    else (if l[0].name == name then [l[0], h] else [l[0]]) + After(l[1..], name, h)
  }

  /** Every handler of h's name replaced by h. */
  function Swapped(l: seq<Handler>, h: Handler): (r: seq<Handler>)
    ensures |r| == |l|
    ensures forall i :: 0 <= i < |l| ==> r[i] == if l[i].name == h.name then h else l[i]
  {
    seq(|l|, i requires 0 <= i < |l| => if l[i].name == h.name then h else l[i])
  }

  predicate Has(l: seq<Handler>, name: Name) {
    exists i :: 0 <= i < |l| && l[i].name == name
  }

  lemma {:induction false} WithoutConcat(a: seq<Handler>, b: seq<Handler>, names: set<Name>)
    ensures Without(a + b, names) == Without(a, names) + Without(b, names)
  {
    if a == [] {
      assert a + b == b;
    } else {
      assert (a + b)[1..] == a[1..] + b;
      WithoutConcat(a[1..], b, names);
    }
  }

  lemma {:induction false} AfterConcat(a: seq<Handler>, b: seq<Handler>, name: Name, h: Handler)
    ensures After(a + b, name, h) == After(a, name, h) + After(b, name, h)
  {
    if a == [] {
      assert a + b == b;
    } else {
      assert (a + b)[1..] == a[1..] + b;
      AfterConcat(a[1..], b, name, h);
    }
  }

  lemma {:induction false} WithoutTwice(l: seq<Handler>, a: set<Name>, b: set<Name>)
    ensures Without(Without(l, a), b) == Without(l, a + b)
  {
    if l != [] {
      WithoutTwice(l[1..], a, b);
      if l[0].name !in a {
        assert Without(l, a)[1..] == Without(l[1..], a);
      } else {
        assert Without(l, a) == Without(l[1..], a);
      }
    }
  }

  /** A handler stays exactly when its name is not removed. */
  lemma {:induction false} WithoutHas(l: seq<Handler>, names: set<Name>, h: Handler)
    ensures h in Without(l, names) <==> h in l && h.name !in names
  {
    if l != [] {
      WithoutHas(l[1..], names, h);
      assert l == [l[0]] + l[1..];
    }
  }

  // ---------- WithSnapshot ----------

  /** Remove called for each name in turn. */
  function RemoveEach(l: seq<Handler>, names: seq<Name>): seq<Handler>
    decreases |names|
  {
    if names == [] then l else RemoveEach(Without(l, {names[0]}), names[1..])
  }

  /** modifyHandlersForLoadSnapshot, for a removal list in any order. */
  function ForSnapshot(l: seq<Handler>, removes: seq<Name>): seq<Handler> {
    RemoveEach(l, removes) + [Std(LoadSnapshot)]
  }

  lemma {:induction false} RemoveEachIsFilter(l: seq<Handler>, names: seq<Name>)
    ensures RemoveEach(l, names) == Without(l, set n | n in names)
    decreases |names|
  {
    if names == [] {
      WithoutNone(l);
      assert (set n | n in names) == {};
    } else {
      RemoveEachIsFilter(Without(l, {names[0]}), names[1..]);
      WithoutTwice(l, {names[0]}, set n | n in names[1..]);
      assert (set n | n in names) == {names[0]} + (set n | n in names[1..]);
    }
  }

  lemma {:induction false} WithoutNone(l: seq<Handler>)
    ensures Without(l, {}) == l
  {
    if l != [] {
      WithoutNone(l[1..]);
    }
  }

  /** What the snapshot option makes of a list, in one go. */
  function Snapshotted(l: seq<Handler>): seq<Handler> {
    Without(l, REMOVED) + [Std(LoadSnapshot)]
  }

  /** The rewriting is an order-preserving filter followed by LoadSnapshot, whatever the
      order of the removals. */
  lemma {:induction false} SnapshotNormalForm(l: seq<Handler>, removes: seq<Name>)
    requires multiset(removes) == multiset(SNAPSHOT_REMOVES)
    ensures ForSnapshot(l, removes) == Snapshotted(l)
  {
    SameNames(removes, SNAPSHOT_REMOVES);
    assert (set n | n in SNAPSHOT_REMOVES) == REMOVED;
    RemoveEachIsFilter(l, removes);
  }

  lemma {:induction false} SameNames(a: seq<Name>, b: seq<Name>)
    requires multiset(a) == multiset(b)
    ensures (set n | n in a) == (set n | n in b)
  {
    forall n
      ensures n in a <==> n in b
    {
      assert n in a <==> n in multiset(a);
      assert n in b <==> n in multiset(b);
    }
  }

  // ---------- the chroot strategy ----------

  function Link(fn: nat): Handler { Handler(LinkFiles, fn) }

  /** AdaptHandlers: an error unless the list creates log files. */
  function Adapted(l: seq<Handler>, link: nat): Option<seq<Handler>> {
    if Has(l, CreateLogFiles) then Some(After(l, CreateLogFiles, Link(link))) else None
  }

  /** Each handler that creates log files has h right after it. */
  predicate Followed(l: seq<Handler>, h: Handler) {
    forall i :: 0 <= i < |l| && l[i].name == CreateLogFiles ==> i + 1 < |l| && l[i + 1] == h
  }

  /** AdaptHandlers in other words: it needs a CreateLogFiles handler; then each of them has
      the new handler right after it, and apart from it nothing changes. */
  lemma {:induction false} AdaptedIs(l: seq<Handler>, link: nat)
    ensures Adapted(l, link).Some? <==> exists h :: h in l && h.name == CreateLogFiles
    ensures Adapted(l, link).Some? ==>
              var a := Adapted(l, link).value;
              && Without(a, {LinkFiles}) == Without(l, {LinkFiles})
              && Followed(a, Handler(LinkFiles, link))
              && ((forall h :: h in l ==> h.name != LinkFiles) ==> Without(a, {LinkFiles}) == l)
  {
    HasIff(l, CreateLogFiles);
    AfterLinks(l, link);
    AfterOnlyAdds(l, link);
    if forall h :: h in l ==> h.name != LinkFiles {
      KeptWhole(l, {LinkFiles});
    }
  }

  lemma {:induction false} KeptWhole(l: seq<Handler>, names: set<Name>)
    requires forall h :: h in l ==> h.name !in names
    ensures Without(l, names) == l
  {
    if l != [] {
      assert forall h :: h in l[1..] ==> h in l;
      KeptWhole(l[1..], names);
    }
  }

  lemma {:induction false} AfterOnlyAdds(l: seq<Handler>, link: nat)
    ensures Without(After(l, CreateLogFiles, Link(link)), {LinkFiles}) == Without(l, {LinkFiles})
  {
    if l != [] {
      AfterOnlyAdds(l[1..], link);
      var tail := After(l[1..], CreateLogFiles, Link(link));
      var head := if l[0].name == CreateLogFiles then [l[0]] + [Link(link)] else [l[0]];
      assert After(l, CreateLogFiles, Link(link)) == head + tail;
      WithoutConcat(head, tail, {LinkFiles});
      WithoutConcat([l[0]], [Link(link)], {LinkFiles});
      Dropped([Link(link)], {LinkFiles});
      WithoutConcat([l[0]], l[1..], {LinkFiles});
      assert l == [l[0]] + l[1..];
    }
  }

  lemma {:induction false} AfterLinks(l: seq<Handler>, link: nat)
    ensures Followed(After(l, CreateLogFiles, Link(link)), Link(link))
  {
    if l != [] {
      var tail := After(l[1..], CreateLogFiles, Link(link));
      AfterLinks(l[1..], link);
      var all := After(l, CreateLogFiles, Link(link));
      if l[0].name == CreateLogFiles {
        assert all == [l[0], Link(link)] + tail;
        assert forall i :: 2 <= i < |all| ==> all[i] == tail[i - 2];
      } else {
        assert all == [l[0]] + tail;
        assert forall i :: 1 <= i < |all| ==> all[i] == tail[i - 1];
      }
    }
  }

  lemma {:induction false} AfterWithout(l: seq<Handler>, names: set<Name>, name: Name, h: Handler)
    requires name !in names && h.name !in names
    ensures After(Without(l, names), name, h) == Without(After(l, name, h), names)
  {
    if l != [] {
      AfterWithout(l[1..], names, name, h);
      var head := if l[0].name == name then [l[0], h] else [l[0]];
      WithoutConcat(head, After(l[1..], name, h), names);
      AfterConcat(if l[0].name in names then [] else [l[0]], Without(l[1..], names), name, h);
      if l[0].name == name {
        assert head == [l[0]] + [h];
        WithoutConcat([l[0]], [h], names);
      }
    }
  }

  /** The snapshot option and the chroot strategy commute, errors included. */
  lemma {:induction false} SnapshotCommutesWithChroot(l: seq<Handler>, link: nat)
    ensures Adapted(Snapshotted(l), link) ==
            match Adapted(l, link)
            case None => None
            case Some(adapted) => Some(Snapshotted(adapted))
  {
    var h := Link(link);
    AfterConcat(Without(l, REMOVED), [Std(LoadSnapshot)], CreateLogFiles, h);
    AfterWithout(l, REMOVED, CreateLogFiles, h);
    assert After([Std(LoadSnapshot)], CreateLogFiles, h) == [Std(LoadSnapshot)];
    SnapshotHas(l, CreateLogFiles);
  }

  lemma {:induction false} HasIff(l: seq<Handler>, name: Name)
    ensures Has(l, name) <==> exists h :: h in l && h.name == name
  {
    if h :| h in l && h.name == name {
      var i :| 0 <= i < |l| && l[i] == h;
      assert l[i].name == name;
    }
  }

  /** The rewriting neither adds nor removes handlers of a name it does not mention. */
  lemma {:induction false} SnapshotHas(l: seq<Handler>, name: Name)
    requires name !in REMOVED && name != LoadSnapshot
    ensures Has(Snapshotted(l), name) <==> Has(l, name)
  {
    var s := Without(l, REMOVED) + [Std(LoadSnapshot)];
    HasIff(l, name);
    HasIff(s, name);
    forall h
      ensures h in s && h.name == name <==> h in l && h.name == name
    {
      WithoutHas(l, REMOVED, h);
    }
  }

  // ---------- every reachable list ----------

  datatype Rewrite = Snapshot | Chroot(link: nat)

  function Rewritten(l: seq<Handler>, r: Rewrite): Option<seq<Handler>> {
    match r
    case Snapshot => Some(Snapshotted(l))
    case Chroot(link) => Adapted(l, link)
  }

  function RewrittenAll(l: seq<Handler>, rs: seq<Rewrite>): Option<seq<Handler>> {
    if rs == [] then Some(l)
    else
      match RewrittenAll(l, rs[..|rs| - 1])
      case None => None
      case Some(m) => Rewritten(m, rs[|rs| - 1])
  }

  /** The names of the handlers whose relative order matters most. */
  function Spine(l: seq<Handler>): seq<Name> {
    if l == [] then []
    else (if l[0].name == SetupNetwork || l[0].name == StartVMM then [l[0].name] else []) + Spine(l[1..])
  }

  /** Each CreateLogFiles is directly followed by a LinkFiles. */
  predicate Linked(l: seq<Handler>) {
    forall i :: 0 <= i < |l| && l[i].name == CreateLogFiles ==> i + 1 < |l| && l[i + 1].name == LinkFiles
  }

  lemma {:induction false} SpineConcat(a: seq<Handler>, b: seq<Handler>)
    ensures Spine(a + b) == Spine(a) + Spine(b)
  {
    if a == [] {
      assert a + b == b;
    } else {
      assert (a + b)[1..] == a[1..] + b && (a + b)[0] == a[0];
      SpineConcat(a[1..], b);
      var head := if a[0].name == SetupNetwork || a[0].name == StartVMM then [a[0].name] else [];
      assert Spine(a + b) == head + (Spine(a[1..]) + Spine(b));
      assert Spine(a) == head + Spine(a[1..]);
    }
  }

  lemma {:induction false} SpineWithout(l: seq<Handler>, names: set<Name>)
    requires SetupNetwork !in names && StartVMM !in names
    ensures Spine(Without(l, names)) == Spine(l)
  {
    if l != [] {
      SpineWithout(l[1..], names);
      if l[0].name !in names {
        SpineConcat([l[0]], Without(l[1..], names));
        assert l == [l[0]] + l[1..];
        SpineConcat([l[0]], l[1..]);
      } else {
        assert Without(l, names) == Without(l[1..], names);
      }
    }
  }

  lemma {:induction false} SpineAfter(l: seq<Handler>, name: Name, h: Handler)
    requires h.name != SetupNetwork && h.name != StartVMM
    ensures Spine(After(l, name, h)) == Spine(l)
  {
    if l != [] {
      SpineAfter(l[1..], name, h);
      var head := if l[0].name == name then [l[0], h] else [l[0]];
      SpineConcat(head, After(l[1..], name, h));
      assert l == [l[0]] + l[1..];
      SpineConcat([l[0]], l[1..]);
      if l[0].name == name {
        assert head == [l[0]] + [h];
        SpineConcat([l[0]], [h]);
        assert Spine([h]) == [];
      }
    }
  }

  lemma {:induction false} LinkedWithout(l: seq<Handler>, names: set<Name>)
    requires Linked(l) && CreateLogFiles !in names && LinkFiles !in names
    ensures Linked(Without(l, names))
    ensures l != [] && l[0].name == LinkFiles ==> Without(l, names) != [] && Without(l, names)[0] == l[0]
  {
    if l != [] {
      var rest := l[1..];
      assert forall i :: 0 <= i < |rest| ==> rest[i] == l[i + 1];
      LinkedWithout(rest, names);
      if l[0].name !in names {
        var kept := Without(rest, names);
        assert Without(l, names) == [l[0]] + kept;
        assert forall i :: 0 < i <= |kept| ==> Without(l, names)[i] == kept[i - 1];
      } else {
        assert Without(l, names) == Without(rest, names);
      }
    }
  }

  lemma {:induction false} LinkedAfter(l: seq<Handler>, link: nat)
    ensures Linked(After(l, CreateLogFiles, Link(link)))
  {
    if l != [] {
      var tail := After(l[1..], CreateLogFiles, Link(link));
      LinkedAfter(l[1..], link);
      var all := After(l, CreateLogFiles, Link(link));
      if l[0].name == CreateLogFiles {
        assert all == [l[0], Link(link)] + tail;
        assert forall i :: 2 <= i < |all| ==> all[i] == tail[i - 2];
      } else {
        assert all == [l[0]] + tail;
        assert forall i :: 1 <= i < |all| ==> all[i] == tail[i - 1];
      }
    }
  }

  lemma {:induction false} SnapshotKeeps(m: seq<Handler>)
    ensures var s := Snapshotted(m);
            Spine(s) == Spine(m) && (Linked(m) ==> Linked(s))
  {
    var kept := Without(m, REMOVED);
    SpineWithout(m, REMOVED);
    SpineConcat(kept, [Std(LoadSnapshot)]);
    assert Spine([Std(LoadSnapshot)]) == [];
    if Linked(m) {
      LinkedWithout(m, REMOVED);
      LinkedMore(kept, Std(LoadSnapshot));
    }
  }

  lemma {:induction false} LinkedMore(l: seq<Handler>, h: Handler)
    requires Linked(l) && h.name != CreateLogFiles
    ensures Linked(l + [h])
  {
  }

  /** Rewriting any list, in any way any number of times, keeps the order and number of
      its SetupNetwork and StartVMM handlers, and from the first chroot on each
      CreateLogFiles is directly followed by LinkFiles. */
  lemma {:induction false} RewritesKeep(l: seq<Handler>, rs: seq<Rewrite>)
    requires RewrittenAll(l, rs).Some?
    ensures Spine(RewrittenAll(l, rs).value) == Spine(l)
    ensures (exists i :: 0 <= i < |rs| && rs[i].Chroot?) ==> Linked(RewrittenAll(l, rs).value)
  {
    if rs != [] {
      var n := |rs| - 1;
      RewritesKeep(l, rs[..n]);
      var m := RewrittenAll(l, rs[..n]).value;
      if rs[n].Snapshot? {
        SnapshotKeeps(m);
        if i :| 0 <= i < |rs| && rs[i].Chroot? {
          assert rs[..n][i].Chroot?;
        }
      } else {
        SpineAfter(m, CreateLogFiles, Link(rs[n].link));
        LinkedAfter(m, rs[n].link);
      }
    }
  }

  /** The default list in particular: one StartVMM, and one SetupNetwork before it. */
  lemma {:induction false} DefaultSpine(rs: seq<Rewrite>)
    requires RewrittenAll(DEFAULT_FC_INIT, rs).Some?
    ensures Spine(RewrittenAll(DEFAULT_FC_INIT, rs).value) == [SetupNetwork, StartVMM]
  {
    RewritesKeep(DEFAULT_FC_INIT, rs);
    SpineOfDefault();
  }

  /** The default list for a snapshot, in full. */
  lemma DefaultSnapshot()
    ensures Snapshotted(DEFAULT_FC_INIT) == [
              Std(SetupNetwork), Std(StartVMM), Std(CreateLogFiles), Std(BootstrapLogging), Std(AddVsocks), Std(LoadSnapshot)]
  {
    var l := DEFAULT_FC_INIT;
    DefaultShape(l);
  }

  lemma {:induction false} DefaultShape(l: seq<Handler>)
    requires |l| == 11
    requires forall i :: i in {0, 2, 3, 4, 9} ==> l[i].name !in REMOVED
    requires forall i :: i in {1, 5, 6, 7, 8, 10} ==> l[i].name in REMOVED
    ensures Without(l, REMOVED) == [l[0], l[2], l[3], l[4], l[9]]
  {
    var a, b, c := l[..5], l[5..9], l[9..];
    assert l == a + b + c && a == [l[0], l[1], l[2], l[3], l[4]] && c == [l[9]] + [l[10]];
    WithoutConcat(a + b, c, REMOVED);
    WithoutConcat(a, b, REMOVED);
    WithoutConcat([l[9]], [l[10]], REMOVED);
    Five(l[0], l[1], l[2], l[3], l[4]);
    Dropped(b, REMOVED);
    Dropped([l[10]], REMOVED);
    KeptWhole([l[9]], REMOVED);
  }

  lemma {:induction false} Dropped(l: seq<Handler>, names: set<Name>)
    requires forall i :: 0 <= i < |l| ==> l[i].name in names
    ensures Without(l, names) == []
  {
    if l != [] {
      Dropped(l[1..], names);
    }
  }

  lemma {:induction false} Five(a: Handler, b: Handler, c: Handler, d: Handler, e: Handler)
    requires a.name !in REMOVED && b.name in REMOVED && c.name !in REMOVED && d.name !in REMOVED && e.name !in REMOVED
    ensures Without([a, b, c, d, e], REMOVED) == [a, c, d, e]
  {
    WithoutConcat([a], [b], REMOVED);
    Dropped([b], REMOVED);
    KeptWhole([a], REMOVED);
    KeptWhole([c, d, e], REMOVED);
    WithoutConcat([a] + [b], [c, d, e], REMOVED);
    assert [a] + [b] + [c, d, e] == [a, b, c, d, e];
  }

  lemma SpineOfDefault()
    ensures Spine(DEFAULT_FC_INIT) == [SetupNetwork, StartVMM]
  {
    SpineShape(DEFAULT_FC_INIT);
  }

  lemma {:induction false} SpineShape(l: seq<Handler>)
    requires |l| >= 3 && l[0].name == SetupNetwork && l[2].name == StartVMM
    requires forall i :: 0 <= i < |l| && i != 0 && i != 2 ==> l[i].name != SetupNetwork && l[i].name != StartVMM
    ensures Spine(l) == [SetupNetwork, StartVMM]
  {
    SpineNone(l[3..]);
    assert l[2..][1..] == l[3..] && l[1..][1..] == l[2..];
    assert Spine(l[2..]) == [StartVMM];
    assert Spine(l[1..]) == Spine(l[2..]);
  }

  lemma {:induction false} SpineNone(l: seq<Handler>)
    requires forall i :: 0 <= i < |l| ==> l[i].name != SetupNetwork && l[i].name != StartVMM
    ensures Spine(l) == []
  {
    if l != [] {
      SpineNone(l[1..]);
    }
  }
}
